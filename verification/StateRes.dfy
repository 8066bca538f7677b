/**
 * State resolution as it runs: loops over snapshots and events that share one auth-chain memo
 * table and one position memo table, against the functions of module Resolution.
 */
module StateRes {
  import opened Wrappers
  import opened Events
  import opened PowerLevels
  import opened Auth
  import opened Orders
  import opened AuthGraph
  import Subgraph
  import opened Kahn
  import opened PowerOrder
  import opened Mainline
  import opened Resolution

  datatype StateResError = MissingEvent(id: EventId) | MissingCreate

  // ---------------------------------------------------------------- partition

  predicate SameEverywhere(snapshots: seq<StateIds>, k: Key)
    requires snapshots != []
  {
    k in snapshots[0] && forall s :: s in snapshots ==> k in s && s[k] == snapshots[0][k]
  }

  lemma SameEverywhereMeaning(snapshots: seq<StateIds>, k: Key)
    requires snapshots != []
    ensures SameEverywhere(snapshots, k) <==> k in Unconflicted(Members(snapshots))
    ensures SameEverywhere(snapshots, k) ==> Unconflicted(Members(snapshots))[k] == snapshots[0][k]
  {
    assert snapshots[0] in Members(snapshots);
    assert forall s :: s in snapshots <==> s in Members(snapshots);
    if SameEverywhere(snapshots, k) {
      UnconflictedMeaning(Members(snapshots), k, snapshots[0][k]);
    } else if k in Unconflicted(Members(snapshots)) {
      UnconflictedMeaning(Members(snapshots), k, Unconflicted(Members(snapshots))[k]);
    }
  }

  /** The entries all snapshots share, and the values of all other entries. */
  method Partition(snapshots: seq<StateIds>) returns (unconflicted: StateIds, conflicted: set<EventId>)
    requires snapshots != []
    ensures unconflicted == Unconflicted(Members(snapshots))
    ensures conflicted == Conflicted(Members(snapshots))
  {
    var keys: set<Key> := {};
    for i := 0 to |snapshots|
      invariant forall k :: k in keys <==> exists s :: s in snapshots[..i] && k in s
    {
      assert snapshots[..i + 1] == snapshots[..i] + [snapshots[i]];
      keys := keys + snapshots[i].Keys;
    }
    assert snapshots[..|snapshots|] == snapshots;
    unconflicted, conflicted := map[], {};
    ghost var agreed := Unconflicted(Members(snapshots));
    var left := keys;
    while left != {}
      invariant left <= keys
      invariant forall k :: k in unconflicted <==> k in agreed && k in keys - left
      invariant forall k :: k in unconflicted ==> unconflicted[k] == agreed[k]
      invariant forall id :: id in conflicted <==> Disputed(snapshots, keys - left, agreed, id)
      decreases left
    {
      var k :| k in left;
      SameEverywhereMeaning(snapshots, k);
      ghost var before := keys - left;
      if SameEverywhere(snapshots, k) {
        unconflicted := unconflicted[k := snapshots[0][k]];
      } else {
        conflicted := conflicted + set s | s in snapshots && k in s :: s[k];
      }
      left := left - {k};
      assert keys - left == before + {k};
    }
    assert keys - left == keys;
    KeysCover(snapshots, keys, agreed, conflicted);
    assert unconflicted == agreed by {
      forall k | k in agreed ensures k in keys {
        SameEverywhereMeaning(snapshots, k);
        assert snapshots[0] in snapshots;
      }
    }
  }

  /** id is the value of a disputed key among some keys. */
  ghost predicate Disputed(snapshots: seq<StateIds>, keys: set<Key>, agreed: StateIds, id: EventId) {
    exists s, k :: s in snapshots && k in keys && k in s && k !in agreed && s[k] == id
  }

  lemma KeysCover(snapshots: seq<StateIds>, keys: set<Key>, agreed: StateIds, conflicted: set<EventId>)
    requires agreed == Unconflicted(Members(snapshots))
    requires forall k :: k in keys <==> exists s :: s in snapshots && k in s
    requires forall id :: id in conflicted <==> Disputed(snapshots, keys, agreed, id)
    ensures conflicted == Conflicted(Members(snapshots))
  {
  }

  // ---------------------------------------------------------------- auth difference

  ghost predicate StateComplete(fetch: Fetch, s: StateIds) {
    forall k :: k in s ==> Complete(fetch, s[k])
  }

  /** The union of the auth chains of a snapshot's events. */
  method StateChain(s: StateIds, fetch: Fetch, cache: Cache, ghost rank: EventId -> nat)
    returns (r: Result<set<EventId>, EventId>, cache': Cache)
    requires RankedBy(fetch, rank) && CacheOk(fetch, cache)
    ensures CacheOk(fetch, cache')
    ensures r.Ok? <==> StateComplete(fetch, s)
    ensures r.Ok? ==> r.value == ChainOfState(fetch, s)
    ensures r.Err? ==> r.error !in fetch
  {
    cache' := cache;
    var chain: set<EventId> := {};
    var left := s.Keys;
    while left != {}
      invariant left <= s.Keys && CacheOk(fetch, cache')
      invariant forall k :: k in s.Keys - left ==> Complete(fetch, s[k])
      invariant chain == ChainOfKeys(fetch, s, s.Keys - left)
      decreases left
    {
      var k :| k in left;
      var one;
      one, cache' := AuthChain(s[k], fetch, cache', rank);
      if one.Err? {
        return Err(one.error), cache';
      }
      ChainOfOneMore(fetch, s, s.Keys - left, k);
      chain := chain + one.value;
      assert s.Keys - (left - {k}) == s.Keys - left + {k};
      left := left - {k};
    }
    assert s.Keys - left == s.Keys;
    assert ChainOfKeys(fetch, s, s.Keys) == ChainOfState(fetch, s);
    r := Ok(chain);
  }

  ghost function ChainOfKeys(fetch: Fetch, s: StateIds, keys: set<Key>): set<EventId> {
    set x | x in fetch && exists k :: k in keys && k in s && Above(fetch, s[k], x)
  }

  lemma ChainOfOneMore(fetch: Fetch, s: StateIds, keys: set<Key>, k: Key)
    requires k in s
    ensures ChainOfKeys(fetch, s, keys + {k}) == ChainOfKeys(fetch, s, keys) + Chain(fetch, s[k])
  {
  }

  /** One chain per snapshot; the difference is their union without their intersection. */
  method Difference(snapshots: seq<StateIds>, fetch: Fetch, ghost rank: EventId -> nat)
    returns (r: Result<set<EventId>, EventId>, cache: Cache)
    requires RankedBy(fetch, rank) && snapshots != []
    ensures CacheOk(fetch, cache)
    ensures r.Ok? <==> AllComplete(fetch, Members(snapshots))
    ensures r.Ok? ==> r.value == AuthDifference(fetch, Members(snapshots))
    ensures r.Err? ==> r.error !in fetch
  {
    cache := map[];
    var chains: seq<set<EventId>> := [];
    var union: set<EventId> := {};
    for i := 0 to |snapshots|
      invariant CacheOk(fetch, cache) && |chains| == i
      invariant forall j :: 0 <= j < i ==> StateComplete(fetch, snapshots[j])
      invariant forall j :: 0 <= j < i ==> chains[j] == ChainOfState(fetch, snapshots[j])
      invariant forall x :: x in union <==> exists j :: 0 <= j < i && x in chains[j]
    {
      var chain;
      chain, cache := StateChain(snapshots[i], fetch, cache, rank);
      if chain.Err? {
        assert snapshots[i] in Members(snapshots);
        return Err(chain.error), cache;
      }
      chains := chains + [chain.value];
      union := union + chain.value;
    }
    var difference := set x | x in union && exists j :: 0 <= j < |chains| && x !in chains[j];
    DifferenceMeaning(fetch, snapshots, chains, union, difference);
    r := Ok(difference);
  }

  lemma DifferenceMeaning(fetch: Fetch, snapshots: seq<StateIds>, chains: seq<set<EventId>>,
                          union: set<EventId>, difference: set<EventId>)
    requires |chains| == |snapshots|
    requires forall j :: 0 <= j < |chains| ==> StateComplete(fetch, snapshots[j])
    requires forall j :: 0 <= j < |chains| ==> chains[j] == ChainOfState(fetch, snapshots[j])
    requires forall x :: x in union <==> exists j :: 0 <= j < |chains| && x in chains[j]
    requires difference == set x | x in union && exists j :: 0 <= j < |chains| && x !in chains[j]
    ensures AllComplete(fetch, Members(snapshots))
    ensures difference == AuthDifference(fetch, Members(snapshots))
  {
  }

  // ---------------------------------------------------------------- power events

  method CollectPower(full: set<EventId>, fetch: Fetch, cache: Cache, ghost rank: EventId -> nat)
    returns (power: set<EventId>, cache': Cache)
    requires RankedBy(fetch, rank) && CacheOk(fetch, cache)
    requires forall id :: id in full ==> id in fetch && Complete(fetch, id)
    ensures CacheOk(fetch, cache') && power == PowerSet(fetch, full)
  {
    power, cache' := {}, cache;
    var left := full;
    while left != {}
      invariant left <= full && CacheOk(fetch, cache')
      invariant power == PowerFrom(fetch, full, full - left)
      decreases left
    {
      var id :| id in left;
      assert full - (left - {id}) == full - left + {id};
      if IsPowerEvent(fetch[id]) {
        var chain;
        chain, cache' := AuthChain(id, fetch, cache', rank);
        power := power + {id} + (set a | a in chain.value && a in full);
        assert power == PowerFrom(fetch, full, full - left + {id});
      } else {
        assert power == PowerFrom(fetch, full, full - left + {id});
      }
      left := left - {id};
    }
    assert full - left == full;
    assert PowerFrom(fetch, full, full) == PowerSet(fetch, full);
  }

  ghost function PowerFrom(fetch: Fetch, full: set<EventId>, seen: set<EventId>): set<EventId> {
    set x | x in full && exists p :: p in seen && p in fetch && IsPowerEvent(fetch[p])
                                     && (x == p || x in Chain(fetch, p))
  }

  // ---------------------------------------------------------------- iterative auth checks

  method FindInAuthEvents(fetch: Fetch, auth: seq<EventId>, key: Key) returns (found: Option<Event>)
    ensures found == FromAuthEvents(fetch, auth, key)
  {
    for i := 0 to |auth|
      invariant FromAuthEvents(fetch, auth, key) == FromAuthEvents(fetch, auth[i..], key)
    {
      if auth[i] in fetch && fetch[auth[i]].Key() == key {
        return Some(fetch[auth[i]]);
      }
    }
    return None;
  }

  /** The reduced state one event is checked against. */
  method Assemble(prims: Primitives, version: RoomVersion, fetch: Fetch, state: StateIds, e: Event)
    returns (missing: Option<EventId>, effective: State)
    ensures missing.Some? ==>
              && missing.value !in fetch
              && exists k :: k in Needed(version, e) && k in state && state[k] !in fetch
    ensures missing.None? ==> forall k :: k in Needed(version, e) && k in state ==> state[k] in fetch
    ensures missing.None? ==> effective == Effective(prims, version, fetch, state, e)
  {
    effective := map[];
    var needed := Needed(version, e);
    var left := needed;
    while left != {}
      invariant left <= needed
      invariant forall k :: k in needed - left && k in state ==> state[k] in fetch
      invariant effective == StandingFor(prims, version, fetch, state, e, needed - left)
      decreases left
    {
      var k :| k in left;
      if k in state && state[k] !in fetch {
        return Some(state[k]), effective;
      }
      var standing := FindStanding(prims, version, fetch, state, e, k);
      ghost var before := effective;
      if standing.Some? {
        effective := effective[k := standing.value];
      }
      StandingMore(prims, version, fetch, state, e, needed - left, k, before, effective);
      assert needed - (left - {k}) == needed - left + {k};
      left := left - {k};
    }
    assert needed - left == needed;
    missing := None;
  }

  /** The part of the effective state that stands for some of the needed keys. */
  ghost function StandingFor(prims: Primitives, version: RoomVersion, fetch: Fetch, state: StateIds, e: Event,
                             keys: set<Key>): State
  {
    map k | k in keys && Stands(prims, version, fetch, state, e, k).Some? ::
      Stands(prims, version, fetch, state, e, k).value
  }

  lemma StandingMore(prims: Primitives, version: RoomVersion, fetch: Fetch, state: StateIds, e: Event,
                     keys: set<Key>, k: Key, before: State, after: State)
    requires before == StandingFor(prims, version, fetch, state, e, keys)
    requires var s := Stands(prims, version, fetch, state, e, k);
             after == if s.Some? then before[k := s.value] else before
    requires k !in keys
    ensures after == StandingFor(prims, version, fetch, state, e, keys + {k})
  {
  }

  method FindStanding(prims: Primitives, version: RoomVersion, fetch: Fetch, state: StateIds, e: Event, k: Key)
    returns (standing: Option<Event>)
    ensures standing == Stands(prims, version, fetch, state, e, k)
  {
    if k in state {
      standing := Lookup'(fetch, state[k]);
    } else if k.0.CreateEvent? && version.RoomIdIsCreateEventId() {
      standing := None;
      if e.roomId.Some? && prims.validEventId("$" + Localpart(e.roomId.value)) {
        standing := Lookup'(fetch, "$" + Localpart(e.roomId.value));
      }
    } else {
      standing := FindInAuthEvents(fetch, e.authEvents, k);
    }
  }

  method IterativeAuthChecks(prims: Primitives, version: RoomVersion, order: seq<EventId>, initial: StateIds,
                             fetch: Fetch)
    returns (r: Result<StateIds, EventId>)
    ensures r.Ok? <==> CheckAll(prims, version, fetch, initial, order).Some?
    ensures r.Ok? ==> r.value == CheckAll(prims, version, fetch, initial, order).value
    ensures r.Err? ==> r.error !in fetch
  {
    var state := initial;
    for i := 0 to |order|
      invariant CheckAll(prims, version, fetch, initial, order) ==
                CheckAll(prims, version, fetch, state, order[i..])
    {
      var id := order[i];
      if id !in fetch {
        return Err(id);
      }
      var missing, effective := Assemble(prims, version, fetch, state, fetch[id]);
      if missing.Some? {
        return Err(missing.value);
      }
      assert order[i..][1..] == order[i + 1..];
      if Allowed(prims, version, fetch[id], effective) {
        state := state[fetch[id].Key() := id];
      }
    }
    r := Ok(state);
  }

  // ---------------------------------------------------------------- mainline ordering

  method MainlineSort(ids: set<EventId>, mainline: Index, fetch: Fetch, ghost rank: EventId -> nat)
    returns (q: seq<EventId>)
    requires RankedBy(fetch, rank) && forall id :: id in ids ==> id in fetch && Complete(fetch, id)
    ensures var places := PlacesOf(fetch, rank, mainline, ids);
            TotalOn(Earlier(places), ids) && q == Listing(Earlier(places), ids)
  {
    var places: Places, cache: Index := map[], map[];
    var left := ids;
    while left != {}
      invariant left <= ids && PositionsOk(fetch, rank, mainline, cache)
      invariant places == PlacesOf(fetch, rank, mainline, ids - left)
      decreases left
    {
      var id :| id in left;
      var position;
      position, cache := MainlinePosition(id, mainline, fetch, cache, rank);
      assert ids - (left - {id}) == ids - left + {id};
      places := places[id := Place(position.value, fetch[id].ts, id)];
      left := left - {id};
    }
    assert ids - left == ids;
    EarlierTotal(places);
    assert places.Keys == ids;
    q := Sort(Earlier(places), ids);
  }

  // ---------------------------------------------------------------- the whole algorithm

  method FindCreate(snapshots: seq<StateIds>) returns (create: Option<EventId>)
    ensures create == FirstCreate(snapshots)
  {
    for i := 0 to |snapshots|
      invariant FirstCreate(snapshots) == FirstCreate(snapshots[i..])
    {
      if CREATE in snapshots[i] {
        return Some(snapshots[i][CREATE]);
      }
    }
    return None;
  }

  lemma UnconflictedCreate(snapshots: seq<StateIds>)
    requires snapshots != [] && CREATE in Unconflicted(Members(snapshots))
    ensures FirstCreate(snapshots) == Some(Unconflicted(Members(snapshots))[CREATE])
  {
  }

  lemma FirstCreateHeld(fetch: Fetch, snapshots: seq<StateIds>)
    requires AllComplete(fetch, Members(snapshots)) && FirstCreate(snapshots).Some?
    ensures FirstCreate(snapshots).value in fetch
  {
    FirstCreateMeaning(snapshots);
    var s :| s in snapshots && CREATE in s && s[CREATE] == FirstCreate(snapshots).value;
    assert s in Members(snapshots);
    CompleteUnfolds(fetch, s[CREATE]);
  }

  /** The power events, ordered and checked. */
  method SettlePower(prims: Primitives, version: RoomVersion, fetch: Fetch, creators: set<UserId>,
                     full: set<EventId>, start: StateIds, cache: Cache, ghost rank: EventId -> nat)
    returns (power: set<EventId>, partial: StateIds)
    requires RankedBy(fetch, rank) && CacheOk(fetch, cache) && full <= fetch.Keys
    requires forall id :: id in full ==> Complete(fetch, id)
    requires AfterPower(prims, version, fetch, creators, full, start).Some?
    ensures power == PowerSet(fetch, full)
    ensures AfterPower(prims, version, fetch, creators, full, start) == Some(partial)
  {
    var cache1, sorted;
    power, cache1 := CollectPower(full, fetch, cache, rank);
    sorted, cache1 := ReverseTopologicalPowerOrder(version, power, fetch, creators, cache1, rank);
    PowerOrderingIs(version, creators, fetch, power, rank, sorted.value);
    var r := IterativeAuthChecks(prims, version, sorted.value, start, fetch);
    partial := r.value;
  }

  lemma PartialComplete(prims: Primitives, version: RoomVersion, fetch: Fetch, creators: set<UserId>,
                        full: set<EventId>, start: StateIds)
    requires full <= fetch.Keys && Held(fetch, start) && StateComplete(fetch, start)
    requires forall id :: id in full ==> Complete(fetch, id)
    ensures AfterPower(prims, version, fetch, creators, full, start).Some?
    ensures StateComplete(fetch, AfterPower(prims, version, fetch, creators, full, start).value)
  {
    var power := PowerSet(fetch, full);
    OrderingMembers(version, creators, fetch, power);
    CheckAllRuns(prims, version, fetch, start, PowerOrdering(version, creators, fetch, power));
  }

  /** Both orderings and both rounds of checks, given the full conflicted set. */
  method Settle(prims: Primitives, version: RoomVersion, fetch: Fetch, creators: set<UserId>,
                full: set<EventId>, start: StateIds, cache: Cache, ghost rank: EventId -> nat)
    returns (resolved: StateIds)
    requires RankedBy(fetch, rank) && CacheOk(fetch, cache) && full <= fetch.Keys
    requires Held(fetch, start) && StateComplete(fetch, start)
    requires forall id :: id in full ==> Complete(fetch, id)
    ensures AfterAll(prims, version, fetch, rank, creators, full, start) == Some(resolved)
  {
    PartialComplete(prims, version, fetch, creators, full, start);
    AllGrows(prims, version, fetch, rank, creators, full, start);
    var power, partial := SettlePower(prims, version, fetch, creators, full, start, cache, rank);
    resolved := SettleRest(prims, version, fetch, full, power, partial, rank);
  }

  method SettleRest(prims: Primitives, version: RoomVersion, fetch: Fetch, full: set<EventId>,
                    power: set<EventId>, partial: StateIds, ghost rank: EventId -> nat)
    returns (resolved: StateIds)
    requires RankedBy(fetch, rank) && full <= fetch.Keys && power == PowerSet(fetch, full)
    requires forall id :: id in full ==> Complete(fetch, id)
    requires LevelsOf(partial).Some? ==> Complete(fetch, LevelsOf(partial).value)
    requires AfterRest(prims, version, fetch, rank, full, partial).Some?
    ensures AfterRest(prims, version, fetch, rank, full, partial) == Some(resolved)
  {
    var mainline := BuildMainline(LevelsOf(partial), fetch, rank);
    MainlineOfIs(fetch, rank, LevelsOf(partial), mainline.value);
    var sorted := MainlineSort(full - power, mainline.value, fetch, rank);
    assert sorted == MainlineOrdering(fetch, rank, LevelsOf(partial), full - power);
    var r := IterativeAuthChecks(prims, version, sorted, partial, fetch);
    resolved := r.value;
  }

  lemma StartComplete(version: RoomVersion, fetch: Fetch, sets: set<StateIds>)
    requires AllComplete(fetch, sets)
    ensures StateComplete(fetch, StartingState(version, sets))
  {
  }

  /** The full conflicted set of snapshots whose events are all at hand. */
  method CollectConflicted(version: RoomVersion, conflicted: set<EventId>, difference: set<EventId>,
                           fetch: Fetch, ghost sets: set<StateIds>)
    returns (full: set<EventId>)
    requires AllComplete(fetch, sets)
    requires conflicted == Conflicted(sets) && difference == AuthDifference(fetch, sets)
    ensures full == FullConflicted(version, fetch, sets)
  {
    full := conflicted + difference;
    if version.StateResV21() {
      var between := Subgraph.ConflictedSubgraph(conflicted, fetch);
      full := full + between.value;
    }
  }

  /**
   * Resolution of a list of snapshots. Whatever the list, the outcome is the function Resolved
   * of the set of snapshots in it and the create event it names first.
   */
  method Resolve(prims: Primitives, version: RoomVersion, snapshots: seq<StateIds>, fetch: Fetch,
                 ghost rank: EventId -> nat)
    returns (r: Result<StateIds, StateResError>)
    requires RankedBy(fetch, rank)
    ensures Conflicted(Members(snapshots)) == {} ==> r == Ok(Unconflicted(Members(snapshots)))
    ensures Conflicted(Members(snapshots)) != {} && !AllComplete(fetch, Members(snapshots)) ==>
            r.Err? && r.error.MissingEvent? && r.error.id !in fetch
    ensures Conflicted(Members(snapshots)) != {} && AllComplete(fetch, Members(snapshots)) ==>
            if FirstCreate(snapshots).None? then r == Err(MissingCreate)
            else r.Ok? && Outcome(prims, version, fetch, rank, snapshots, r.value)
  {
    if snapshots == [] {
      return Ok(map[]);
    }
    ghost var sets := Members(snapshots);
    var unconflicted, conflicted := Partition(snapshots);
    if conflicted == {} {
      return Ok(unconflicted);
    }
    var difference, cache := Difference(snapshots, fetch, rank);
    if difference.Err? {
      return Err(MissingEvent(difference.error));
    }
    var full := CollectConflicted(version, conflicted, difference.value, fetch, sets);
    var create := FindCreate(snapshots);
    if CREATE in unconflicted {
      UnconflictedCreate(snapshots);
      create := Some(unconflicted[CREATE]);
    }
    if create.None? {
      return Err(MissingCreate);
    }
    FirstCreateHeld(fetch, snapshots);
    FullConflictedComplete(version, fetch, sets);
    StartHeld(version, fetch, sets);
    StartComplete(version, fetch, sets);
    var start := if version.StateResV21() then map[] else unconflicted;
    var creators := Creators(prims, version, fetch[create.value]);
    var settled := Settle(prims, version, fetch, creators, full, start, cache, rank);
    r := Ok(settled + unconflicted);
  }

  /** The resolved state of a list of snapshots. */
  ghost predicate Outcome(prims: Primitives, version: RoomVersion, fetch: Fetch, rank: EventId -> nat,
                          snapshots: seq<StateIds>, r: StateIds)
    requires RankedBy(fetch, rank)
  {
    && FullConflicted(version, fetch, Members(snapshots)) <= fetch.Keys
    && Resolved(prims, version, fetch, rank, Members(snapshots), FirstCreate(snapshots)) == Some(r)
  }

  /**
   * Reordering or repeating snapshots never changes the outcome, provided the create events they
   * name make the same users creators.
   */
  method ResolveReordered(prims: Primitives, version: RoomVersion, p: seq<StateIds>, q: seq<StateIds>,
                          fetch: Fetch, ghost rank: EventId -> nat)
    returns (r: Result<StateIds, StateResError>, t: Result<StateIds, StateResError>)
    requires RankedBy(fetch, rank) && Members(p) == Members(q) && SameCreators(prims, version, fetch, Members(p))
    requires AllComplete(fetch, Members(p))
    ensures r == t
  {
    r := Resolve(prims, version, p, fetch, rank);
    t := Resolve(prims, version, q, fetch, rank);
    FirstCreateMeaning(p);
    FirstCreateMeaning(q);
    assert forall s :: s in p <==> s in Members(p);
    assert forall s :: s in q <==> s in Members(q);
    if Conflicted(Members(p)) != {} && FirstCreate(p).Some? {
      FirstCreateHeld(fetch, p);
      FirstCreateHeld(fetch, q);
      CreatorsDecide(prims, version, fetch, rank, Members(p), FirstCreate(p).value, FirstCreate(q).value);
    }
  }
}
