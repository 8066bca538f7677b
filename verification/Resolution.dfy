/**
 * What state resolution v2 and v2.1 compute, written as functions of the *set* of snapshots:
 * nothing here can depend on their order or multiplicity.
 */
module Resolution {
  import opened Wrappers
  import opened Events
  import opened PowerLevels
  import opened Auth
  import opened Orders
  import opened AuthGraph
  import Subgraph
  import opened Kahn
  import opened PowerOrder
  import opened Mainline

  type StateIds = map<Key, EventId>

  // ---------------------------------------------------------------- what is in conflict

  ghost predicate AllSay(sets: set<StateIds>, k: Key, id: EventId) {
    forall s :: s in sets ==> k in s && s[k] == id
  }

  /** The entries on which all snapshots agree. */
  ghost function Unconflicted(sets: set<StateIds>): StateIds {
    if sets == {} then map[]
    else
      var s :| s in sets;
      map k | k in s && AllSay(sets, k, s[k]) :: s[k]
  }

  /** The meaning of Unconflicted, free of the snapshot chosen in its definition. */
  lemma UnconflictedMeaning(sets: set<StateIds>, k: Key, id: EventId)
    requires sets != {}
    ensures k in Unconflicted(sets) && Unconflicted(sets)[k] == id <==> AllSay(sets, k, id)
  {
  }

  /** All other values. */
  ghost function Conflicted(sets: set<StateIds>): set<EventId> {
    set s, k | s in sets && k in s && k !in Unconflicted(sets) :: s[k]
  }

  ghost function ChainOfState(fetch: Fetch, s: StateIds): set<EventId> {
    set x | x in fetch && exists k :: k in s && Above(fetch, s[k], x)
  }

  ghost function AuthDifference(fetch: Fetch, sets: set<StateIds>): set<EventId> {
    set x | x in fetch && (exists s :: s in sets && x in ChainOfState(fetch, s))
                       && !(forall s :: s in sets ==> x in ChainOfState(fetch, s))
  }

  ghost function FullConflicted(version: RoomVersion, fetch: Fetch, sets: set<StateIds>): set<EventId> {
    Conflicted(sets) + AuthDifference(fetch, sets)
    + (if version.StateResV21() then Subgraph.Between(fetch, Conflicted(sets)) else {})
  }

  // ---------------------------------------------------------------- the create event

  /** All snapshots that name a create event name the same one. */
  ghost predicate OneCreate(sets: set<StateIds>) {
    forall s, t :: s in sets && t in sets && CREATE in s && CREATE in t ==> s[CREATE] == t[CREATE]
  }

  /** The create event that a list of snapshots names first. */
  function FirstCreate(snapshots: seq<StateIds>): Option<EventId> {
    if snapshots == [] then None
    else if CREATE in snapshots[0] then Some(snapshots[0][CREATE])
    else FirstCreate(snapshots[1..])
  }

  lemma {:induction false} FirstCreateMeaning(snapshots: seq<StateIds>)
    ensures FirstCreate(snapshots).Some? <==> exists s :: s in snapshots && CREATE in s
    ensures FirstCreate(snapshots).Some? ==>
            exists s :: s in snapshots && CREATE in s && s[CREATE] == FirstCreate(snapshots).value
    decreases |snapshots|
  {
    if snapshots != [] {
      FirstCreateMeaning(snapshots[1..]);
      assert snapshots[0] in snapshots;
      assert forall s :: s in snapshots[1..] ==> s in snapshots;
    }
  }

  /** Lists with the same snapshots that name one create event name the same one first. */
  lemma FirstCreateAgrees(p: seq<StateIds>, q: seq<StateIds>)
    requires Members(p) == Members(q) && OneCreate(Members(p))
    ensures FirstCreate(p) == FirstCreate(q)
  {
    FirstCreateMeaning(p);
    FirstCreateMeaning(q);
    assert forall s :: s in p <==> s in Members(p);
    assert forall s :: s in q <==> s in Members(q);
  }

  lemma {:induction false} Enumerable(sets: set<StateIds>) returns (q: seq<StateIds>)
    ensures Members(q) == sets
    decreases sets
  {
    if sets == {} {
      q := [];
    } else {
      var s :| s in sets;
      var rest := Enumerable(sets - {s});
      q := [s] + rest;
      assert forall t :: t in q <==> t == s || t in Members(rest);
    }
  }

  /** The order of the snapshots is irrelevant to the create event exactly under OneCreate. */
  lemma OneCreateExact(sets: set<StateIds>)
    ensures OneCreate(sets) <==>
            forall p, q :: Members(p) == sets && Members(q) == sets ==> FirstCreate(p) == FirstCreate(q)
  {
    if OneCreate(sets) {
      forall p, q | Members(p) == sets && Members(q) == sets ensures FirstCreate(p) == FirstCreate(q) {
        FirstCreateAgrees(p, q);
      }
    } else {
      var s, t :| s in sets && t in sets && CREATE in s && CREATE in t && s[CREATE] != t[CREATE];
      var rest := Enumerable(sets);
      var p, q := [s] + rest, [t] + rest;
      assert forall x :: x in p <==> x == s || x in Members(rest);
      assert forall x :: x in q <==> x == t || x in Members(rest);
      assert Members(p) == sets && Members(q) == sets;
      assert FirstCreate(p) != FirstCreate(q);
    }
  }

  // ---------------------------------------------------------------- power events

  /** Events that can change who may do what: these are ordered by power. */
  predicate IsPowerEvent(e: Event) {
    match e.kind
    case LevelsEvent => e.stateKey == Some("")
    case JoinRulesEvent => e.stateKey == Some("")
    case MemberEvent =>
      StandingIn(e.content) in {Some(Leave), Some(Ban)} && e.stateKey != Some(e.sender)
    case _ => false
  }

  /** The power events of the conflicted set with their ancestors inside it. */
  ghost function PowerSet(fetch: Fetch, full: set<EventId>): set<EventId> {
    set x | x in full && exists p :: p in full && p in fetch && IsPowerEvent(fetch[p])
                                     && (x == p || x in Chain(fetch, p))
  }

  /** The reverse topological power ordering. */
  ghost function PowerOrdering(version: RoomVersion, creators: set<UserId>, fetch: Fetch,
                               events: set<EventId>): seq<EventId>
  {
    var deps, less := Ancestry(fetch, events), Before(PowerKeys(version, creators, fetch, events));
    if exists o :: LeastTopological(deps, less, o) then
      var o :| LeastTopological(deps, less, o);
      o
    else []
  }

  lemma PowerOrderingIs(version: RoomVersion, creators: set<UserId>, fetch: Fetch, events: set<EventId>,
                        rank: EventId -> nat, o: seq<EventId>)
    requires RankedBy(fetch, rank) && forall id :: id in events ==> Complete(fetch, id)
    requires LeastTopological(Ancestry(fetch, events), Before(PowerKeys(version, creators, fetch, events)), o)
    ensures o == PowerOrdering(version, creators, fetch, events)
  {
    AncestryOrderable(version, creators, fetch, events, rank);
    LeastTopologicalUnique(Ancestry(fetch, events), Before(PowerKeys(version, creators, fetch, events)),
                           o, PowerOrdering(version, creators, fetch, events));
  }

  // ---------------------------------------------------------------- iterative auth checks

  /** What a check of an event may look up. */
  function Needed(version: RoomVersion, e: Event): set<Key> {
    AuthTypes(version, e) + {CREATE}
  }

  /** The first auth event at hand that is filed under a key. */
  function FromAuthEvents(fetch: Fetch, auth: seq<EventId>, key: Key): Option<Event> {
    if auth == [] then None
    else if auth[0] in fetch && fetch[auth[0]].Key() == key then Some(fetch[auth[0]])
    else FromAuthEvents(fetch, auth[1..], key)
  }

  /** It is the first at hand that is filed there, and there is none only if none is. */
  lemma {:induction false} FallbackMeans(fetch: Fetch, auth: seq<EventId>, key: Key, k: nat)
    requires k <= |auth| && forall i :: 0 <= i < k ==> !FiledAt(fetch, auth, i, key)
    requires k < |auth| ==> FiledAt(fetch, auth, k, key)
    ensures FromAuthEvents(fetch, auth, key) == if k < |auth| then Some(fetch[auth[k]]) else None
    decreases k
  {
    if k > 0 {
      assert !FiledAt(fetch, auth, 0, key);
      forall i | 0 <= i < |auth[1..]| ensures FiledAt(fetch, auth[1..], i, key) <==> FiledAt(fetch, auth, i + 1, key) {
      }
      FallbackMeans(fetch, auth[1..], key, k - 1);
    }
  }

  predicate FiledAt(fetch: Fetch, auth: seq<EventId>, i: nat, key: Key)
    requires i < |auth|
  {
    auth[i] in fetch && fetch[auth[i]].Key() == key
  }

  /** The event that stands for a needed key: the working state's, else a fallback. */
  function Stands(prims: Primitives, version: RoomVersion, fetch: Fetch, state: StateIds, e: Event, key: Key)
    : Option<Event>
  {
    if key in state then Lookup'(fetch, state[key])
    else if key.0.CreateEvent? && version.RoomIdIsCreateEventId() then
      if e.roomId.Some? && prims.validEventId("$" + Localpart(e.roomId.value))
      then Lookup'(fetch, "$" + Localpart(e.roomId.value)) else None
    else FromAuthEvents(fetch, e.authEvents, key)
  }

  function Lookup'(fetch: Fetch, id: EventId): Option<Event> {
    if id in fetch then Some(fetch[id]) else None
  }

  function Effective(prims: Primitives, version: RoomVersion, fetch: Fetch, state: StateIds, e: Event): State {
    map k | k in Needed(version, e) && Stands(prims, version, fetch, state, e, k).Some? ::
      Stands(prims, version, fetch, state, e, k).value
  }

  /** Everything the check of one event has to fetch is at hand. */
  predicate Fetchable(version: RoomVersion, fetch: Fetch, state: StateIds, id: EventId) {
    id in fetch && forall k :: k in Needed(version, fetch[id]) && k in state ==> state[k] in fetch
  }

  function CheckOne(prims: Primitives, version: RoomVersion, fetch: Fetch, state: StateIds, id: EventId): StateIds
    requires id in fetch
  {
    var e := fetch[id];
    if Allowed(prims, version, e, Effective(prims, version, fetch, state, e)) then state[e.Key() := id] else state
  }

  /** The fold of the checks; None when something has to be fetched that is not at hand. */
  function CheckAll(prims: Primitives, version: RoomVersion, fetch: Fetch, state: StateIds, order: seq<EventId>)
    : Option<StateIds>
    decreases |order|
  {
    if order == [] then Some(state)
    else if !Fetchable(version, fetch, state, order[0]) then None
    else CheckAll(prims, version, fetch, CheckOne(prims, version, fetch, state, order[0]), order[1..])
  }

  // ---------------------------------------------------------------- mainline ordering

  datatype Place = Place(position: nat, ts: nat, id: EventId)

  /** Greater position first, then the smaller timestamp, then the smaller id. */
  predicate PlaceLess(a: Place, b: Place) {
    || a.position > b.position
    || (a.position == b.position && a.ts < b.ts)
    || (a.position == b.position && a.ts == b.ts && StringLess(a.id, b.id))
  }

  type Places = map<EventId, Place>

  function Earlier(places: Places): (EventId, EventId) -> bool {
    (a: EventId, b: EventId) => a in places && b in places && PlaceLess(places[a], places[b])
  }

  ghost function PlacesOf(fetch: Fetch, rank: EventId -> nat, mainline: Index, ids: set<EventId>): Places
    requires RankedBy(fetch, rank)
  {
    map id | id in ids && id in fetch :: Place(Position(fetch, rank, mainline, id), fetch[id].ts, id)
  }

  lemma EarlierTotal(places: Places)
    requires forall id :: id in places ==> places[id].id == id
    ensures TotalOn(Earlier(places), places.Keys)
  {
    var less := Earlier(places);
    forall x | x in places ensures !less(x, x) {
      PlaceLessConnected(places[x], places[x]);
    }
    forall x, y | x in places && y in places && x != y ensures less(x, y) || less(y, x) {
      PlaceLessConnected(places[x], places[y]);
    }
    forall x, y, z | x in places && y in places && z in places && less(x, y) && less(y, z) ensures less(x, z) {
      PlaceLessTransitive(places[x], places[y], places[z]);
    }
  }

  lemma PlaceLessConnected(a: Place, b: Place)
    ensures !PlaceLess(a, a)
    ensures a.id != b.id ==> PlaceLess(a, b) || PlaceLess(b, a)
  {
    StringLessConnected(a.id, a.id);
    StringLessConnected(a.id, b.id);
  }

  lemma PlaceLessTransitive(a: Place, b: Place, c: Place)
    requires PlaceLess(a, b) && PlaceLess(b, c)
    ensures PlaceLess(a, c)
  {
    if StringLess(a.id, b.id) && StringLess(b.id, c.id) {
      StringLessTransitive(a.id, b.id, c.id);
    }
  }

  /** The mainline index of the chain behind a power-levels event. */
  ghost function MainlineOf(fetch: Fetch, rank: EventId -> nat, start: Option<EventId>): Index
    requires RankedBy(fetch, rank)
  {
    var chain := LevelsChain(fetch, rank, start);
    if exists m :: Indexes(m, chain) then
      var m :| Indexes(m, chain);
      m
    else map[]
  }

  lemma MainlineOfIs(fetch: Fetch, rank: EventId -> nat, start: Option<EventId>, m: Index)
    requires RankedBy(fetch, rank) && Indexes(m, LevelsChain(fetch, rank, start))
    ensures m == MainlineOf(fetch, rank, start)
  {
  }

  ghost function MainlineOrdering(fetch: Fetch, rank: EventId -> nat, start: Option<EventId>, ids: set<EventId>)
    : seq<EventId>
    requires RankedBy(fetch, rank) && forall id :: id in ids ==> id in fetch
  {
    var places := PlacesOf(fetch, rank, MainlineOf(fetch, rank, start), ids);
    EarlierTotal(places);
    assert places.Keys == ids;
    Listing(Earlier(places), ids)
  }

  // ---------------------------------------------------------------- the whole algorithm

  /** Every event named in a snapshot is at hand with its whole auth chain. */
  ghost predicate AllComplete(fetch: Fetch, sets: set<StateIds>) {
    forall s, k :: s in sets && k in s ==> Complete(fetch, s[k])
  }

  ghost function StartingState(version: RoomVersion, sets: set<StateIds>): StateIds {
    if version.StateResV21() then map[] else Unconflicted(sets)
  }

  function LevelsOf(state: StateIds): Option<EventId> {
    if POWER_LEVELS in state then Some(state[POWER_LEVELS]) else None
  }

  /** The state after the power events of the full conflicted set. */
  ghost function AfterPower(prims: Primitives, version: RoomVersion, fetch: Fetch, creators: set<UserId>,
                            full: set<EventId>, start: StateIds): Option<StateIds>
  {
    CheckAll(prims, version, fetch, start, PowerOrdering(version, creators, fetch, PowerSet(fetch, full)))
  }

  /** The state after the rest of the full conflicted set. */
  ghost function AfterRest(prims: Primitives, version: RoomVersion, fetch: Fetch, rank: EventId -> nat,
                           full: set<EventId>, partial: StateIds): Option<StateIds>
    requires RankedBy(fetch, rank) && full <= fetch.Keys
  {
    CheckAll(prims, version, fetch, partial,
             MainlineOrdering(fetch, rank, LevelsOf(partial), full - PowerSet(fetch, full)))
  }

  ghost function AfterAll(prims: Primitives, version: RoomVersion, fetch: Fetch, rank: EventId -> nat,
                          creators: set<UserId>, full: set<EventId>, start: StateIds): Option<StateIds>
    requires RankedBy(fetch, rank) && full <= fetch.Keys
  {
    var partial := AfterPower(prims, version, fetch, creators, full, start);
    if partial.None? then None else AfterRest(prims, version, fetch, rank, full, partial.value)
  }

  /** The resolved state; the unconflicted entries win over everything. */
  ghost function Resolved(prims: Primitives, version: RoomVersion, fetch: Fetch, rank: EventId -> nat,
                          sets: set<StateIds>, create: Option<EventId>): Option<StateIds>
    requires RankedBy(fetch, rank) && FullConflicted(version, fetch, sets) <= fetch.Keys
  {
    if Conflicted(sets) == {} then Some(Unconflicted(sets))
    else if create.None? || create.value !in fetch then None
    else
      var all := AfterAll(prims, version, fetch, rank, Creators(prims, version, fetch[create.value]),
                          FullConflicted(version, fetch, sets), StartingState(version, sets));
      if all.None? then None else Some(all.value + Unconflicted(sets))
  }

  lemma ResolvedUnfolds(prims: Primitives, version: RoomVersion, fetch: Fetch, rank: EventId -> nat,
                        sets: set<StateIds>, c: EventId)
    requires RankedBy(fetch, rank) && c in fetch && FullConflicted(version, fetch, sets) <= fetch.Keys
    requires Conflicted(sets) != {}
    ensures var all := AfterAll(prims, version, fetch, rank, Creators(prims, version, fetch[c]),
                                FullConflicted(version, fetch, sets), StartingState(version, sets));
            Resolved(prims, version, fetch, rank, sets, Some(c)) ==
            if all.None? then None else Some(all.value + Unconflicted(sets))
  {
  }

  lemma SameAll(prims: Primitives, version: RoomVersion, fetch: Fetch, rank: EventId -> nat, creators: set<UserId>,
                full: set<EventId>, full': set<EventId>, start: StateIds, start': StateIds)
    requires RankedBy(fetch, rank) && full <= fetch.Keys && full == full' && start == start'
    ensures AfterAll(prims, version, fetch, rank, creators, full, start) ==
            AfterAll(prims, version, fetch, rank, creators, full', start')
  {
  }

  /** All create events that the snapshots name make the same users creators. */
  ghost predicate SameCreators(prims: Primitives, version: RoomVersion, fetch: Fetch, sets: set<StateIds>) {
    forall s, t :: s in sets && t in sets && CREATE in s && CREATE in t && s[CREATE] in fetch && t[CREATE] in fetch ==>
      Creators(prims, version, fetch[s[CREATE]]) == Creators(prims, version, fetch[t[CREATE]])
  }

  /** Of the create event only its creators matter. */
  lemma CreatorsDecide(prims: Primitives, version: RoomVersion, fetch: Fetch, rank: EventId -> nat,
                       sets: set<StateIds>, c: EventId, d: EventId)
    requires RankedBy(fetch, rank) && FullConflicted(version, fetch, sets) <= fetch.Keys && c in fetch && d in fetch
    requires Creators(prims, version, fetch[c]) == Creators(prims, version, fetch[d])
    ensures Resolved(prims, version, fetch, rank, sets, Some(c)) == Resolved(prims, version, fetch, rank, sets, Some(d))
  {
  }

  // ---------------------------------------------------------------- completeness

  lemma FullConflictedComplete(version: RoomVersion, fetch: Fetch, sets: set<StateIds>)
    requires AllComplete(fetch, sets)
    ensures forall id :: id in FullConflicted(version, fetch, sets) ==> Complete(fetch, id) && id in fetch
  {
    forall id | id in FullConflicted(version, fetch, sets) ensures Complete(fetch, id) && id in fetch {
      if id in Conflicted(sets) {
        CompleteUnfolds(fetch, id);
      } else if id in AuthDifference(fetch, sets) {
        var s :| s in sets && id in ChainOfState(fetch, s);
        var k :| k in s && Above(fetch, s[k], id);
        AncestorComplete(fetch, s[k], id);
      } else {
        var c :| c in Conflicted(sets) && Reaches(fetch, c, id);
        ReachesCases(fetch, c, id);
        if c != id {
          AncestorComplete(fetch, c, id);
        }
      }
    }
  }

  lemma AncestorComplete(fetch: Fetch, a: EventId, b: EventId)
    requires Complete(fetch, a) && Above(fetch, a, b)
    ensures Complete(fetch, b) && b in fetch
  {
    ReachesCases(fetch, a, b);
    forall x | Reaches(fetch, b, x) ensures x in fetch {
      ReachesTransitive(fetch, a, b, x);
    }
    ReachesSelf(fetch, b);
  }

  ghost predicate Held(fetch: Fetch, state: StateIds) {
    forall k :: k in state ==> state[k] in fetch
  }

  /** r differs from base only by events of a pool, each filed under its own key. */
  ghost predicate Grown(fetch: Fetch, base: StateIds, pool: set<EventId>, r: StateIds) {
    && Held(fetch, r)
    && (forall k :: k in base ==> k in r)
    && (forall k :: k in r ==> (k in base && r[k] == base[k]) || (r[k] in pool && fetch[r[k]].Key() == k))
  }

  /** Where everything is at hand the checks run through, and only checked events enter. */
  lemma {:induction false} CheckAllRuns(prims: Primitives, version: RoomVersion, fetch: Fetch,
                                        state: StateIds, order: seq<EventId>)
    requires Held(fetch, state) && forall id :: id in order ==> id in fetch
    ensures CheckAll(prims, version, fetch, state, order).Some?
    ensures Grown(fetch, state, Members(order), CheckAll(prims, version, fetch, state, order).value)
    decreases |order|
  {
    if order != [] {
      assert order[0] in order;
      var next := CheckOne(prims, version, fetch, state, order[0]);
      assert forall id :: id in order[1..] ==> id in order;
      CheckAllRuns(prims, version, fetch, next, order[1..]);
    }
  }

  // ---------------------------------------------------------------- what resolution guarantees

  /** Agreeing snapshots resolve to what they say. */
  lemma AgreementResolves(prims: Primitives, version: RoomVersion, fetch: Fetch, rank: EventId -> nat, s: StateIds,
                          create: Option<EventId>)
    requires RankedBy(fetch, rank) && FullConflicted(version, fetch, {s}) <= fetch.Keys
    ensures Resolved(prims, version, fetch, rank, {s}, create) == Some(s)
  {
    assert forall k :: k in s ==> AllSay({s}, k, s[k]);
    assert Unconflicted({s}) == s;
    assert Conflicted({s}) == {};
  }

  lemma OrderingMembers(version: RoomVersion, creators: set<UserId>, fetch: Fetch, events: set<EventId>)
    ensures forall id :: id in PowerOrdering(version, creators, fetch, events) ==> id in events
  {
    var o := PowerOrdering(version, creators, fetch, events);
    if o != [] {
      assert Members(o) == events;
      assert forall id :: id in o ==> id in Members(o);
    }
  }

  lemma MainlineOrderingMembers(fetch: Fetch, rank: EventId -> nat, start: Option<EventId>, ids: set<EventId>)
    requires RankedBy(fetch, rank) && forall id :: id in ids ==> id in fetch
    ensures forall id :: id in MainlineOrdering(fetch, rank, start, ids) ==> id in ids
  {
    var places := PlacesOf(fetch, rank, MainlineOf(fetch, rank, start), ids);
    EarlierTotal(places);
    assert places.Keys == ids;
    ListingLists(Earlier(places), ids);
    assert forall id :: id in MainlineOrdering(fetch, rank, start, ids) ==>
                        id in Members(MainlineOrdering(fetch, rank, start, ids));
  }

  /** k's entry was agreed on, or is an event of the pool filed under its own key. */
  ghost predicate Justified(fetch: Fetch, agreed: StateIds, pool: set<EventId>, k: Key, id: EventId) {
    (k in agreed && agreed[k] == id) || (id in pool && id in fetch && fetch[id].Key() == k)
  }

  lemma MergeJustified(fetch: Fetch, agreed: StateIds, pool: set<EventId>, start: StateIds, all: StateIds)
    requires Grown(fetch, start, pool, all) && (start == agreed || start == map[])
    ensures forall k :: k in all + agreed ==> Justified(fetch, agreed, pool, k, (all + agreed)[k])
  {
  }

  /** The result keeps every agreed entry and takes every other one from the pool. */
  ghost predicate Sound(fetch: Fetch, agreed: StateIds, pool: set<EventId>, r: StateIds) {
    && (forall k :: k in agreed ==> k in r && r[k] == agreed[k])
    && (forall k :: k in r ==> Justified(fetch, agreed, pool, k, r[k]))
  }

  lemma ResolvedSound(prims: Primitives, version: RoomVersion, fetch: Fetch, rank: EventId -> nat,
                      creators: set<UserId>, full: set<EventId>, agreed: StateIds, start: StateIds)
    requires RankedBy(fetch, rank) && full <= fetch.Keys && Held(fetch, start)
    requires start == agreed || start == map[]
    ensures AfterAll(prims, version, fetch, rank, creators, full, start).Some?
    ensures Sound(fetch, agreed, full, AfterAll(prims, version, fetch, rank, creators, full, start).value + agreed)
  {
    AllGrows(prims, version, fetch, rank, creators, full, start);
    MergeJustified(fetch, agreed, full, start,
                   AfterAll(prims, version, fetch, rank, creators, full, start).value);
  }

  /**
   * With everything at hand and a create event named, resolution succeeds, keeps every agreed
   * entry, and takes every other entry from the full conflicted set.
   */
  lemma ResolvedEntries(prims: Primitives, version: RoomVersion, fetch: Fetch, rank: EventId -> nat,
                        sets: set<StateIds>, create: Option<EventId>)
    requires RankedBy(fetch, rank) && AllComplete(fetch, sets)
    requires Conflicted(sets) == {} || (create.Some? && create.value in fetch)
    ensures FullConflicted(version, fetch, sets) <= fetch.Keys
    ensures Resolved(prims, version, fetch, rank, sets, create).Some?
    ensures Sound(fetch, Unconflicted(sets), FullConflicted(version, fetch, sets),
                  Resolved(prims, version, fetch, rank, sets, create).value)
  {
    FullConflictedComplete(version, fetch, sets);
    StartHeld(version, fetch, sets);
    ResolvedFromHeld(prims, version, fetch, rank, sets, create);
  }

  lemma ResolvedFromHeld(prims: Primitives, version: RoomVersion, fetch: Fetch, rank: EventId -> nat,
                         sets: set<StateIds>, create: Option<EventId>)
    requires RankedBy(fetch, rank) && FullConflicted(version, fetch, sets) <= fetch.Keys
    requires Held(fetch, StartingState(version, sets))
    requires Conflicted(sets) == {} || (create.Some? && create.value in fetch)
    ensures Resolved(prims, version, fetch, rank, sets, create).Some?
    ensures Sound(fetch, Unconflicted(sets), FullConflicted(version, fetch, sets),
                  Resolved(prims, version, fetch, rank, sets, create).value)
  {
    var agreed, full := Unconflicted(sets), FullConflicted(version, fetch, sets);
    if Conflicted(sets) == {} {
      assert Resolved(prims, version, fetch, rank, sets, create) == Some(agreed);
      AgreedSound(fetch, agreed, full);
    } else {
      var creators, start := Creators(prims, version, fetch[create.value]), StartingState(version, sets);
      ResolvedSound(prims, version, fetch, rank, creators, full, agreed, start);
      var all := AfterAll(prims, version, fetch, rank, creators, full, start);
      assert Resolved(prims, version, fetch, rank, sets, create) == Some(all.value + agreed);
    }
  }

  lemma AgreedSound(fetch: Fetch, agreed: StateIds, pool: set<EventId>)
    ensures Sound(fetch, agreed, pool, agreed)
  {
  }

  lemma AllGrows(prims: Primitives, version: RoomVersion, fetch: Fetch, rank: EventId -> nat,
                 creators: set<UserId>, full: set<EventId>, start: StateIds)
    requires RankedBy(fetch, rank) && full <= fetch.Keys && Held(fetch, start)
    ensures AfterAll(prims, version, fetch, rank, creators, full, start).Some?
    ensures Grown(fetch, start, full, AfterAll(prims, version, fetch, rank, creators, full, start).value)
  {
    var power := PowerSet(fetch, full);
    OrderingMembers(version, creators, fetch, power);
    var order := PowerOrdering(version, creators, fetch, power);
    CheckAllRuns(prims, version, fetch, start, order);
    var partial := CheckAll(prims, version, fetch, start, order).value;
    MainlineOrderingMembers(fetch, rank, LevelsOf(partial), full - power);
    var rest := MainlineOrdering(fetch, rank, LevelsOf(partial), full - power);
    CheckAllRuns(prims, version, fetch, partial, rest);
    GrownTwice(fetch, start, Members(order), partial, Members(rest), full,
               CheckAll(prims, version, fetch, partial, rest).value);
  }

  lemma GrownTwice(fetch: Fetch, base: StateIds, first: set<EventId>, mid: StateIds, then': set<EventId>,
                   pool: set<EventId>, r: StateIds)
    requires Grown(fetch, base, first, mid) && Grown(fetch, mid, then', r) && first <= pool && then' <= pool
    ensures Grown(fetch, base, pool, r)
  {
  }

  lemma StartHeld(version: RoomVersion, fetch: Fetch, sets: set<StateIds>)
    requires AllComplete(fetch, sets)
    ensures Held(fetch, StartingState(version, sets))
  {
    forall k | k in Unconflicted(sets) ensures Unconflicted(sets)[k] in fetch {
      UnconflictedMeaning(sets, k, Unconflicted(sets)[k]);
      var s :| s in sets;
      CompleteUnfolds(fetch, s[k]);
    }
  }

  /** Where the working state holds every needed key, the reduced check is the full check. */
  lemma ReducedCheckExact(prims: Primitives, version: RoomVersion, fetch: Fetch, state: StateIds, e: Event)
    requires Held(fetch, state)
    requires forall k :: k in Needed(version, e) && k !in state ==>
                         Stands(prims, version, fetch, state, e, k).None?
    ensures Allowed(prims, version, e, Effective(prims, version, fetch, state, e)) ==
            Allowed(prims, version, e, map k | k in state :: fetch[state[k]])
  {
    SelectionDecides(prims, version, e, Effective(prims, version, fetch, state, e),
                     map k | k in state :: fetch[state[k]]);
  }
}
