/**
 * Which event a resolved state holds under a key, in terms of the order in which events are
 * checked: of those accepted at their turn the last one stands. Power events come first, the more
 * powerful sender and the older event earlier; all others come by mainline position, so that what
 * was sent under the newer power levels is checked later and stands.
 */
module Winners {
  import opened Wrappers
  import opened Events
  import opened PowerLevels
  import opened Auth
  import opened Orders
  import opened AuthGraph
  import opened Kahn
  import opened PowerOrder
  import opened Mainline
  import opened Resolution

  // ---------------------------------------------------------------- the mainline order

  /** Further from the current power levels, or as far and older, or as old with the smaller id. */
  ghost predicate FurtherOrOlder(fetch: Fetch, rank: EventId -> nat, line: Index, x: EventId, y: EventId)
    requires RankedBy(fetch, rank) && x in fetch && y in fetch
  {
    var p, r := Position(fetch, rank, line, x), Position(fetch, rank, line, y);
    || p > r || (p == r && fetch[x].ts < fetch[y].ts)
    || (p == r && fetch[x].ts == fetch[y].ts && StringLess(x, y))
  }

  lemma EarlierMeans(fetch: Fetch, rank: EventId -> nat, line: Index, ids: set<EventId>, x: EventId, y: EventId)
    requires RankedBy(fetch, rank) && x in ids && y in ids && x in fetch && y in fetch
    requires Earlier(PlacesOf(fetch, rank, line, ids))(x, y)
    ensures FurtherOrOlder(fetch, rank, line, x, y)
  {
    var places := PlacesOf(fetch, rank, line, ids);
    assert places[x] == Place(Position(fetch, rank, line, x), fetch[x].ts, x);
    assert places[y] == Place(Position(fetch, rank, line, y), fetch[y].ts, y);
    assert PlaceLess(places[x], places[y]);
  }

  lemma MainlineLists(fetch: Fetch, rank: EventId -> nat, start: Option<EventId>, ids: set<EventId>)
    requires RankedBy(fetch, rank) && forall id :: id in ids ==> id in fetch
    ensures var q, places := MainlineOrdering(fetch, rank, start, ids),
              PlacesOf(fetch, rank, MainlineOf(fetch, rank, start), ids);
            Lists(Earlier(places), ids, q) && forall i :: 0 <= i < |q| ==> q[i] in ids
  {
    var places := PlacesOf(fetch, rank, MainlineOf(fetch, rank, start), ids);
    EarlierTotal(places);
    assert places.Keys == ids;
    ListingLists(Earlier(places), ids);
    var q := MainlineOrdering(fetch, rank, start, ids);
    assert forall i :: 0 <= i < |q| ==> q[i] in Members(q);
  }

  /** The remaining events, each once, are checked in that order. */
  lemma MainlineOrderMeaning(fetch: Fetch, rank: EventId -> nat, start: Option<EventId>, ids: set<EventId>)
    requires RankedBy(fetch, rank) && forall id :: id in ids ==> id in fetch
    ensures var q, line := MainlineOrdering(fetch, rank, start, ids), MainlineOf(fetch, rank, start);
            && Members(q) == ids && |q| == |ids| && (forall i :: 0 <= i < |q| ==> q[i] in ids)
            && forall i, j :: 0 <= i < j < |q| ==> FurtherOrOlder(fetch, rank, line, q[i], q[j])
  {
    var q, line := MainlineOrdering(fetch, rank, start, ids), MainlineOf(fetch, rank, start);
    MainlineLists(fetch, rank, start, ids);
    forall i, j | 0 <= i < j < |q| ensures FurtherOrOlder(fetch, rank, line, q[i], q[j]) {
      EarlierMeans(fetch, rank, line, ids, q[i], q[j]);
    }
  }

  // ---------------------------------------------------------------- the power order

  /** The power a sort key gives an event's sender, or 0. */
  ghost function PowerOf(version: RoomVersion, creators: set<UserId>, fetch: Fetch, id: EventId): PowerLevel
    requires id in fetch
  {
    var p := SenderPower(version, creators, fetch, fetch[id]);
    if p.Ok? then p.value else Int(0)
  }

  /**
   * Whence that power: infinite for creators of version 12, else the level the first power-levels
   * event among the auth events gives, else 100 for creators and 0 for all others.
   */
  lemma PowerOfMeans(version: RoomVersion, creators: set<UserId>, fetch: Fetch, id: EventId)
    requires id in fetch
    ensures var e := fetch[id];
            var levels := FirstLevels(fetch, e.authEvents);
            PowerOf(version, creators, fetch, id) ==
            if version == V12 && e.sender in creators then Infinite
            else if levels.Err? then Int(0)
            else if levels.value.None? then Int(if e.sender in creators then 100 else 0)
            else if levels.value.value !in fetch then Int(0)
            else Int(ListedLevel(fetch[levels.value.value].content, e.sender))
  {
  }

  /** The integer listed for a user, or the integer default, or 0. */
  function ListedLevel(c: Content, user: UserId): int {
    var users := ObjProp(c, "users");
    if users.Some? && user in users.value && users.value[user].Integer? then users.value[user].number
    else if "users_default" in c && c["users_default"].Integer? then c["users_default"].number else 0
  }

  /** Which events are ordered by power: levels, join rules, and removing somebody else. */
  lemma PowerEventsAre(e: Event)
    ensures IsPowerEvent(e) <==>
            || (e.kind in {LevelsEvent, JoinRulesEvent} && e.stateKey == Some(""))
            || (e.kind == MemberEvent && e.stateKey != Some(e.sender) &&
                (StandingIn(e.content) == Some(Leave) || StandingIn(e.content) == Some(Ban)))
  {
  }

  /** In the least topological order, what could have come earlier did not because of its key. */
  lemma LeastByKey(deps: Deps, less: (EventId, EventId) -> bool, o: seq<EventId>, i: nat, j: nat)
    requires TotalOn(less, deps.Keys) && LeastTopological(deps, less, o) && i < j < |o|
    requires deps[o[j]] <= Members(o[..i])
    ensures less(o[i], o[j])
  {
    var p := MovedUp(o, i, j);
    Moved(deps, o, i, j, p);
    MovedShape(o, i, j);
    var k: nat :| Ahead(less, o, p, k);
    assert forall x :: x in o ==> x in Members(o);
    DiffersAt(less, deps.Keys, o, p, i, k);
  }

  /** The order with the element at j moved up to i. */
  ghost function MovedUp(o: seq<EventId>, i: nat, j: nat): seq<EventId>
    requires i < j < |o|
  {
    o[..i] + [o[j]] + o[i..j] + o[j + 1..]
  }

  lemma MovedShape(o: seq<EventId>, i: nat, j: nat)
    requires i < j < |o| && Distinct(o)
    ensures var p := MovedUp(o, i, j);
            |p| == |o| && p[i] == o[j] && o[i] != p[i] && o[..i] == p[..i] && p != o
  {
  }

  lemma DiffersAt(less: (EventId, EventId) -> bool, s: set<EventId>, o: seq<EventId>, p: seq<EventId>, i: nat, k: nat)
    requires TotalOn(less, s) && (forall x :: x in o ==> x in s) && Ahead(less, o, p, k)
    requires i < |o| && i < |p| && o[..i] == p[..i] && o[i] != p[i]
    ensures k == i
  {
  }

  lemma Moved(deps: Deps, o: seq<EventId>, i: nat, j: nat, p: seq<EventId>)
    requires Topological(deps, o) && i < j < |o| && deps[o[j]] <= Members(o[..i])
    requires p == MovedUp(o, i, j)
    ensures Topological(deps, p)
  {
    assert |p| == |o|;
    forall k: nat | k < |o| ensures p[k] == o[Whence(i, j, k)] && o[k] == p[Whither(i, j, k)] {
    }
    SameMembers(o, p, i, j);
    forall k: nat | k < |p| ensures Ordered(deps, p, k) {
      MovedOrdered(deps, o, i, j, p, k);
    }
  }

  /** The place to which moving the element at j up to i takes each element. */
  function Whither(i: nat, j: nat, k: nat): nat {
    if k == j then i else if i <= k < j then k + 1 else k
  }

  ghost predicate Rearranged(o: seq<EventId>, p: seq<EventId>, i: nat, j: nat) {
    && i < j < |o| == |p|
    && forall k: nat :: k < |o| ==> p[k] == o[Whence(i, j, k)] && o[k] == p[Whither(i, j, k)]
  }

  lemma SameMembers(o: seq<EventId>, p: seq<EventId>, i: nat, j: nat)
    requires Rearranged(o, p, i, j) && Distinct(o)
    ensures Members(p) == Members(o) && Distinct(p)
  {
    forall x ensures x in p <==> x in o {
      if x in o {
        var k: nat :| k < |o| && o[k] == x;
        assert p[Whither(i, j, k)] == x;
      }
      if x in p {
        var k: nat :| k < |p| && p[k] == x;
        assert o[Whence(i, j, k)] == x;
      }
    }
    forall k: nat, m: nat | k < m < |p| ensures p[k] != p[m] {
      assert Whence(i, j, k) != Whence(i, j, m);
    }
  }

  lemma MovedOrdered(deps: Deps, o: seq<EventId>, i: nat, j: nat, p: seq<EventId>, k: nat)
    requires Topological(deps, o) && Rearranged(o, p, i, j) && deps[o[j]] <= Members(o[..i]) && k < |p|
    ensures Ordered(deps, p, k)
  {
    var m := Whence(i, j, k);
    var bound := if k == i then i else m;
    assert Ordered(deps, o, m);
    forall x | x in deps[p[k]] ensures x in Members(p[..k]) {
      assert x in Members(o[..bound]);
      var n: nat :| n < bound && o[..bound][n] == x;
      assert p[Whither(i, j, n)] == x && Whither(i, j, n) < k;
      assert p[..k][Whither(i, j, n)] == x;
    }
  }

  function Whence(i: nat, j: nat, k: nat): nat {
    if k == i then j else if i < k <= j then k - 1 else k
  }

  lemma KeysSpelled(version: RoomVersion, creators: set<UserId>, fetch: Fetch, events: set<EventId>, x: EventId,
                    y: EventId)
    requires x in events && y in events && x in fetch && y in fetch
    requires Before(PowerKeys(version, creators, fetch, events))(x, y)
    ensures var p, r := PowerOf(version, creators, fetch, x), PowerOf(version, creators, fetch, y);
            || r.Below(p) || (p == r && fetch[x].ts < fetch[y].ts)
            || (p == r && fetch[x].ts == fetch[y].ts && StringLess(x, y))
  {
    var keys := PowerKeys(version, creators, fetch, events);
    assert keys[x] == SortKey(PowerOf(version, creators, fetch, x), fetch[x].ts, x);
    assert keys[y] == SortKey(PowerOf(version, creators, fetch, y), fetch[y].ts, y);
    assert KeyLess(keys[x], keys[y]);
  }

  /**
   * Power events: an event comes before another whose ancestors in the set have all been listed
   * before it because its sender has more power, or else it is older, or has the smaller id.
   */
  lemma PowerOrderMeaning(version: RoomVersion, creators: set<UserId>, fetch: Fetch, events: set<EventId>,
                          rank: EventId -> nat, o: seq<EventId>, i: nat, j: nat)
    requires RankedBy(fetch, rank) && forall id :: id in events ==> Complete(fetch, id)
    requires LeastTopological(Ancestry(fetch, events), Before(PowerKeys(version, creators, fetch, events)), o)
    requires i < j < |o| && Chain(fetch, o[j]) * events <= Members(o[..i])
    ensures o[i] in fetch && o[j] in fetch
    ensures var p, r := PowerOf(version, creators, fetch, o[i]), PowerOf(version, creators, fetch, o[j]);
            || r.Below(p) || (p == r && fetch[o[i]].ts < fetch[o[j]].ts)
            || (p == r && fetch[o[i]].ts == fetch[o[j]].ts && StringLess(o[i], o[j]))
  {
    var deps, keys := Ancestry(fetch, events), PowerKeys(version, creators, fetch, events);
    AncestryOrderable(version, creators, fetch, events, rank);
    assert o[i] in Members(o) && o[j] in Members(o);
    CompleteUnfolds(fetch, o[i]);
    CompleteUnfolds(fetch, o[j]);
    LeastByKey(deps, Before(keys), o, i, j);
    KeysSpelled(version, creators, fetch, events, o[i], o[j]);
  }

  // ---------------------------------------------------------------- the last accepted event stands

  /** The event at a place of an order passes its check against what those before it left. */
  ghost predicate AcceptedAt(prims: Primitives, version: RoomVersion, fetch: Fetch, start: StateIds,
                             order: seq<EventId>, i: nat)
  {
    && i < |order| && order[i] in fetch
    && var before := CheckAll(prims, version, fetch, start, order[..i]);
       before.Some? &&
       Allowed(prims, version, fetch[order[i]], Effective(prims, version, fetch, before.value, fetch[order[i]]))
  }

  lemma FirstChecked(prims: Primitives, version: RoomVersion, fetch: Fetch, state: StateIds, first: seq<EventId>,
                     more: seq<EventId>) returns (next: StateIds)
    requires first != [] && CheckAll(prims, version, fetch, state, first).Some?
    ensures CheckAll(prims, version, fetch, state, first) == CheckAll(prims, version, fetch, next, first[1..])
    ensures CheckAll(prims, version, fetch, state, first + more) ==
            CheckAll(prims, version, fetch, next, first[1..] + more)
  {
    next := CheckOne(prims, version, fetch, state, first[0]);
    assert (first + more)[1..] == first[1..] + more;
  }

  lemma NothingChecked(prims: Primitives, version: RoomVersion, fetch: Fetch, state: StateIds, more: seq<EventId>)
    ensures CheckAll(prims, version, fetch, state, []) == Some(state) && [] + more == more
  {
  }

  lemma {:induction false} CheckAllAppends(prims: Primitives, version: RoomVersion, fetch: Fetch, state: StateIds,
                                           first: seq<EventId>, more: seq<EventId>, mid: StateIds)
    requires CheckAll(prims, version, fetch, state, first) == Some(mid)
    ensures CheckAll(prims, version, fetch, state, first + more) == CheckAll(prims, version, fetch, mid, more)
    decreases |first|
  {
    if first == [] {
      NothingChecked(prims, version, fetch, state, more);
    } else {
      var next := FirstChecked(prims, version, fetch, state, first, more);
      CheckAllAppends(prims, version, fetch, next, first[1..], more, mid);
    }
  }

  /** The places of an order at which events are accepted. */
  ghost function Accepting(prims: Primitives, version: RoomVersion, fetch: Fetch, start: StateIds,
                           order: seq<EventId>): nat -> bool
  {
    (i: nat) => AcceptedAt(prims, version, fetch, start, order, i)
  }

  /** The places of an order at which events of a key are. */
  ghost function Filed(fetch: Fetch, order: seq<EventId>, k: Key): nat -> bool {
    (i: nat) => i < |order| && order[i] in fetch && fetch[order[i]].Key() == k
  }

  /** The last place below n of a key at which an event is accepted. */
  ghost predicate LastOf(filed: nat -> bool, accepted: nat -> bool, n: nat, i: nat) {
    i < n && filed(i) && accepted(i) && forall j: nat :: i < j < n && filed(j) ==> !accepted(j)
  }

  ghost predicate NoneOf(filed: nat -> bool, accepted: nat -> bool, n: nat) {
    forall j: nat :: j < n && filed(j) ==> !accepted(j)
  }

  /** What an order leaves under a key: the last event accepted there, or what was there. */
  ghost predicate Settles(filed: nat -> bool, accepted: nat -> bool, start: StateIds, order: seq<EventId>, k: Key,
                          r: StateIds)
  {
    && (forall i: nat :: LastOf(filed, accepted, |order|, i) ==> k in r && r[k] == order[i])
    && (NoneOf(filed, accepted, |order|) ==> (k in r <==> k in start) && (k in r ==> r[k] == start[k]))
  }

  /** In version 12, where the working state has no create event, the one that the room id names decides. */
  lemma RoomIdNamesCreate(prims: Primitives, fetch: Fetch, state: StateIds, e: Event)
    requires CREATE !in state && !e.kind.CreateEvent?
    requires Allowed(prims, V12, e, Effective(prims, V12, fetch, state, e))
    ensures e.roomId.Some? && "$" + Localpart(e.roomId.value) in fetch
    ensures Lookup(Effective(prims, V12, fetch, state, e), CREATE) == Some(fetch["$" + Localpart(e.roomId.value)])
  {
  }

  /** One more event is checked. */
  lemma OneMore(prims: Primitives, version: RoomVersion, fetch: Fetch, start: StateIds, order: seq<EventId>,
                before: StateIds)
    requires order != [] && order[|order| - 1] in fetch && Held(fetch, before)
    requires CheckAll(prims, version, fetch, start, order[..|order| - 1]) == Some(before)
    ensures var id := order[|order| - 1];
            CheckAll(prims, version, fetch, start, order) ==
            Some(if AcceptedAt(prims, version, fetch, start, order, |order| - 1)
                 then before[fetch[id].Key() := id] else before)
  {
    var n, id := |order| - 1, order[|order| - 1];
    assert order == order[..n] + [id];
    CheckAllAppends(prims, version, fetch, start, order[..n], [id], before);
    OneChecked(prims, version, fetch, before, id);
  }

  lemma OneChecked(prims: Primitives, version: RoomVersion, fetch: Fetch, state: StateIds, id: EventId)
    requires id in fetch && Held(fetch, state)
    ensures CheckAll(prims, version, fetch, state, [id]) ==
            Some(if Allowed(prims, version, fetch[id], Effective(prims, version, fetch, state, fetch[id]))
                 then state[fetch[id].Key() := id] else state)
  {
    assert [id][1..] == [];
    assert CheckAll(prims, version, fetch, CheckOne(prims, version, fetch, state, id), []) ==
           Some(CheckOne(prims, version, fetch, state, id));
  }

  lemma PrefixAccepted(prims: Primitives, version: RoomVersion, fetch: Fetch, start: StateIds, order: seq<EventId>,
                       i: nat)
    requires order != [] && i < |order| - 1
    ensures AcceptedAt(prims, version, fetch, start, order[..|order| - 1], i) <==>
            AcceptedAt(prims, version, fetch, start, order, i)
  {
    assert order[..|order| - 1][..i] == order[..i] && order[..|order| - 1][i] == order[i];
  }

  lemma AcceptingPrefix(prims: Primitives, version: RoomVersion, fetch: Fetch, start: StateIds, order: seq<EventId>)
    requires order != []
    ensures var was, accepted := Accepting(prims, version, fetch, start, order[..|order| - 1]),
              Accepting(prims, version, fetch, start, order);
            forall i: nat :: i < |order| - 1 ==> (was(i) <==> accepted(i))
  {
    forall i: nat | i < |order| - 1
      ensures Accepting(prims, version, fetch, start, order[..|order| - 1])(i) <==>
              Accepting(prims, version, fetch, start, order)(i)
    {
      PrefixAccepted(prims, version, fetch, start, order, i);
    }
  }

  lemma {:induction false} LastAcceptedStands(prims: Primitives, version: RoomVersion, fetch: Fetch, start: StateIds,
                                              order: seq<EventId>, k: Key)
    requires Held(fetch, start) && forall id :: id in order ==> id in fetch
    ensures var r := CheckAll(prims, version, fetch, start, order);
            && r.Some? && Held(fetch, r.value)
            && Settles(Filed(fetch, order, k), Accepting(prims, version, fetch, start, order), start, order, k, r.value)
    decreases |order|
  {
    CheckAllRuns(prims, version, fetch, start, order);
    if order != [] {
      var init := order[..|order| - 1];
      assert forall id :: id in init ==> id in order;
      LastAcceptedStands(prims, version, fetch, start, init, k);
      OneMoreStands(prims, version, fetch, start, order, k, CheckAll(prims, version, fetch, start, init).value);
    }
  }

  lemma OneMoreStands(prims: Primitives, version: RoomVersion, fetch: Fetch, start: StateIds, order: seq<EventId>,
                      k: Key, before: StateIds)
    requires Held(fetch, start) && Held(fetch, before) && order != [] && forall id :: id in order ==> id in fetch
    requires CheckAll(prims, version, fetch, start, order[..|order| - 1]) == Some(before)
    requires Settles(Filed(fetch, order[..|order| - 1], k),
                     Accepting(prims, version, fetch, start, order[..|order| - 1]), start, order[..|order| - 1], k,
                     before)
    ensures var r := CheckAll(prims, version, fetch, start, order);
            r.Some? && Settles(Filed(fetch, order, k), Accepting(prims, version, fetch, start, order), start, order, k,
                               r.value)
  {
    var init, last := order[..|order| - 1], fetch[order[|order| - 1]].Key();
    OneMore(prims, version, fetch, start, order, before);
    AcceptingPrefix(prims, version, fetch, start, order);
    FiledPrefix(fetch, order, k);
    SettlesNext(Filed(fetch, init, k), Accepting(prims, version, fetch, start, init), Filed(fetch, order, k),
                Accepting(prims, version, fetch, start, order), start, order, k, before,
                CheckAll(prims, version, fetch, start, order).value, last);
  }

  lemma FiledPrefix(fetch: Fetch, order: seq<EventId>, k: Key)
    requires order != []
    ensures var was, filed := Filed(fetch, order[..|order| - 1], k), Filed(fetch, order, k);
            forall i: nat :: i < |order| - 1 ==> (was(i) <==> filed(i))
    ensures order[|order| - 1] in fetch ==>
            (Filed(fetch, order, k)(|order| - 1) <==> fetch[order[|order| - 1]].Key() == k)
  {
  }

  lemma LastNext(wasFiled: nat -> bool, was: nat -> bool, filed: nat -> bool, accepted: nat -> bool, n: nat, i: nat)
    requires forall j: nat :: j < n ==> (was(j) <==> accepted(j))
    requires forall j: nat :: j < n ==> (wasFiled(j) <==> filed(j))
    requires LastOf(filed, accepted, n + 1, i)
    ensures if filed(n) && accepted(n) then i == n else LastOf(wasFiled, was, n, i)
  {
  }

  lemma NoneNext(wasFiled: nat -> bool, was: nat -> bool, filed: nat -> bool, accepted: nat -> bool, n: nat)
    requires forall j: nat :: j < n ==> (was(j) <==> accepted(j))
    requires forall j: nat :: j < n ==> (wasFiled(j) <==> filed(j))
    requires NoneOf(filed, accepted, n + 1)
    ensures NoneOf(wasFiled, was, n) && !(filed(n) && accepted(n))
  {
  }

  lemma SettlesNext(wasFiled: nat -> bool, was: nat -> bool, filed: nat -> bool, accepted: nat -> bool, start: StateIds,
                    order: seq<EventId>, k: Key, before: StateIds, r: StateIds, last: Key)
    requires order != [] && (filed(|order| - 1) <==> last == k)
    requires forall j: nat :: j < |order| - 1 ==> (was(j) <==> accepted(j))
    requires forall j: nat :: j < |order| - 1 ==> (wasFiled(j) <==> filed(j))
    requires Settles(wasFiled, was, start, order[..|order| - 1], k, before)
    requires r == if accepted(|order| - 1) then before[last := order[|order| - 1]] else before
    ensures Settles(filed, accepted, start, order, k, r)
  {
    var n := |order| - 1;
    forall i: nat | LastOf(filed, accepted, |order|, i) ensures k in r && r[k] == order[i] {
      LastNext(wasFiled, was, filed, accepted, n, i);
      assert i < n ==> order[..n][i] == order[i];
    }
    if NoneOf(filed, accepted, |order|) {
      NoneNext(wasFiled, was, filed, accepted, n);
    }
  }

  // ---------------------------------------------------------------- what a resolved state holds

  /** All events in the order in which they are checked, and what the power events leave. */
  ghost predicate InTurn(prims: Primitives, version: RoomVersion, fetch: Fetch, rank: EventId -> nat,
                         creators: set<UserId>, full: set<EventId>, start: StateIds, power: seq<EventId>,
                         partial: StateIds, rest: seq<EventId>)
    requires RankedBy(fetch, rank) && full <= fetch.Keys
  {
    && power == PowerOrdering(version, creators, fetch, PowerSet(fetch, full))
    && CheckAll(prims, version, fetch, start, power) == Some(partial)
    && rest == MainlineOrdering(fetch, rank, LevelsOf(partial), full - PowerSet(fetch, full))
  }

  lemma AllHeld(version: RoomVersion, fetch: Fetch, rank: EventId -> nat, creators: set<UserId>, full: set<EventId>,
                start: Option<EventId>)
    requires RankedBy(fetch, rank) && full <= fetch.Keys
    ensures var order := PowerOrdering(version, creators, fetch, PowerSet(fetch, full)) +
                         MainlineOrdering(fetch, rank, start, full - PowerSet(fetch, full));
            forall id :: id in order ==> id in fetch
  {
    OrderingMembers(version, creators, fetch, PowerSet(fetch, full));
    MainlineOrderingMembers(fetch, rank, start, full - PowerSet(fetch, full));
  }

  lemma InTurnSettles(prims: Primitives, version: RoomVersion, fetch: Fetch, rank: EventId -> nat,
                      creators: set<UserId>, full: set<EventId>, start: StateIds, power: seq<EventId>,
                      partial: StateIds, rest: seq<EventId>, k: Key)
    requires RankedBy(fetch, rank) && full <= fetch.Keys && Held(fetch, start)
    requires InTurn(prims, version, fetch, rank, creators, full, start, power, partial, rest)
    ensures var all := AfterAll(prims, version, fetch, rank, creators, full, start);
            all.Some? && Settles(Filed(fetch, power + rest, k), Accepting(prims, version, fetch, start, power + rest),
                                 start, power + rest, k, all.value)
  {
    AllHeld(version, fetch, rank, creators, full, LevelsOf(partial));
    CheckAllAppends(prims, version, fetch, start, power, rest, partial);
    LastAcceptedStands(prims, version, fetch, start, power + rest, k);
  }

  lemma TurnsExist(prims: Primitives, version: RoomVersion, fetch: Fetch, rank: EventId -> nat,
                   creators: set<UserId>, full: set<EventId>, start: StateIds)
    returns (power: seq<EventId>, partial: StateIds, rest: seq<EventId>)
    requires RankedBy(fetch, rank) && full <= fetch.Keys && Held(fetch, start)
    ensures InTurn(prims, version, fetch, rank, creators, full, start, power, partial, rest)
  {
    power := PowerOrdering(version, creators, fetch, PowerSet(fetch, full));
    OrderingMembers(version, creators, fetch, PowerSet(fetch, full));
    CheckAllRuns(prims, version, fetch, start, power);
    partial := CheckAll(prims, version, fetch, start, power).value;
    rest := MainlineOrdering(fetch, rank, LevelsOf(partial), full - PowerSet(fetch, full));
  }

  /** The checks start from what all agree on, in version 12 from nothing. */
  ghost function From(version: RoomVersion, sets: set<StateIds>): StateIds {
    if version == V12 then map[] else Unconflicted(sets)
  }

  lemma MergedSettles(filed: nat -> bool, accepted: nat -> bool, start: StateIds, order: seq<EventId>, k: Key,
                      all: StateIds, agreed: StateIds)
    requires Settles(filed, accepted, start, order, k, all) && (start == agreed || start == map[])
    ensures k in agreed ==> k in all + agreed && (all + agreed)[k] == agreed[k]
    ensures k !in agreed ==> Settles(filed, accepted, map[], order, k, all + agreed)
  {
  }

  /**
   * What a resolved state holds under a key: what all snapshots agree on, else the last event that
   * was accepted at its turn, and nothing if none was.
   */
  lemma ResolvedHolds(prims: Primitives, version: RoomVersion, fetch: Fetch, rank: EventId -> nat, sets: set<StateIds>,
                      create: EventId, full: set<EventId>, power: seq<EventId>, partial: StateIds,
                      rest: seq<EventId>, k: Key)
    requires RankedBy(fetch, rank) && AllComplete(fetch, sets) && Conflicted(sets) != {} && create in fetch
    requires full == FullConflicted(version, fetch, sets) && full <= fetch.Keys
    requires InTurn(prims, version, fetch, rank, Creators(prims, version, fetch[create]), full, From(version, sets),
                    power, partial, rest)
    ensures var r := Resolved(prims, version, fetch, rank, sets, Some(create));
            && r.Some?
            && (k in Unconflicted(sets) ==> k in r.value && r.value[k] == Unconflicted(sets)[k])
            && (k !in Unconflicted(sets) ==>
                  Settles(Filed(fetch, power + rest, k),
                          Accepting(prims, version, fetch, From(version, sets), power + rest), map[], power + rest, k,
                          r.value))
  {
    StartHeld(version, fetch, sets);
    var creators, start := Creators(prims, version, fetch[create]), From(version, sets);
    InTurnSettles(prims, version, fetch, rank, creators, full, start, power, partial, rest, k);
    ResolvedUnfolds(prims, version, fetch, rank, sets, create);
    MergedSettles(Filed(fetch, power + rest, k), Accepting(prims, version, fetch, start, power + rest), start,
                  power + rest, k, AfterAll(prims, version, fetch, rank, creators, full, start).value,
                  Unconflicted(sets));
  }

  // ---------------------------------------------------------------- newer levels

  /** An event further from the current power levels is checked earlier. */
  lemma FurtherIsEarlier(fetch: Fetch, rank: EventId -> nat, start: Option<EventId>, ids: set<EventId>, x: EventId,
                         y: EventId) returns (j: nat)
    requires RankedBy(fetch, rank) && (forall id :: id in ids ==> id in fetch) && x in ids && y in ids
    requires var line := MainlineOf(fetch, rank, start);
             Position(fetch, rank, line, x) > Position(fetch, rank, line, y)
    ensures var q := MainlineOrdering(fetch, rank, start, ids);
            j < |q| && q[j] == y && forall m: nat :: j <= m < |q| ==> q[m] != x
  {
    MainlineOrderMeaning(fetch, rank, start, ids);
    var q := MainlineOrdering(fetch, rank, start, ids);
    assert y in Members(q);
    j :| j < |q| && q[j] == y;
    forall m: nat | j <= m < |q| ensures q[m] != x {
      assert m > j ==> FurtherOrOlder(fetch, rank, MainlineOf(fetch, rank, start), q[j], q[m]);
    }
  }

  lemma {:induction false} SomeLast(filed: nat -> bool, accepted: nat -> bool, n: nat, j: nat) returns (i: nat)
    requires j < n && filed(j) && accepted(j)
    ensures i >= j && LastOf(filed, accepted, n, i)
    decreases n - j
  {
    if m: nat :| j < m < n && filed(m) && accepted(m) {
      i := SomeLast(filed, accepted, n, m);
    } else {
      i := j;
    }
  }

  /** What comes before an accepted event of the same key does not stand. */
  lemma LaterStands(filed: nat -> bool, accepted: nat -> bool, order: seq<EventId>, k: Key, r: StateIds, x: EventId,
                    j: nat)
    requires Settles(filed, accepted, map[], order, k, r) && j < |order| && filed(j)
    requires forall m: nat :: j <= m < |order| ==> order[m] != x
    ensures accepted(j) ==> k in r && r[k] != x
  {
    if accepted(j) {
      var i := SomeLast(filed, accepted, |order|, j);
    }
  }

  lemma Shifted(power: seq<EventId>, q: seq<EventId>, x: EventId, j: nat)
    requires j < |q| && forall m: nat :: j <= m < |q| ==> q[m] != x
    ensures (power + q)[|power| + j] == q[j]
    ensures forall m: nat :: |power| + j <= m < |power + q| ==> (power + q)[m] != x
  {
    forall m: nat | |power| + j <= m < |power + q| ensures (power + q)[m] != x {
      assert (power + q)[m] == q[m - |power|];
    }
  }

  lemma PlacesInTurn(fetch: Fetch, rank: EventId -> nat, start: Option<EventId>, ids: set<EventId>,
                     power: seq<EventId>, rest: seq<EventId>, older: EventId, newer: EventId) returns (j: nat)
    requires RankedBy(fetch, rank) && (forall id :: id in ids ==> id in fetch)
    requires rest == MainlineOrdering(fetch, rank, start, ids) && older in ids && newer in ids
    requires var line := MainlineOf(fetch, rank, start);
             Position(fetch, rank, line, older) > Position(fetch, rank, line, newer)
    ensures |power| <= j < |power + rest| && (power + rest)[j] == newer
    ensures forall m: nat :: j <= m < |power + rest| ==> (power + rest)[m] != older
  {
    var b := FurtherIsEarlier(fetch, rank, start, ids, older, newer);
    Shifted(power, rest, older, b);
    j := |power| + b;
  }

  /**
   * Of two remaining events filed under one key, the one sent under the older power levels does not
   * stand when the other one is accepted at its turn.
   */
  lemma NewerLevelsStand(prims: Primitives, version: RoomVersion, fetch: Fetch, rank: EventId -> nat,
                         sets: set<StateIds>, create: EventId, full: set<EventId>, power: seq<EventId>,
                         partial: StateIds, rest: seq<EventId>, k: Key, older: EventId, newer: EventId)
    returns (j: nat)
    requires RankedBy(fetch, rank) && AllComplete(fetch, sets) && Conflicted(sets) != {} && create in fetch
    requires full == FullConflicted(version, fetch, sets) && full <= fetch.Keys && k !in Unconflicted(sets)
    requires InTurn(prims, version, fetch, rank, Creators(prims, version, fetch[create]), full, From(version, sets),
                    power, partial, rest)
    requires older in full - PowerSet(fetch, full) && newer in full - PowerSet(fetch, full)
    requires fetch[older].Key() == k && fetch[newer].Key() == k
    requires var line := MainlineOf(fetch, rank, LevelsOf(partial));
             Position(fetch, rank, line, older) > Position(fetch, rank, line, newer)
    ensures |power| <= j < |power + rest| && (power + rest)[j] == newer
    ensures var accepted, r := Accepting(prims, version, fetch, From(version, sets), power + rest),
              Resolved(prims, version, fetch, rank, sets, Some(create));
            r.Some? && (accepted(j) ==> k in r.value && r.value[k] != older)
  {
    j := PlacesInTurn(fetch, rank, LevelsOf(partial), full - PowerSet(fetch, full), power, rest, older, newer);
    assert Filed(fetch, power + rest, k)(j);
    ResolvedHolds(prims, version, fetch, rank, sets, create, full, power, partial, rest, k);
    LaterStands(Filed(fetch, power + rest, k), Accepting(prims, version, fetch, From(version, sets), power + rest),
                power + rest, k, Resolved(prims, version, fetch, rank, sets, Some(create)).value, older, j);
  }
}
