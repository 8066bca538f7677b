/**
 * The reverse topological power ordering of state resolution: Kahn's algorithm over the auth
 * ancestry inside a set of events, preferring greater sender power, then the smaller
 * timestamp, then the smaller event id.
 */
module PowerOrder {
  import opened Wrappers
  import opened Events
  import opened PowerLevels
  import opened Orders
  import opened AuthGraph
  import opened Kahn

  // ---------------------------------------------------------------- power-levels auth events

  predicate IsLevels(e: Event) {
    e.kind.LevelsEvent? && e.stateKey == Some("")
  }

  /** The first power-levels event of a list; an error if one before it is not at hand. */
  function FirstLevels(fetch: Fetch, auth: seq<EventId>): Result<Option<EventId>, EventId> {
    if auth == [] then Ok(None)
    else if auth[0] !in fetch then Err(auth[0])
    else if IsLevels(fetch[auth[0]]) then Ok(Some(auth[0]))
    else FirstLevels(fetch, auth[1..])
  }

  /** With every auth event at hand the search succeeds, and what it finds is an auth event. */
  lemma {:induction false} FirstLevelsFinds(fetch: Fetch, auth: seq<EventId>)
    ensures var r := FirstLevels(fetch, auth);
            && (r.Err? ==> r.error in auth && r.error !in fetch)
            && (r.Ok? && r.value.Some? ==> r.value.value in auth && r.value.value in fetch)
            && ((forall a :: a in auth ==> a in fetch) ==> r.Ok?)
    decreases |auth|
  {
    if auth != [] {
      FirstLevelsFinds(fetch, auth[1..]);
    }
  }

  method LevelsInAuthEvents(e: Event, fetch: Fetch) returns (r: Result<Option<EventId>, EventId>)
    ensures r == FirstLevels(fetch, e.authEvents)
  {
    var auth := e.authEvents;
    for i := 0 to |auth|
      invariant FirstLevels(fetch, auth) == FirstLevels(fetch, auth[i..])
    {
      if auth[i] !in fetch {
        return Err(auth[i]);
      }
      if IsLevels(fetch[auth[i]]) {
        return Ok(Some(auth[i]));
      }
    }
    return Ok(None);
  }

  // ---------------------------------------------------------------- sort keys

  function DefaultUserLevel(content: Content): int {
    if "users_default" in content && content["users_default"].Integer?
    then content["users_default"].number else 0
  }

  /** A user's level in a power-levels content; unlike the auth rules it reads integers only. */
  function UserLevelIn(content: Content, user: UserId): int {
    if "users" in content && content["users"].Object? && user in content["users"].fields &&
       content["users"].fields[user].Integer?
    then content["users"].fields[user].number else DefaultUserLevel(content)
  }

  /** The sender's power by the event's own auth events. */
  function SenderPower(version: RoomVersion, creators: set<UserId>, fetch: Fetch, e: Event)
    : Result<PowerLevel, EventId>
  {
    if version.PrivilegedCreators() && e.sender in creators then Ok(Infinite)
    else match FirstLevels(fetch, e.authEvents)
      case Err(id) => Err(id)
      case Ok(Some(id)) => Ok(Int(if id in fetch then UserLevelIn(fetch[id].content, e.sender) else 0))
      case Ok(None) => Ok(Int(if e.sender in creators then 100 else 0))
  }

  datatype SortKey = SortKey(power: PowerLevel, ts: nat, id: EventId)

  predicate KeyLess(a: SortKey, b: SortKey) {
    || b.power.Below(a.power)
    || (a.power == b.power && a.ts < b.ts)
    || (a.power == b.power && a.ts == b.ts && StringLess(a.id, b.id))
  }

  type Keys = map<EventId, SortKey>

  function Before(keys: Keys): (EventId, EventId) -> bool {
    (a: EventId, b: EventId) => a in keys && b in keys && KeyLess(keys[a], keys[b])
  }

  /** The keys by which a set of events is ordered. */
  ghost function PowerKeys(version: RoomVersion, creators: set<UserId>, fetch: Fetch, events: set<EventId>): Keys {
    map id | id in events && id in fetch ::
      var power := SenderPower(version, creators, fetch, fetch[id]);
      SortKey(if power.Ok? then power.value else Int(0), fetch[id].ts, id)
  }

  /** Each event's auth ancestors inside the set. */
  ghost function Ancestry(fetch: Fetch, events: set<EventId>): Deps {
    map id | id in events :: Chain(fetch, id) * events
  }

  lemma KeyLessTransitive(a: SortKey, b: SortKey, c: SortKey)
    requires KeyLess(a, b) && KeyLess(b, c)
    ensures KeyLess(a, c)
  {
    if StringLess(a.id, b.id) && StringLess(b.id, c.id) {
      StringLessTransitive(a.id, b.id, c.id);
    }
  }

  lemma KeyLessConnected(a: SortKey, b: SortKey)
    ensures !KeyLess(a, a)
    ensures a.id != b.id ==> KeyLess(a, b) || KeyLess(b, a)
  {
    StringLessConnected(a.id, a.id);
    StringLessConnected(a.id, b.id);
  }

  lemma BeforeTotal(keys: Keys)
    requires forall id :: id in keys ==> keys[id].id == id
    ensures TotalOn(Before(keys), keys.Keys)
  {
    var less := Before(keys);
    forall x | x in keys ensures !less(x, x) {
      KeyLessConnected(keys[x], keys[x]);
    }
    forall x, y | x in keys && y in keys && x != y ensures less(x, y) || less(y, x) {
      KeyLessConnected(keys[x], keys[y]);
    }
    forall x, y, z | x in keys && y in keys && z in keys && less(x, y) && less(y, z) ensures less(x, z) {
      KeyLessTransitive(keys[x], keys[y], keys[z]);
    }
  }

  // ---------------------------------------------------------------- the ordering

  /** Note id as waiting on each of its dependencies. */
  method AddDependents(dependents: Dependents, deps: set<EventId>, id: EventId) returns (dependents': Dependents)
    ensures forall d :: Members(Waiting(dependents', d)) ==
                        Members(Waiting(dependents, d)) + (if d in deps then {id} else {})
  {
    dependents' := dependents;
    var left := deps;
    while left != {}
      invariant left <= deps
      invariant forall d :: Waiting(dependents', d) ==
                            Waiting(dependents, d) + (if d in deps - left then [id] else [])
      decreases left
    {
      var d :| d in left;
      dependents' := dependents'[d := Waiting(dependents', d) + [id]];
      left := left - {d};
    }
    forall d ensures Members(Waiting(dependents', d)) ==
                     Members(Waiting(dependents, d)) + (if d in deps then {id} else {})
    {
      assert Waiting(dependents', d) == Waiting(dependents, d) + (if d in deps then [id] else []);
    }
  }

  /** What has been gathered once the events outside `left` are done. */
  ghost predicate Gathered(version: RoomVersion, creators: set<UserId>, fetch: Fetch, events: set<EventId>,
                           done: set<EventId>, keys: Keys, pending: Deps, dependents: Dependents)
  {
    && (forall id :: id in done ==> Complete(fetch, id))
    && keys == PowerKeys(version, creators, fetch, done)
    && pending == (map id | id in done :: Chain(fetch, id) * events)
    && forall d :: Members(Waiting(dependents, d)) == WaitingOn(pending, d)
  }

  lemma GatheredNext(version: RoomVersion, creators: set<UserId>, fetch: Fetch, events: set<EventId>,
                     done: set<EventId>, keys: Keys, pending: Deps, dependents: Dependents,
                     id: EventId, power: PowerLevel, dependents': Dependents)
    requires Gathered(version, creators, fetch, events, done, keys, pending, dependents)
    requires id !in done && id in fetch && Complete(fetch, id)
    requires SenderPower(version, creators, fetch, fetch[id]) == Ok(power)
    requires forall d :: Members(Waiting(dependents', d)) ==
                         Members(Waiting(dependents, d)) + (if d in Chain(fetch, id) * events then {id} else {})
    ensures Gathered(version, creators, fetch, events, done + {id},
                     keys[id := SortKey(power, fetch[id].ts, id)],
                     pending[id := Chain(fetch, id) * events], dependents')
  {
    var pending' := pending[id := Chain(fetch, id) * events];
    forall d ensures Members(Waiting(dependents', d)) == WaitingOn(pending', d) {
      assert Members(Waiting(dependents, d)) == WaitingOn(pending, d);
    }
  }

  lemma PowerKnown(version: RoomVersion, creators: set<UserId>, fetch: Fetch, id: EventId)
    requires id in fetch
    ensures var p := SenderPower(version, creators, fetch, fetch[id]);
            && (p.Err? ==> Edge(fetch, id, p.error) && p.error !in fetch)
            && (Complete(fetch, id) ==> p.Ok?)
  {
    FirstLevelsFinds(fetch, fetch[id].authEvents);
    CompleteUnfolds(fetch, id);
    forall a | a in fetch[id].authEvents && Complete(fetch, a) ensures a in fetch {
      ReachesSelf(fetch, a);
    }
  }

  /** Sort key, dependencies and their reverse for every event of the set. */
  method Gather(version: RoomVersion, events: set<EventId>, fetch: Fetch, creators: set<UserId>,
                cache: Cache, ghost rank: EventId -> nat)
    returns (missing: Option<EventId>, keys: Keys, pending: Deps, dependents: Dependents, cache': Cache)
    requires RankedBy(fetch, rank) && CacheOk(fetch, cache)
    ensures CacheOk(fetch, cache') && Extends(cache, cache')
    ensures missing.Some? ==> missing.value !in fetch && exists id :: id in events && !Complete(fetch, id)
    ensures missing.None? ==> Gathered(version, creators, fetch, events, events, keys, pending, dependents)
  {
    keys, pending, dependents, cache' := map[], map[], map[], cache;
    var left := events;
    while left != {}
      invariant left <= events && CacheOk(fetch, cache') && Extends(cache, cache')
      invariant Gathered(version, creators, fetch, events, events - left, keys, pending, dependents)
      decreases left
    {
      var id :| id in left;
      if id !in fetch {
        CompleteUnfolds(fetch, id);
        return Some(id), keys, pending, dependents, cache';
      }
      PowerKnown(version, creators, fetch, id);
      var power := SenderPower(version, creators, fetch, fetch[id]);
      if power.Err? {
        return Some(power.error), keys, pending, dependents, cache';
      }
      var chain;
      chain, cache' := AuthChain(id, fetch, cache', rank);
      if chain.Err? {
        return Some(chain.error), keys, pending, dependents, cache';
      }
      var deps := chain.value * events;
      var dependents' := AddDependents(dependents, deps, id);
      GatheredNext(version, creators, fetch, events, events - left, keys, pending, dependents,
                   id, power.value, dependents');
      assert events - (left - {id}) == events - left + {id};
      keys := keys[id := SortKey(power.value, fetch[id].ts, id)];
      pending := pending[id := deps];
      dependents := dependents';
      left := left - {id};
    }
    assert events - left == events;
    missing := None;
  }

  lemma AncestryOrderable(version: RoomVersion, creators: set<UserId>, fetch: Fetch, events: set<EventId>,
                          rank: EventId -> nat)
    requires RankedBy(fetch, rank) && forall id :: id in events ==> Complete(fetch, id)
    ensures SelfContained(Ancestry(fetch, events)) && Acyclic(Ancestry(fetch, events), rank)
    ensures PowerKeys(version, creators, fetch, events).Keys == events
    ensures TotalOn(Before(PowerKeys(version, creators, fetch, events)), events)
  {
    forall e, d | e in events && d in Chain(fetch, e) * events ensures rank(d) < rank(e) {
      RankFalls(fetch, rank, e, d);
    }
    forall id | id in events ensures id in fetch {
      CompleteUnfolds(fetch, id);
    }
    BeforeTotal(PowerKeys(version, creators, fetch, events));
  }

  /**
   * The ordering succeeds exactly when nothing reachable is missing, and is then the
   * lexicographically least topological order of the ancestry under the sort keys.
   */
  method ReverseTopologicalPowerOrder(version: RoomVersion, events: set<EventId>, fetch: Fetch,
                                      creators: set<UserId>, cache: Cache, ghost rank: EventId -> nat)
    returns (r: Result<seq<EventId>, EventId>, cache': Cache)
    requires RankedBy(fetch, rank) && CacheOk(fetch, cache)
    ensures CacheOk(fetch, cache') && Extends(cache, cache')
    ensures r.Ok? <==> forall id :: id in events ==> Complete(fetch, id)
    ensures r.Err? ==> r.error !in fetch
    ensures r.Ok? ==> LeastTopological(Ancestry(fetch, events),
                                       Before(PowerKeys(version, creators, fetch, events)), r.value)
  {
    var missing, keys, pending, dependents;
    missing, keys, pending, dependents, cache' := Gather(version, events, fetch, creators, cache, rank);
    if missing.Some? {
      return Err(missing.value), cache';
    }
    AncestryOrderable(version, creators, fetch, events, rank);
    assert pending == Ancestry(fetch, events);
    var out := Order(pending, dependents, Before(keys), rank);
    r := Ok(out);
  }
}
