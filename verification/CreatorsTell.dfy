/**
 * The exact condition under which resolution can tell create events apart, in room versions 8 to
 * 11: whenever their creators differ. A creator of one of them joins, sets power levels and sets
 * join rules twice, once by virtue of being the creator and once by the levels. Which of the two
 * rules is ordered last, and so wins, depends on whether they are a creator by the create event
 * that was found.
 */
module CreatorsTell {
  import opened Wrappers
  import opened Events
  import opened PowerLevels
  import opened Auth
  import opened Orders
  import opened AuthGraph
  import opened Kahn
  import opened PowerOrder
  import opened Mainline
  import opened Resolution
  import opened TwoCreates
  import StateRes

  ghost predicate Acceptable(prims: Primitives, version: RoomVersion, e: Event) {
    e.kind.CreateEvent? && e.stateKey == Some("") && e.authEvents == [] && CreateAllowed(prims, version, e)
  }

  /** A room that federates, or a user from its own server. */
  predicate Welcomes(prims: Primitives, create: Event, user: UserId) {
    Unfederated(create) ==> prims.serverOf(user) == prims.serverOf(create.sender)
  }

  /** An acceptable create event whose creator may join. */
  ghost predicate Joinable(prims: Primitives, version: RoomVersion, e: Event) {
    && Acceptable(prims, version, e) && Creators(prims, version, e) == {FirstJoiner(version, e)}
    && Welcomes(prims, e, FirstJoiner(version, e))
  }

  /** The events of a branch: the founder joins, sets levels, and sets rules without and with citing them. */
  datatype Branch = Branch(create: EventId, join: EventId, levels: EventId, plain: EventId, cited: EventId)

  function LowLevels(): Content {
    map["users_default" := Integer(50)]
  }

  predicate Sends(e: Event, create: Event, user: UserId, kind: Kind, auth: seq<EventId>) {
    && e.kind == kind && e.sender == user && e.stateKey == Some("") && e.authEvents == auth
    && e.roomId == create.roomId
  }

  predicate Joins(e: Event, create: Event, user: UserId) {
    && e.kind.MemberEvent? && e.sender == user && e.stateKey == Some(user) && e.roomId == create.roomId
    && StandingIn(e.content) == Some(Join) && e.prevEvents == [create.id] && e.authEvents == [create.id]
  }

  ghost predicate Apart(b: Branch) {
    && b.create != b.join && b.create != b.levels && b.create != b.plain && b.create != b.cited
    && b.join != b.levels && b.join != b.plain && b.join != b.cited
    && b.levels != b.plain && b.levels != b.cited && b.plain != b.cited
  }

  /** A branch by one user, whatever the rules say. */
  ghost predicate Shaped(fetch: Fetch, b: Branch, user: UserId) {
    && b.create in fetch && b.join in fetch && b.levels in fetch && b.plain in fetch && b.cited in fetch && Apart(b)
    && fetch[b.create].id == b.create && fetch[b.create].Key() == CREATE && fetch[b.create].authEvents == []
    && Joins(fetch[b.join], fetch[b.create], user)
    && Sends(fetch[b.levels], fetch[b.create], user, LevelsEvent, [b.create, b.join])
    && fetch[b.levels].content == LowLevels()
    && Sends(fetch[b.plain], fetch[b.create], user, JoinRulesEvent, [b.create, b.join])
    && Sends(fetch[b.cited], fetch[b.create], user, JoinRulesEvent, [b.create, b.join, b.levels])
    && fetch[b.levels].ts < fetch[b.plain].ts
  }

  /** A branch by its creator. */
  ghost predicate BranchOk(prims: Primitives, version: RoomVersion, fetch: Fetch, b: Branch, user: UserId) {
    && version != V12 && Shaped(fetch, b, user)
    && Joinable(prims, version, fetch[b.create]) && user == FirstJoiner(version, fetch[b.create])
  }

  function BranchIds(b: Branch): seq<EventId> {
    [b.create, b.join, b.levels, b.plain, b.cited]
  }

  // ---------------------------------------------------------------- the rules

  /** Without levels the creator has 100; by the levels of a branch everybody has 50. */
  lemma UserLevels(prims: Primitives, version: RoomVersion, create: Event, user: UserId, pl: Event)
    requires version != V12 && Creators(prims, version, create) == {user} && pl.content == LowLevels()
    ensures var levels := Resolve(prims, version, create, None);
            && levels.Some? && levels.value.User(user) == Int(100)
            && levels.value.RequiredFor(JoinRulesEvent, true) == 50 && levels.value.RequiredFor(LevelsEvent, true) == 50
    ensures var levels := Resolve(prims, version, create, Some(pl));
            levels.Some? && levels.value.User(user) == Int(50) && levels.value.RequiredFor(JoinRulesEvent, true) == 50
  {
    assert LevelValue(prims, LowLevels()["users_default"], version.LenientPowerLevels()) == Some(50);
  }

  /** The creator's join is allowed wherever the create event is in place and no levels are. */
  lemma CreatorJoins(prims: Primitives, version: RoomVersion, create: Event, user: UserId, e: Event, pl: Event,
                     state: State)
    requires version != V12 && Joinable(prims, version, create) && user == FirstJoiner(version, create)
    requires Joins(e, create, user) && pl.content == LowLevels()
    requires Lookup(state, CREATE) == Some(create) && Lookup(state, POWER_LEVELS) == None
    ensures Allowed(prims, version, e, state)
  {
    UserLevels(prims, version, create, user, pl);
  }

  /** So are their join rules once they have joined, whether the levels are in place or not. */
  lemma CreatorRules(prims: Primitives, version: RoomVersion, create: Event, user: UserId, e: Event,
                     auth: seq<EventId>, join: Event, pl: Event, state: State)
    requires version != V12 && Joinable(prims, version, create) && user == FirstJoiner(version, create)
    requires Sends(e, create, user, JoinRulesEvent, auth) && Joins(join, create, user) && pl.content == LowLevels()
    requires Lookup(state, CREATE) == Some(create) && Lookup(state, MemberKey(user)) == Some(join)
    requires Lookup(state, POWER_LEVELS) in {None, Some(pl)}
    ensures Allowed(prims, version, e, state)
  {
    UserLevels(prims, version, create, user, pl);
    assert Membership(state, user) == Join;
  }

  /** And the levels themselves, where none are in place. */
  lemma CreatorLevels(prims: Primitives, version: RoomVersion, create: Event, user: UserId, e: Event,
                      auth: seq<EventId>, join: Event, state: State)
    requires version != V12 && Joinable(prims, version, create) && user == FirstJoiner(version, create)
    requires Sends(e, create, user, LevelsEvent, auth) && Joins(join, create, user) && e.content == LowLevels()
    requires Lookup(state, CREATE) == Some(create) && Lookup(state, MemberKey(user)) == Some(join)
    requires Lookup(state, POWER_LEVELS) == None
    ensures Allowed(prims, version, e, state)
  {
    UserLevels(prims, version, create, user, e);
    assert Membership(state, user) == Join;
  }

  lemma OneEntry(a: AuthEntry)
    ensures OwnState([a]) == map[a.event.Key() := a.event]
  {
    assert [a][..0] == [] && OwnState([]) == map[];
  }

  lemma ThreeEntries(a: AuthEntry, b: AuthEntry, c: AuthEntry)
    ensures OwnState([a, b, c]) ==
            map[a.event.Key() := a.event][b.event.Key() := b.event][c.event.Key() := c.event]
  {
    TwoEntries(a, b);
    assert [a, b, c][..2] == [a, b];
  }

  lemma BranchJoinPasses(prims: Primitives, version: RoomVersion, fetch: Fetch, b: Branch, user: UserId)
    requires BranchOk(prims, version, fetch, b, user)
    ensures Passes(prims, version, fetch, fetch[b.join])
  {
    var a := AuthEntry(fetch[b.create], false);
    assert Entries(fetch, [b.create]) == [a];
    OneEntry(a);
    CreatorJoins(prims, version, fetch[b.create], user, fetch[b.join], fetch[b.levels], OwnState([a]));
    assert [a][0] == a;
  }

  lemma TwoListed(version: RoomVersion, e: Event, a: AuthEntry, b: AuthEntry, user: UserId)
    requires version != V12 && !a.rejected && !b.rejected && a.event.kind.CreateEvent? && a.event.stateKey == Some("")
    requires Joins(b.event, a.event, user) && e.sender == user && e.roomId == a.event.roomId && !e.kind.CreateEvent?
    ensures AuthEventsAllowed(version, e, [a, b])
  {
    assert [a, b][0] == a;
  }

  lemma ThreeListed(version: RoomVersion, e: Event, a: AuthEntry, b: AuthEntry, c: AuthEntry, user: UserId)
    requires version != V12 && !a.rejected && !b.rejected && !c.rejected
    requires a.event.kind.CreateEvent? && a.event.stateKey == Some("") && !e.kind.CreateEvent?
    requires Joins(b.event, a.event, user) && e.sender == user && e.roomId == a.event.roomId
    requires c.event.Key() == POWER_LEVELS && c.event.roomId == a.event.roomId
    ensures AuthEventsAllowed(version, e, [a, b, c])
  {
    assert [a, b, c][0] == a;
  }

  lemma PlainPasses(prims: Primitives, version: RoomVersion, fetch: Fetch, b: Branch, user: UserId)
    requires BranchOk(prims, version, fetch, b, user)
    ensures Passes(prims, version, fetch, fetch[b.plain])
  {
    var x, y := AuthEntry(fetch[b.create], false), AuthEntry(fetch[b.join], false);
    assert Entries(fetch, [b.create, b.join]) == [x, y];
    TwoEntries(x, y);
    TwoListed(version, fetch[b.plain], x, y, user);
    CreatorRules(prims, version, fetch[b.create], user, fetch[b.plain], [b.create, b.join], fetch[b.join],
                 fetch[b.levels], OwnState([x, y]));
  }

  lemma LevelsPass(prims: Primitives, version: RoomVersion, fetch: Fetch, b: Branch, user: UserId)
    requires BranchOk(prims, version, fetch, b, user)
    ensures Passes(prims, version, fetch, fetch[b.levels])
  {
    var x, y := AuthEntry(fetch[b.create], false), AuthEntry(fetch[b.join], false);
    assert Entries(fetch, [b.create, b.join]) == [x, y];
    TwoEntries(x, y);
    TwoListed(version, fetch[b.levels], x, y, user);
    CreatorLevels(prims, version, fetch[b.create], user, fetch[b.levels], [b.create, b.join], fetch[b.join],
                  OwnState([x, y]));
  }

  lemma CitedPasses(prims: Primitives, version: RoomVersion, fetch: Fetch, b: Branch, user: UserId)
    requires BranchOk(prims, version, fetch, b, user)
    ensures Passes(prims, version, fetch, fetch[b.cited])
  {
    var x, y, z := AuthEntry(fetch[b.create], false), AuthEntry(fetch[b.join], false),
      AuthEntry(fetch[b.levels], false);
    assert Entries(fetch, [b.create, b.join, b.levels]) == [x, y, z];
    ThreeEntries(x, y, z);
    ThreeListed(version, fetch[b.cited], x, y, z, user);
    CreatorRules(prims, version, fetch[b.create], user, fetch[b.cited], [b.create, b.join, b.levels], fetch[b.join],
                 fetch[b.levels], OwnState([x, y, z]));
  }

  lemma AlonePasses(prims: Primitives, version: RoomVersion, fetch: Fetch, e: Event)
    requires Acceptable(prims, version, e)
    ensures Passes(prims, version, fetch, e)
  {
  }

  /** All events of a branch are acceptable by themselves. */
  lemma BranchPasses(prims: Primitives, version: RoomVersion, fetch: Fetch, b: Branch, user: UserId, id: EventId)
    requires BranchOk(prims, version, fetch, b, user) && id in BranchIds(b)
    ensures Passes(prims, version, fetch, fetch[id])
  {
    if id == b.create {
      AlonePasses(prims, version, fetch, fetch[b.create]);
    } else if id == b.join {
      BranchJoinPasses(prims, version, fetch, b, user);
    } else if id == b.cited {
      CitedPasses(prims, version, fetch, b, user);
    } else if id == b.plain {
      PlainPasses(prims, version, fetch, b, user);
    } else {
      LevelsPass(prims, version, fetch, b, user);
    }
  }

  // ---------------------------------------------------------------- the order

  lemma BranchChains(fetch: Fetch, b: Branch, user: UserId)
    requires Shaped(fetch, b, user)
    ensures Chain(fetch, b.create) == {} && Chain(fetch, b.join) == {b.create}
    ensures Chain(fetch, b.levels) == {b.create, b.join} && Chain(fetch, b.plain) == {b.create, b.join}
    ensures Chain(fetch, b.cited) == {b.create, b.join, b.levels}
    ensures forall id :: id in BranchIds(b) ==> Complete(fetch, id)
  {
    InwardChains(fetch, Side(b.create, b.join, b.levels));
    InwardChains(fetch, Side(b.create, b.join, b.plain));
    CitedChain(fetch, b);
  }

  lemma CitedChain(fetch: Fetch, b: Branch)
    requires Inward(fetch, Side(b.create, b.join, b.levels)) && b.cited in fetch
    requires fetch[b.cited].authEvents == [b.create, b.join, b.levels]
    ensures Chain(fetch, b.cited) == {b.create, b.join, b.levels} && Complete(fetch, b.cited)
  {
    InwardChains(fetch, Side(b.create, b.join, b.levels));
    CompleteUnfolds(fetch, b.create);
    CompleteUnfolds(fetch, b.join);
    CompleteUnfolds(fetch, b.levels);
    forall x ensures Above(fetch, b.cited, x) <==> x == b.create || x == b.join || x == b.levels {
      ReachesCases(fetch, b.create, x);
      ReachesCases(fetch, b.join, x);
      ReachesCases(fetch, b.levels, x);
      assert Edge(fetch, b.cited, b.create) && Edge(fetch, b.cited, b.join) && Edge(fetch, b.cited, b.levels);
    }
    CompleteUnfolds(fetch, b.cited);
  }

  /** A branch's power events. */
  function Powers(b: Branch): set<EventId> {
    {b.levels, b.plain, b.cited}
  }

  /** The rules that cite no levels come first or last. */
  function InOrder(b: Branch, plainFirst: bool): seq<EventId> {
    if plainFirst then [b.levels, b.plain, b.cited] else [b.levels, b.cited, b.plain]
  }

  /** What waits for what among them. */
  ghost predicate Waiting(deps: Deps, b: Branch) {
    deps.Keys == Powers(b) && deps[b.levels] == {} && deps[b.plain] == {} && deps[b.cited] == {b.levels}
  }

  lemma ReadyInTurn(deps: Deps, b: Branch)
    requires Waiting(deps, b) && Apart(b)
    ensures Ready(deps, []) == {b.levels, b.plain} && Ready(deps, [b.levels]) == {b.plain, b.cited}
    ensures Ready(deps, [b.levels, b.plain]) == {b.cited} && Ready(deps, [b.levels, b.cited]) == {b.plain}
  {
  }

  lemma InOrderLeast(deps: Deps, less: (EventId, EventId) -> bool, rank: EventId -> nat, b: Branch, plainFirst: bool)
    requires Waiting(deps, b) && Apart(b) && SelfContained(deps) && Acyclic(deps, rank) && TotalOn(less, deps.Keys)
    requires less(b.levels, b.plain)
    requires if plainFirst then less(b.plain, b.cited) else less(b.cited, b.plain)
    ensures LeastTopological(deps, less, InOrder(b, plainFirst))
  {
    var o := InOrder(b, plainFirst);
    ReadyInTurn(deps, b);
    forall i | 0 <= i < |o| ensures IsLeast(less, Ready(deps, o[..i]), o[i]) {
      assert o[..0] == [] && o[..1] == [b.levels] && o[..2] == [b.levels, o[1]];
    }
    assert Ready(deps, o) == {};
    GreedyTopological(deps, less, rank, o);
    GreedyIsLeast(deps, less, o);
  }

  lemma BranchAncestry(fetch: Fetch, b: Branch, user: UserId)
    requires Shaped(fetch, b, user)
    ensures Waiting(Ancestry(fetch, Powers(b)), b)
  {
    BranchChains(fetch, b, user);
  }

  lemma CitedLevels(fetch: Fetch, create: EventId, join: EventId, levels: EventId)
    requires create in fetch && join in fetch && levels in fetch
    requires !IsLevels(fetch[create]) && !IsLevels(fetch[join]) && IsLevels(fetch[levels])
    ensures FirstLevels(fetch, [create, join, levels]) == Ok(Some(levels))
  {
    assert [create, join, levels][1..] == [join, levels] && [join, levels][1..] == [levels];
    assert FirstLevels(fetch, [levels]) == Ok(Some(levels));
    assert FirstLevels(fetch, [join, levels]) == FirstLevels(fetch, [levels]);
  }

  /** Events without levels to cite have their power from the create event found, the others from the levels. */
  lemma BranchKeys(version: RoomVersion, fetch: Fetch, b: Branch, user: UserId, creators: set<UserId>)
    requires version != V12 && Shaped(fetch, b, user)
    ensures var keys, power := PowerKeys(version, creators, fetch, Powers(b)), Int(if user in creators then 100 else 0);
            && keys.Keys == Powers(b) && keys[b.levels].power == power && keys[b.plain].power == power
            && keys[b.cited].power == Int(50) && keys[b.levels].ts < keys[b.plain].ts
  {
    KeyOf(version, creators, fetch, Powers(b), b.levels);
    KeyOf(version, creators, fetch, Powers(b), b.plain);
    CitedLevels(fetch, b.create, b.join, b.levels);
  }

  lemma BranchLess(version: RoomVersion, fetch: Fetch, b: Branch, user: UserId, creators: set<UserId>)
    requires version != V12 && Shaped(fetch, b, user)
    ensures var less := Before(PowerKeys(version, creators, fetch, Powers(b)));
            less(b.levels, b.plain) && if user in creators then less(b.plain, b.cited) else less(b.cited, b.plain)
  {
    var keys := PowerKeys(version, creators, fetch, Powers(b));
    BranchKeys(version, fetch, b, user, creators);
    assert KeyLess(keys[b.levels], keys[b.plain]);
    assert if user in creators then KeyLess(keys[b.plain], keys[b.cited]) else KeyLess(keys[b.cited], keys[b.plain]);
  }

  /** The rules that cite no levels are ordered first exactly if their sender is a creator. */
  lemma BranchOrder(version: RoomVersion, fetch: Fetch, rank: EventId -> nat, b: Branch, user: UserId,
                    creators: set<UserId>)
    requires version != V12 && Shaped(fetch, b, user) && RankedBy(fetch, rank)
    ensures PowerOrdering(version, creators, fetch, Powers(b)) == InOrder(b, user in creators)
  {
    forall id | id in Powers(b) ensures Complete(fetch, id) {
      BranchChains(fetch, b, user);
      assert id in BranchIds(b);
    }
    BranchAncestry(fetch, b, user);
    BranchLess(version, fetch, b, user, creators);
    OrderIs(version, fetch, rank, b, creators, user in creators);
  }

  lemma OrderIs(version: RoomVersion, fetch: Fetch, rank: EventId -> nat, b: Branch, creators: set<UserId>,
                plainFirst: bool)
    requires RankedBy(fetch, rank) && Apart(b) && forall id :: id in Powers(b) ==> Complete(fetch, id)
    requires Waiting(Ancestry(fetch, Powers(b)), b)
    requires var less := Before(PowerKeys(version, creators, fetch, Powers(b)));
             less(b.levels, b.plain) && if plainFirst then less(b.plain, b.cited) else less(b.cited, b.plain)
    ensures PowerOrdering(version, creators, fetch, Powers(b)) == InOrder(b, plainFirst)
  {
    AncestryOrderable(version, creators, fetch, Powers(b), rank);
    InOrderLeast(Ancestry(fetch, Powers(b)), Before(PowerKeys(version, creators, fetch, Powers(b))), rank, b,
                 plainFirst);
    PowerOrderingIs(version, creators, fetch, Powers(b), rank, InOrder(b, plainFirst));
  }

  // ---------------------------------------------------------------- the checks

  /** A working state in which the branch's join and levels stand, and no create event. */
  ghost predicate Upheld(fetch: Fetch, b: Branch, user: UserId, state: StateIds) {
    && Held(fetch, state) && MemberKey(user) in state && state[MemberKey(user)] == b.join
    && POWER_LEVELS in state && state[POWER_LEVELS] == b.levels && CREATE !in state
  }

  lemma UpheldIsSeen(prims: Primitives, version: RoomVersion, fetch: Fetch, b: Branch, user: UserId, state: StateIds,
                     e: Event)
    requires version != V12 && Upheld(fetch, b, user, state)
    requires b.create in fetch && b.join in fetch && b.levels in fetch
    requires e.sender == user && !e.kind.CreateEvent?
    requires e.authEvents != [] && e.authEvents[0] == b.create && fetch[b.create].Key() == CREATE
    ensures var seen := Effective(prims, version, fetch, state, e);
            && Lookup(seen, CREATE) == Some(fetch[b.create]) && Lookup(seen, MemberKey(user)) == Some(fetch[b.join])
            && Lookup(seen, POWER_LEVELS) == Some(fetch[b.levels])
  {
    EffectiveAt(prims, version, fetch, state, e, MemberKey(user));
    EffectiveAt(prims, version, fetch, state, e, POWER_LEVELS);
    assert FromAuthEvents(fetch, e.authEvents, CREATE) == Some(fetch[b.create]);
    assert Stands(prims, version, fetch, state, e, CREATE) == Some(fetch[b.create]);
  }

  lemma RulesTaken(prims: Primitives, version: RoomVersion, fetch: Fetch, b: Branch, user: UserId, state: StateIds,
                   id: EventId)
    requires BranchOk(prims, version, fetch, b, user) && Upheld(fetch, b, user, state)
    requires id == b.plain || id == b.cited
    ensures CheckOne(prims, version, fetch, state, id) == state[JOIN_RULES := id]
  {
    var e := fetch[id];
    UpheldIsSeen(prims, version, fetch, b, user, state, e);
    CreatorRules(prims, version, fetch[b.create], user, e, e.authEvents, fetch[b.join], fetch[b.levels],
                 Effective(prims, version, fetch, state, e));
  }

  lemma LevelsStay(prims: Primitives, version: RoomVersion, fetch: Fetch, b: Branch, user: UserId, state: StateIds)
    requires BranchOk(prims, version, fetch, b, user) && Upheld(fetch, b, user, state)
    ensures CheckOne(prims, version, fetch, state, b.levels) == state
  {
    assert fetch[b.levels].Key() == POWER_LEVELS;
    assert state[POWER_LEVELS := b.levels] == state;
  }

  lemma CheckNext(prims: Primitives, version: RoomVersion, fetch: Fetch, state: StateIds, order: seq<EventId>)
    requires order != [] && order[0] in fetch && Held(fetch, state)
    ensures CheckAll(prims, version, fetch, state, order) ==
            CheckAll(prims, version, fetch, CheckOne(prims, version, fetch, state, order[0]), order[1..])
  {
  }

  /** What both snapshots agree on. */
  function Agreed(b: Branch, user: UserId): StateIds {
    map[MemberKey(user) := b.join][POWER_LEVELS := b.levels]
  }

  lemma AgreedUpheld(fetch: Fetch, b: Branch, user: UserId)
    requires b.join in fetch && b.levels in fetch
    ensures Upheld(fetch, b, user, Agreed(b, user))
  {
  }

  lemma StaysUpheld(fetch: Fetch, b: Branch, user: UserId, state: StateIds, id: EventId)
    requires Upheld(fetch, b, user, state) && id in fetch
    ensures Upheld(fetch, b, user, state[JOIN_RULES := id])
  {
  }

  /** The branch's rules are accepted wherever its join and levels stand. */
  ghost predicate Accepting(prims: Primitives, version: RoomVersion, fetch: Fetch, b: Branch, user: UserId)
    requires b.plain in fetch && b.cited in fetch
  {
    forall state, id :: Upheld(fetch, b, user, state) && (id == b.plain || id == b.cited) ==>
      CheckOne(prims, version, fetch, state, id) == state[JOIN_RULES := id]
  }

  lemma BranchAccepted(prims: Primitives, version: RoomVersion, fetch: Fetch, b: Branch, user: UserId)
    requires BranchOk(prims, version, fetch, b, user)
    ensures Accepting(prims, version, fetch, b, user)
  {
    forall state, id | Upheld(fetch, b, user, state) && (id == b.plain || id == b.cited)
      ensures CheckOne(prims, version, fetch, state, id) == state[JOIN_RULES := id]
    {
      RulesTaken(prims, version, fetch, b, user, state, id);
    }
  }

  lemma RulesNext(prims: Primitives, version: RoomVersion, fetch: Fetch, b: Branch, user: UserId, state: StateIds,
                  order: seq<EventId>, rest: seq<EventId>)
    requires b.plain in fetch && b.cited in fetch && Accepting(prims, version, fetch, b, user)
    requires Upheld(fetch, b, user, state) && order != [] && (order[0] == b.plain || order[0] == b.cited)
    requires order == [order[0]] + rest
    ensures CheckAll(prims, version, fetch, state, order) ==
            CheckAll(prims, version, fetch, state[JOIN_RULES := order[0]], rest)
  {
    CheckNext(prims, version, fetch, state, order);
  }

  /** So the later ones win. */
  lemma TwoRules(prims: Primitives, version: RoomVersion, fetch: Fetch, b: Branch, user: UserId, state: StateIds,
                 first: EventId, last: EventId)
    requires b.plain in fetch && b.cited in fetch && Accepting(prims, version, fetch, b, user)
    requires Upheld(fetch, b, user, state)
    requires (first == b.plain && last == b.cited) || (first == b.cited && last == b.plain)
    ensures CheckAll(prims, version, fetch, state, [first, last]) == Some(state[JOIN_RULES := last])
  {
    RulesNext(prims, version, fetch, b, user, state, [first, last], [last]);
    StaysUpheld(fetch, b, user, state, first);
    RulesNext(prims, version, fetch, b, user, state[JOIN_RULES := first], [last], []);
    assert state[JOIN_RULES := first][JOIN_RULES := last] == state[JOIN_RULES := last];
    CheckNothing(prims, version, fetch, state[JOIN_RULES := last]);
  }

  lemma LevelsNext(prims: Primitives, version: RoomVersion, fetch: Fetch, b: Branch, user: UserId, state: StateIds,
                   rest: seq<EventId>)
    requires BranchOk(prims, version, fetch, b, user) && Upheld(fetch, b, user, state)
    ensures CheckAll(prims, version, fetch, state, [b.levels] + rest) == CheckAll(prims, version, fetch, state, rest)
  {
    LevelsStay(prims, version, fetch, b, user, state);
    CheckNext(prims, version, fetch, state, [b.levels] + rest);
    assert ([b.levels] + rest)[1..] == rest;
  }

  lemma BranchChecked(prims: Primitives, version: RoomVersion, fetch: Fetch, b: Branch, user: UserId, plainFirst: bool)
    requires BranchOk(prims, version, fetch, b, user)
    ensures CheckAll(prims, version, fetch, Agreed(b, user), InOrder(b, plainFirst)) ==
            Some(Agreed(b, user)[JOIN_RULES := if plainFirst then b.cited else b.plain])
  {
    var o, state := InOrder(b, plainFirst), Agreed(b, user);
    var rules := [o[1], o[2]];
    assert o == [b.levels] + rules;
    AgreedUpheld(fetch, b, user);
    LevelsNext(prims, version, fetch, b, user, state, rules);
    BranchAccepted(prims, version, fetch, b, user);
    TwoRules(prims, version, fetch, b, user, state, o[1], o[2]);
  }

  // ---------------------------------------------------------------- the result

  /** A snapshot with a create event and join rules, and what both agree on. */
  function View(b: Branch, user: UserId, create: EventId, rules: EventId): StateIds {
    Agreed(b, user)[CREATE := create][JOIN_RULES := rules]
  }

  /** Two create events besides a branch, each with join rules of the branch. */
  function Views(b: Branch, user: UserId, x: EventId, y: EventId): set<StateIds> {
    {View(b, user, x, b.plain), View(b, user, y, b.cited)}
  }

  ghost predicate Beside(fetch: Fetch, b: Branch, x: EventId) {
    x in fetch && x !in BranchIds(b) && fetch[x].kind.CreateEvent? && fetch[x].authEvents == []
  }

  ghost predicate Contest(fetch: Fetch, b: Branch, user: UserId, x: EventId, y: EventId) {
    Shaped(fetch, b, user) && Beside(fetch, b, x) && Beside(fetch, b, y) && x != y
  }

  lemma ViewsDiffer(b: Branch, user: UserId, x: EventId, y: EventId)
    requires Apart(b) && x != y
    ensures Conflicted(Views(b, user, x, y)) == {x, y, b.plain, b.cited}
    ensures Unconflicted(Views(b, user, x, y)) == Agreed(b, user)
  {
    var s, t := View(b, user, x, b.plain), View(b, user, y, b.cited);
    var sets := Views(b, user, x, y);
    assert s in sets && t in sets;
    forall k, id ensures AllSay(sets, k, id) <==> k in Agreed(b, user) && Agreed(b, user)[k] == id {
      assert AllSay(sets, k, id) <==> k in s && s[k] == id && k in t && t[k] == id;
    }
    forall k, id ensures k in Unconflicted(sets) && Unconflicted(sets)[k] == id <==> AllSay(sets, k, id) {
      UnconflictedMeaning(sets, k, id);
    }
    assert Unconflicted(sets) == Agreed(b, user);
    assert s[CREATE] == x && t[CREATE] == y && s[JOIN_RULES] == b.plain && t[JOIN_RULES] == b.cited;
  }

  lemma LoneCreate(fetch: Fetch, id: EventId)
    requires id in fetch && fetch[id].authEvents == []
    ensures Chain(fetch, id) == {} && Complete(fetch, id)
  {
    forall x ensures !Above(fetch, id, x) {
    }
    CompleteUnfolds(fetch, id);
  }

  lemma ViewChain(fetch: Fetch, b: Branch, user: UserId, create: EventId, rules: EventId, id: EventId)
    requires Shaped(fetch, b, user) && create in fetch && fetch[create].authEvents == []
    requires rules == b.plain || rules == b.cited
    ensures id in ChainOfState(fetch, View(b, user, create, rules)) <==>
            id == b.create || id == b.join || (id == b.levels && rules == b.cited)
  {
    var s := View(b, user, create, rules);
    BranchChains(fetch, b, user);
    LoneCreate(fetch, create);
    assert s[POWER_LEVELS] == b.levels && s[JOIN_RULES] == rules && s[CREATE] == create && s[MemberKey(user)] == b.join;
    assert id in ChainOfState(fetch, s) <==>
           id in Chain(fetch, create) || id in Chain(fetch, b.join) || id in Chain(fetch, b.levels) ||
           id in Chain(fetch, rules);
  }

  lemma DifferenceOf(fetch: Fetch, s: StateIds, t: StateIds, id: EventId)
    ensures id in AuthDifference(fetch, {s, t}) <==>
            id in fetch && (id in ChainOfState(fetch, s) <==> id !in ChainOfState(fetch, t))
  {
    assert s in {s, t} && t in {s, t};
  }

  lemma ContestDifference(fetch: Fetch, b: Branch, user: UserId, x: EventId, y: EventId)
    requires Contest(fetch, b, user, x, y)
    ensures AuthDifference(fetch, Views(b, user, x, y)) == {b.levels}
  {
    forall id ensures id in AuthDifference(fetch, Views(b, user, x, y)) <==> id == b.levels {
      ViewChain(fetch, b, user, x, b.plain, id);
      ViewChain(fetch, b, user, y, b.cited, id);
      DifferenceOf(fetch, View(b, user, x, b.plain), View(b, user, y, b.cited), id);
    }
  }

  lemma ContestConflict(version: RoomVersion, fetch: Fetch, b: Branch, user: UserId, x: EventId, y: EventId)
    requires version != V12 && Contest(fetch, b, user, x, y)
    ensures FullConflicted(version, fetch, Views(b, user, x, y)) == Powers(b) + {x, y}
  {
    ViewsDiffer(b, user, x, y);
    ContestDifference(fetch, b, user, x, y);
  }

  lemma ContestPower(fetch: Fetch, b: Branch, user: UserId, x: EventId, y: EventId)
    requires Contest(fetch, b, user, x, y)
    ensures PowerSet(fetch, Powers(b) + {x, y}) == Powers(b)
  {
    var full := Powers(b) + {x, y};
    BranchChains(fetch, b, user);
    forall p | p in full && IsPowerEvent(fetch[p])
      ensures p in Powers(b) && x !in Chain(fetch, p) && y !in Chain(fetch, p)
    {
      assert b.create in BranchIds(b) && b.join in BranchIds(b) && b.levels in BranchIds(b);
    }
  }

  lemma ContestSets(version: RoomVersion, fetch: Fetch, b: Branch, user: UserId, x: EventId, y: EventId)
    requires version != V12 && Contest(fetch, b, user, x, y)
    ensures var sets := Views(b, user, x, y);
            && Conflicted(sets) != {} && Unconflicted(sets) == Agreed(b, user)
            && FullConflicted(version, fetch, sets) == Powers(b) + {x, y} && Powers(b) + {x, y} <= fetch.Keys
  {
    ViewsDiffer(b, user, x, y);
    ContestConflict(version, fetch, b, user, x, y);
    ContestHeld(fetch, b, user, x, y);
  }

  lemma ContestHeld(fetch: Fetch, b: Branch, user: UserId, x: EventId, y: EventId)
    requires Contest(fetch, b, user, x, y)
    ensures Powers(b) + {x, y} <= fetch.Keys
    ensures forall id :: id in Powers(b) + {x, y} - Powers(b) ==> fetch[id].kind.CreateEvent?
  {
  }

  /** What is left over are create events, and they touch no join rules. */
  lemma RestKeepsRules(prims: Primitives, version: RoomVersion, fetch: Fetch, rank: EventId -> nat, full: set<EventId>,
                       partial: StateIds)
    requires RankedBy(fetch, rank) && full <= fetch.Keys && Held(fetch, partial) && JOIN_RULES in partial
    requires forall id :: id in full - PowerSet(fetch, full) ==> fetch[id].kind.CreateEvent?
    ensures var r := AfterRest(prims, version, fetch, rank, full, partial);
            r.Some? && JOIN_RULES in r.value && r.value[JOIN_RULES] == partial[JOIN_RULES]
  {
    var rest := full - PowerSet(fetch, full);
    var order := MainlineOrdering(fetch, rank, LevelsOf(partial), rest);
    MainlineOrderingMembers(fetch, rank, LevelsOf(partial), rest);
    CheckAllRuns(prims, version, fetch, partial, order);
  }

  lemma AfterBoth(prims: Primitives, version: RoomVersion, fetch: Fetch, rank: EventId -> nat, full: set<EventId>,
                  creators: set<UserId>, start: StateIds, powers: set<EventId>, o: seq<EventId>, partial: StateIds)
    requires RankedBy(fetch, rank) && full <= fetch.Keys && PowerSet(fetch, full) == powers
    requires PowerOrdering(version, creators, fetch, powers) == o
    requires CheckAll(prims, version, fetch, start, o) == Some(partial)
    requires Held(fetch, partial) && JOIN_RULES in partial
    requires forall id :: id in full - powers ==> fetch[id].kind.CreateEvent?
    ensures var r := AfterAll(prims, version, fetch, rank, creators, full, start);
            r.Some? && JOIN_RULES in r.value && r.value[JOIN_RULES] == partial[JOIN_RULES]
  {
    RestKeepsRules(prims, version, fetch, rank, full, partial);
  }

  lemma RulesHeld(fetch: Fetch, b: Branch, user: UserId, rules: EventId)
    requires Shaped(fetch, b, user) && rules in fetch
    ensures Held(fetch, Agreed(b, user)[JOIN_RULES := rules])
  {
  }

  lemma ContestAll(prims: Primitives, version: RoomVersion, fetch: Fetch, rank: EventId -> nat, b: Branch,
                   user: UserId, x: EventId, y: EventId, creators: set<UserId>)
    requires BranchOk(prims, version, fetch, b, user) && Contest(fetch, b, user, x, y) && RankedBy(fetch, rank)
    ensures Powers(b) + {x, y} <= fetch.Keys
    ensures var r := AfterAll(prims, version, fetch, rank, creators, Powers(b) + {x, y}, Agreed(b, user));
            r.Some? && JOIN_RULES in r.value &&
            r.value[JOIN_RULES] == if user in creators then b.cited else b.plain
  {
    var full, partial := Powers(b) + {x, y},
      Agreed(b, user)[JOIN_RULES := if user in creators then b.cited else b.plain];
    RulesHeld(fetch, b, user, partial[JOIN_RULES]);
    ContestHeld(fetch, b, user, x, y);
    ContestPower(fetch, b, user, x, y);
    BranchOrder(version, fetch, rank, b, user, creators);
    BranchChecked(prims, version, fetch, b, user, user in creators);
    AfterBoth(prims, version, fetch, rank, full, creators, Agreed(b, user), Powers(b), InOrder(b, user in creators),
              partial);
  }

  lemma ResolvedFrom(prims: Primitives, version: RoomVersion, fetch: Fetch, rank: EventId -> nat,
                     sets: set<StateIds>, found: EventId, full: set<EventId>, agreed: StateIds)
    requires version != V12 && RankedBy(fetch, rank) && found in fetch && full <= fetch.Keys
    requires Conflicted(sets) != {} && FullConflicted(version, fetch, sets) == full && Unconflicted(sets) == agreed
    ensures var all := AfterAll(prims, version, fetch, rank, Creators(prims, version, fetch[found]), full, agreed);
            Resolved(prims, version, fetch, rank, sets, Some(found)) ==
            if all.None? then None else Some(all.value + agreed)
  {
    SameAll(prims, version, fetch, rank, Creators(prims, version, fetch[found]), full,
            FullConflicted(version, fetch, sets), agreed, StartingState(version, sets));
    ResolvedUnfolds(prims, version, fetch, rank, sets, found);
  }

  lemma AgreedLast(b: Branch, user: UserId, all: StateIds)
    requires JOIN_RULES in all
    ensures JOIN_RULES in all + Agreed(b, user) && (all + Agreed(b, user))[JOIN_RULES] == all[JOIN_RULES]
  {
  }

  /** The join rules that win: those citing the levels if their sender is a creator by the create event found. */
  lemma ContestResolves(prims: Primitives, version: RoomVersion, fetch: Fetch, rank: EventId -> nat, b: Branch,
                        user: UserId, x: EventId, y: EventId, found: EventId)
    requires BranchOk(prims, version, fetch, b, user) && Contest(fetch, b, user, x, y) && RankedBy(fetch, rank)
    requires found in fetch
    ensures FullConflicted(version, fetch, Views(b, user, x, y)) <= fetch.Keys
    ensures var r := Resolved(prims, version, fetch, rank, Views(b, user, x, y), Some(found));
            r.Some? && JOIN_RULES in r.value &&
            r.value[JOIN_RULES] == if user in Creators(prims, version, fetch[found]) then b.cited else b.plain
  {
    var creators := Creators(prims, version, fetch[found]);
    ContestSets(version, fetch, b, user, x, y);
    ContestAll(prims, version, fetch, rank, b, user, x, y, creators);
    ResolvedFrom(prims, version, fetch, rank, Views(b, user, x, y), found, Powers(b) + {x, y}, Agreed(b, user));
    AgreedLast(b, user, AfterAll(prims, version, fetch, rank, creators, Powers(b) + {x, y}, Agreed(b, user)).value);
  }

  lemma ViewsComplete(fetch: Fetch, b: Branch, user: UserId, x: EventId, y: EventId)
    requires Contest(fetch, b, user, x, y)
    ensures AllComplete(fetch, Views(b, user, x, y))
  {
    BranchChains(fetch, b, user);
    LoneCreate(fetch, x);
    LoneCreate(fetch, y);
    assert b.join in BranchIds(b);
  }

  /** Resolving the two snapshots, one of whose create events is found first. */
  method FindFirst(prims: Primitives, version: RoomVersion, fetch: Fetch, b: Branch, user: UserId, x: EventId,
                   y: EventId, s: StateIds, t: StateIds, ghost rank: EventId -> nat)
    returns (r: Result<StateIds, StateRes.StateResError>)
    requires BranchOk(prims, version, fetch, b, user) && Contest(fetch, b, user, x, y) && RankedBy(fetch, rank)
    requires {s, t} == Views(b, user, x, y) && CREATE in s && s[CREATE] in fetch
    ensures r.Ok? && JOIN_RULES in r.value && FullConflicted(version, fetch, Views(b, user, x, y)) <= fetch.Keys
    ensures r.value[JOIN_RULES] == if user in Creators(prims, version, fetch[s[CREATE]]) then b.cited else b.plain
    ensures Resolved(prims, version, fetch, rank, Views(b, user, x, y), Some(s[CREATE])) == Some(r.value)
  {
    ViewsComplete(fetch, b, user, x, y);
    ContestSets(version, fetch, b, user, x, y);
    ContestResolves(prims, version, fetch, rank, b, user, x, y, s[CREATE]);
    r := ResolveTwo(prims, version, fetch, s, t, rank);
  }

  // ---------------------------------------------------------------- any two create events

  /** A create event like another one, which federates and names its creator. */
  function Twin(version: RoomVersion, e: Event, user: UserId, id: EventId): Event {
    var content := e.content - {"m.federate"};
    e.(id := id, content := if version.CreatorInCreateContent() then content["creator" := String(user)] else content)
  }

  lemma TwinJoinable(prims: Primitives, version: RoomVersion, e: Event, user: UserId, id: EventId)
    requires version != V12 && Acceptable(prims, version, e) && Creators(prims, version, e) == {user}
    ensures var twin := Twin(version, e, user, id); Joinable(prims, version, twin) && FirstJoiner(version, twin) == user
  {
  }

  function JoinBy(create: Event, user: UserId, id: EventId): Event {
    Event(id, create.roomId, user, MemberEvent, Some(user), map["membership" := String("join")], 0, [create.id],
          [create.id])
  }

  function SentBy(create: Event, user: UserId, id: EventId, kind: Kind, content: Content, ts: nat,
                  auth: seq<EventId>): Event
  {
    Event(id, create.roomId, user, kind, Some(""), content, ts, auth, [])
  }

  /** Ids of their own for the events of a branch. */
  function BranchOf(x: EventId, y: EventId): Branch {
    var z := x + y;
    Branch(z + "0", z + "1", z + "2", z + "3", z + "4")
  }

  /** The two create events and a branch on the second one's twin. */
  function World(version: RoomVersion, x: Event, y: Event, user: UserId): Fetch {
    var b := BranchOf(x.id, y.id);
    var create := Twin(version, y, user, b.create);
    map[x.id := x, y.id := y, b.create := create, b.join := JoinBy(create, user, b.join),
        b.levels := SentBy(create, user, b.levels, LevelsEvent, LowLevels(), 0, [b.create, b.join]),
        b.plain := SentBy(create, user, b.plain, JoinRulesEvent, map[], 1, [b.create, b.join]),
        b.cited := SentBy(create, user, b.cited, JoinRulesEvent, map[], 1, [b.create, b.join, b.levels])]
  }

  function Height(x: EventId, y: EventId): EventId -> nat {
    var b := BranchOf(x, y);
    (id: EventId) => if id == b.join then 1 else if id == b.levels then 2 else if id == b.plain || id == b.cited then 3
                     else 0
  }

  lemma BranchApart(x: EventId, y: EventId)
    ensures Apart(BranchOf(x, y)) && x !in BranchIds(BranchOf(x, y)) && y !in BranchIds(BranchOf(x, y))
  {
    var z := x + y;
    FreshIds(x, y, "0");
    FreshIds(x, y, "1");
    FreshIds(x, y, "2");
    FreshIds(x, y, "3");
    FreshIds(x, y, "4");
    assert (z + "0")[|z|] == '0' && (z + "1")[|z|] == '1' && (z + "2")[|z|] == '2';
    assert (z + "3")[|z|] == '3' && (z + "4")[|z|] == '4';
  }

  lemma WorldRanked(version: RoomVersion, x: Event, y: Event, user: UserId)
    requires x.id != y.id && x.authEvents == [] && y.authEvents == []
    ensures RankedBy(World(version, x, y, user), Height(x.id, y.id))
  {
    BranchApart(x.id, y.id);
  }

  lemma WorldShaped(version: RoomVersion, x: Event, y: Event, user: UserId)
    requires x.id != y.id && x.kind.CreateEvent? && x.authEvents == []
    requires y.kind.CreateEvent? && y.stateKey == Some("") && y.authEvents == []
    ensures Contest(World(version, x, y, user), BranchOf(x.id, y.id), user, x.id, y.id)
  {
    BranchApart(x.id, y.id);
    StandsJoined();
  }

  lemma WorldContest(prims: Primitives, version: RoomVersion, x: Event, y: Event, user: UserId)
    requires version != V12 && x.id != y.id && Acceptable(prims, version, x) && Acceptable(prims, version, y)
    requires Creators(prims, version, y) == {user}
    ensures var fetch, b := World(version, x, y, user), BranchOf(x.id, y.id);
            BranchOk(prims, version, fetch, b, user) && Contest(fetch, b, user, x.id, y.id)
  {
    WorldShaped(version, x, y, user);
    BranchApart(x.id, y.id);
    TwinJoinable(prims, version, y, user, BranchOf(x.id, y.id).create);
  }

  lemma WorldPasses(prims: Primitives, version: RoomVersion, fetch: Fetch, b: Branch, user: UserId, x: Event, y: Event,
                    id: EventId)
    requires BranchOk(prims, version, fetch, b, user) && Acceptable(prims, version, x) && Acceptable(prims, version, y)
    requires id in fetch && (id in BranchIds(b) || fetch[id] == x || fetch[id] == y)
    ensures Passes(prims, version, fetch, fetch[id])
  {
    if id in BranchIds(b) {
      BranchPasses(prims, version, fetch, b, user, id);
    } else {
      AlonePasses(prims, version, fetch, fetch[id]);
    }
  }

  /** Complete snapshots of events that all pass their own checks, with two create events at hand. */
  ghost predicate Legitimate(prims: Primitives, version: RoomVersion, fetch: Fetch, rank: EventId -> nat,
                             sets: set<StateIds>, x: Event, y: Event)
  {
    && RankedBy(fetch, rank) && AllComplete(fetch, sets) && FullConflicted(version, fetch, sets) <= fetch.Keys
    && (forall id :: id in fetch ==> Passes(prims, version, fetch, fetch[id]))
    && x.id in fetch && fetch[x.id] == x && y.id in fetch && fetch[y.id] == y
  }

  lemma WorldHolds(version: RoomVersion, x: Event, y: Event, user: UserId, id: EventId)
    requires x.id != y.id
    ensures var fetch := World(version, x, y, user);
            && x.id in fetch && fetch[x.id] == x && y.id in fetch && fetch[y.id] == y
            && (id in fetch ==> id in BranchIds(BranchOf(x.id, y.id)) || fetch[id] == x || fetch[id] == y)
  {
    BranchApart(x.id, y.id);
  }

  lemma ContestLegitimate(prims: Primitives, version: RoomVersion, fetch: Fetch, b: Branch, user: UserId, x: Event,
                          y: Event, rank: EventId -> nat)
    requires BranchOk(prims, version, fetch, b, user) && Contest(fetch, b, user, x.id, y.id) && RankedBy(fetch, rank)
    requires Acceptable(prims, version, x) && Acceptable(prims, version, y)
    requires fetch[x.id] == x && fetch[y.id] == y
    requires forall id :: id in fetch ==> id in BranchIds(b) || fetch[id] == x || fetch[id] == y
    ensures Legitimate(prims, version, fetch, rank, Views(b, user, x.id, y.id), x, y)
  {
    ViewsComplete(fetch, b, user, x.id, y.id);
    ContestSets(version, fetch, b, user, x.id, y.id);
    forall id | id in fetch ensures Passes(prims, version, fetch, fetch[id]) {
      WorldPasses(prims, version, fetch, b, user, x, y, id);
    }
  }

  lemma OneCreator(prims: Primitives, version: RoomVersion, x: Event, y: Event) returns (user: UserId)
    requires version != V12 && Creators(prims, version, x) != Creators(prims, version, y)
    ensures Creators(prims, version, y) == {user} && user !in Creators(prims, version, x)
  {
    user :| user in Creators(prims, version, y);
  }

  // ---------------------------------------------------------------- the exact condition

  /** Resolution cannot tell which of two create events it has found. */
  ghost predicate Interchangeable(prims: Primitives, version: RoomVersion, x: Event, y: Event) {
    forall fetch: Fetch, rank: EventId -> nat, sets: set<StateIds> ::
      Legitimate(prims, version, fetch, rank, sets, x, y) ==>
        Resolved(prims, version, fetch, rank, sets, Some(x.id)) ==
        Resolved(prims, version, fetch, rank, sets, Some(y.id))
  }

  lemma SameCreatorsSame(prims: Primitives, version: RoomVersion, x: Event, y: Event)
    requires Creators(prims, version, x) == Creators(prims, version, y)
    ensures Interchangeable(prims, version, x, y)
  {
    forall fetch: Fetch, rank: EventId -> nat, sets: set<StateIds> | Legitimate(prims, version, fetch, rank, sets, x, y)
      ensures Resolved(prims, version, fetch, rank, sets, Some(x.id)) ==
              Resolved(prims, version, fetch, rank, sets, Some(y.id))
    {
      CreatorsDecide(prims, version, fetch, rank, sets, x.id, y.id);
    }
  }

  lemma ToldApart(prims: Primitives, version: RoomVersion, fetch: Fetch, b: Branch, user: UserId, x: Event, y: Event)
    requires Inhabited(prims, version, fetch, b, user, x, y)
    requires Acceptable(prims, version, x) && Acceptable(prims, version, y)
    requires Creators(prims, version, y) == {user} && user !in Creators(prims, version, x)
    ensures !Interchangeable(prims, version, x, y)
  {
    var rank :| RankedBy(fetch, rank);
    InhabitedTells(prims, version, fetch, b, user, x, y, rank);
  }

  /** Two acceptable create events are interchangeable if and only if they have the same creators. */
  lemma CreatorsTell(prims: Primitives, version: RoomVersion, x: Event, y: Event)
    requires version != V12 && x.id != y.id && Acceptable(prims, version, x) && Acceptable(prims, version, y)
    ensures Interchangeable(prims, version, x, y) <==> Creators(prims, version, x) == Creators(prims, version, y)
  {
    if Creators(prims, version, x) == Creators(prims, version, y) {
      SameCreatorsSame(prims, version, x, y);
    } else {
      var user := OneCreator(prims, version, x, y);
      WorldInhabited(prims, version, x, y, user);
      ToldApart(prims, version, World(version, x, y, user), BranchOf(x.id, y.id), user, x, y);
    }
  }

  /** Two snapshots that name a create event each, and the different results of their two orders. */
  ghost predicate Tell(prims: Primitives, version: RoomVersion, fetch: Fetch, s: StateIds, t: StateIds, x: Event,
                       y: Event, p: StateIds, q: StateIds)
  {
    && CREATE in s && s[CREATE] == x.id && CREATE in t && t[CREATE] == y.id && p != q
    && exists rank ::
         && Legitimate(prims, version, fetch, rank, {s, t}, x, y)
         && Resolved(prims, version, fetch, rank, {s, t}, Some(x.id)) == Some(p)
         && Resolved(prims, version, fetch, rank, {s, t}, Some(y.id)) == Some(q)
  }

  lemma TellBy(prims: Primitives, version: RoomVersion, fetch: Fetch, s: StateIds, t: StateIds, x: Event, y: Event,
               p: StateIds, q: StateIds, rank: EventId -> nat)
    requires CREATE in s && s[CREATE] == x.id && CREATE in t && t[CREATE] == y.id
    requires Legitimate(prims, version, fetch, rank, {s, t}, x, y)
    requires Resolved(prims, version, fetch, rank, {s, t}, Some(x.id)) == Some(p)
    requires Resolved(prims, version, fetch, rank, {s, t}, Some(y.id)) == Some(q)
    requires Resolved(prims, version, fetch, rank, {s, t}, Some(x.id)) !=
             Resolved(prims, version, fetch, rank, {s, t}, Some(y.id))
    ensures Tell(prims, version, fetch, s, t, x, y, p, q)
  {
  }

  /** A world with two create events and a branch besides. */
  ghost predicate Inhabited(prims: Primitives, version: RoomVersion, fetch: Fetch, b: Branch, user: UserId, x: Event,
                            y: Event)
  {
    && BranchOk(prims, version, fetch, b, user) && Contest(fetch, b, user, x.id, y.id)
    && fetch[x.id] == x && fetch[y.id] == y
    && (forall id :: id in fetch ==> id in BranchIds(b) || fetch[id] == x || fetch[id] == y)
    && exists rank :: RankedBy(fetch, rank)
  }

  lemma WorldInhabited(prims: Primitives, version: RoomVersion, x: Event, y: Event, user: UserId)
    requires version != V12 && x.id != y.id && Acceptable(prims, version, x) && Acceptable(prims, version, y)
    requires Creators(prims, version, y) == {user}
    ensures Inhabited(prims, version, World(version, x, y, user), BranchOf(x.id, y.id), user, x, y)
  {
    var fetch, b := World(version, x, y, user), BranchOf(x.id, y.id);
    WorldRanked(version, x, y, user);
    WorldContest(prims, version, x, y, user);
    forall id ensures fetch[x.id] == x && fetch[y.id] == y
              ensures id in fetch ==> id in BranchIds(b) || fetch[id] == x || fetch[id] == y
    {
      WorldHolds(version, x, y, user, id);
    }
  }

  lemma InhabitedTells(prims: Primitives, version: RoomVersion, fetch: Fetch, b: Branch, user: UserId, x: Event,
                       y: Event, rank: EventId -> nat)
    requires Inhabited(prims, version, fetch, b, user, x, y) && RankedBy(fetch, rank)
    requires Acceptable(prims, version, x) && Acceptable(prims, version, y)
    requires Creators(prims, version, y) == {user} && user !in Creators(prims, version, x)
    ensures var sets := Views(b, user, x.id, y.id);
            && Legitimate(prims, version, fetch, rank, sets, x, y)
            && Resolved(prims, version, fetch, rank, sets, Some(x.id)) !=
               Resolved(prims, version, fetch, rank, sets, Some(y.id))
  {
    ContestLegitimate(prims, version, fetch, b, user, x, y, rank);
    ContestResolves(prims, version, fetch, rank, b, user, x.id, y.id, x.id);
    ContestResolves(prims, version, fetch, rank, b, user, x.id, y.id, y.id);
  }

  lemma InhabitedResults(prims: Primitives, version: RoomVersion, fetch: Fetch, b: Branch, user: UserId, x: Event,
                         y: Event, rank: EventId -> nat, p: StateIds, q: StateIds)
    requires Inhabited(prims, version, fetch, b, user, x, y) && RankedBy(fetch, rank)
    requires Acceptable(prims, version, x) && Acceptable(prims, version, y)
    requires Creators(prims, version, y) == {user} && user !in Creators(prims, version, x)
    requires FullConflicted(version, fetch, Views(b, user, x.id, y.id)) <= fetch.Keys
    requires Resolved(prims, version, fetch, rank, Views(b, user, x.id, y.id), Some(x.id)) == Some(p)
    requires Resolved(prims, version, fetch, rank, Views(b, user, x.id, y.id), Some(y.id)) == Some(q)
    ensures Tell(prims, version, fetch, View(b, user, x.id, b.plain), View(b, user, y.id, b.cited), x, y, p, q)
  {
    InhabitedTells(prims, version, fetch, b, user, x, y, rank);
    TellBy(prims, version, fetch, View(b, user, x.id, b.plain), View(b, user, y.id, b.cited), x, y, p, q, rank);
  }

  method TellIn(prims: Primitives, version: RoomVersion, fetch: Fetch, b: Branch, user: UserId, x: Event, y: Event)
    returns (p: Result<StateIds, StateRes.StateResError>, q: Result<StateIds, StateRes.StateResError>)
    requires Inhabited(prims, version, fetch, b, user, x, y)
    requires Acceptable(prims, version, x) && Acceptable(prims, version, y)
    requires Creators(prims, version, y) == {user} && user !in Creators(prims, version, x)
    ensures p.Ok? && q.Ok?
    ensures Tell(prims, version, fetch, View(b, user, x.id, b.plain), View(b, user, y.id, b.cited), x, y, p.value,
                 q.value)
  {
    ghost var rank :| RankedBy(fetch, rank);
    p, q := FindBoth(prims, version, fetch, b, user, x.id, y.id, rank);
    InhabitedResults(prims, version, fetch, b, user, x, y, rank, p.value, q.value);
  }

  /**
   * For any two acceptable create events with different creators there are such snapshots, of
   * events that all pass their own checks.
   */
  method AnyTwo(prims: Primitives, version: RoomVersion, x: Event, y: Event, user: UserId)
    returns (fetch: Fetch, s: StateIds, t: StateIds, p: Result<StateIds, StateRes.StateResError>,
             q: Result<StateIds, StateRes.StateResError>)
    requires version != V12 && x.id != y.id && Acceptable(prims, version, x) && Acceptable(prims, version, y)
    requires Creators(prims, version, y) == {user} && user !in Creators(prims, version, x)
    ensures p.Ok? && q.Ok? && Tell(prims, version, fetch, s, t, x, y, p.value, q.value)
  {
    var b := BranchOf(x.id, y.id);
    fetch := World(version, x, y, user);
    s, t := View(b, user, x.id, b.plain), View(b, user, y.id, b.cited);
    WorldInhabited(prims, version, x, y, user);
    p, q := TellIn(prims, version, fetch, b, user, x, y);
  }

  method FindBoth(prims: Primitives, version: RoomVersion, fetch: Fetch, b: Branch, user: UserId, x: EventId,
                  y: EventId, ghost rank: EventId -> nat)
    returns (p: Result<StateIds, StateRes.StateResError>, q: Result<StateIds, StateRes.StateResError>)
    requires BranchOk(prims, version, fetch, b, user) && Contest(fetch, b, user, x, y) && RankedBy(fetch, rank)
    ensures var sets := Views(b, user, x, y);
            && FullConflicted(version, fetch, sets) <= fetch.Keys && p.Ok? && q.Ok?
            && Resolved(prims, version, fetch, rank, sets, Some(x)) == Some(p.value)
            && Resolved(prims, version, fetch, rank, sets, Some(y)) == Some(q.value)
  {
    var s, t := View(b, user, x, b.plain), View(b, user, y, b.cited);
    assert {t, s} == Views(b, user, x, y);
    p := FindFirst(prims, version, fetch, b, user, x, y, s, t, rank);
    q := FindFirst(prims, version, fetch, b, user, x, y, t, s, rank);
  }
}
