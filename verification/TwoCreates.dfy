/**
 * When the order of snapshots matters. Resolution reads only the creators off the create event it
 * finds. In room versions 8 to 11, where two create events are by their own creators and these
 * differ: each founder joins and sets join rules on their own side, and whichever side is named
 * first is ordered first, so that the other one wins. Every event involved passes the rules
 * against its own auth events.
 */
module TwoCreates {
  import opened Wrappers
  import opened Events
  import opened PowerLevels
  import opened Auth
  import opened Orders
  import opened AuthGraph
  import opened Kahn
  import opened PowerOrder
  import opened Mainline
  import opened Resolution
  import StateRes

  /** One side's create event, the founder's join and the join rules they set. */
  datatype Side = Side(create: EventId, join: EventId, rules: EventId)

  /** An acceptable create event whose sender is the one who may found the room. */
  ghost predicate Founding(prims: Primitives, version: RoomVersion, e: Event) {
    && e.kind.CreateEvent? && e.stateKey == Some("") && e.authEvents == [] && CreateAllowed(prims, version, e)
    && Creators(prims, version, e) == {e.sender} && FirstJoiner(version, e) == e.sender
  }

  predicate FounderJoins(e: Event, create: Event) {
    && e.kind.MemberEvent? && e.sender == create.sender && e.stateKey == Some(create.sender)
    && StandingIn(e.content) == Some(Join) && e.prevEvents == [create.id] && e.authEvents == [create.id]
    && e.roomId == create.roomId
  }

  predicate FounderRules(e: Event, create: Event, join: EventId) {
    && e.kind.JoinRulesEvent? && e.sender == create.sender && e.stateKey == Some("")
    && e.authEvents == [create.id, join] && e.roomId == create.roomId
  }

  ghost predicate SideOk(prims: Primitives, version: RoomVersion, fetch: Fetch, s: Side) {
    && s.create in fetch && s.join in fetch && s.rules in fetch
    && s.create != s.join && s.create != s.rules && s.join != s.rules
    && fetch[s.create].id == s.create && Founding(prims, version, fetch[s.create])
    && FounderJoins(fetch[s.join], fetch[s.create]) && FounderRules(fetch[s.rules], fetch[s.create], s.join)
  }

  // ---------------------------------------------------------------- the rules

  lemma DefaultLevels(prims: Primitives, version: RoomVersion, create: Event)
    requires !version.PrivilegedCreators() && Creators(prims, version, create) == {create.sender}
    ensures var levels := Resolve(prims, version, create, None);
            levels.Some? && levels.value.User(create.sender) == Int(100) &&
            levels.value.RequiredFor(JoinRulesEvent, true) == 50
  {
  }

  /** The founder's join is allowed wherever the create event is in place and no levels are. */
  lemma JoinAccepted(prims: Primitives, version: RoomVersion, create: Event, e: Event, state: State)
    requires version != V12 && Founding(prims, version, create) && FounderJoins(e, create)
    requires Lookup(state, CREATE) == Some(create) && Lookup(state, POWER_LEVELS) == None
    ensures Allowed(prims, version, e, state)
  {
    DefaultLevels(prims, version, create);
  }

  /** And so are their join rules once they have joined. */
  lemma RulesAccepted(prims: Primitives, version: RoomVersion, create: Event, join: Event, e: Event, id: EventId,
                      state: State)
    requires version != V12 && Founding(prims, version, create)
    requires FounderJoins(join, create) && FounderRules(e, create, id)
    requires Lookup(state, CREATE) == Some(create) && Lookup(state, POWER_LEVELS) == None
    requires Lookup(state, MemberKey(create.sender)) == Some(join)
    ensures Allowed(prims, version, e, state)
  {
    DefaultLevels(prims, version, create);
    assert Membership(state, create.sender) == Join;
  }

  /** The state made of some auth events. */
  function OwnState(auth: seq<AuthEntry>): State {
    if auth == [] then map[]
    else OwnState(auth[..|auth| - 1])[auth[|auth| - 1].event.Key() := auth[|auth| - 1].event]
  }

  function Entries(fetch: Fetch, auth: seq<EventId>): seq<AuthEntry>
    requires forall i :: 0 <= i < |auth| ==> auth[i] in fetch
  {
    seq(|auth|, i requires 0 <= i < |auth| => AuthEntry(fetch[auth[i]], false))
  }

  /** An event's list of auth events is well formed, and it passes the rules against them. */
  ghost predicate Passes(prims: Primitives, version: RoomVersion, fetch: Fetch, e: Event) {
    && (forall i :: 0 <= i < |e.authEvents| ==> e.authEvents[i] in fetch)
    && AuthEventsAllowed(version, e, Entries(fetch, e.authEvents))
    && Allowed(prims, version, e, OwnState(Entries(fetch, e.authEvents)))
  }

  lemma CreatePasses(prims: Primitives, version: RoomVersion, fetch: Fetch, e: Event)
    requires Founding(prims, version, e)
    ensures Passes(prims, version, fetch, e)
  {
  }

  lemma JoinPasses(prims: Primitives, version: RoomVersion, fetch: Fetch, create: EventId, e: Event)
    requires version != V12 && create in fetch && fetch[create].id == create
    requires Founding(prims, version, fetch[create]) && FounderJoins(e, fetch[create])
    ensures Passes(prims, version, fetch, e)
  {
    var entries := Entries(fetch, e.authEvents);
    assert entries == [AuthEntry(fetch[create], false)] && entries[..0] == [];
    assert OwnState([]) == map[];
    JoinAccepted(prims, version, fetch[create], e, OwnState(entries));
  }

  lemma TwoEntries(a: AuthEntry, b: AuthEntry)
    ensures OwnState([a, b]) == map[a.event.Key() := a.event][b.event.Key() := b.event]
  {
    assert [a, b][..1] == [a] && [a][..0] == [] && OwnState([]) == map[];
    assert OwnState([a]) == map[a.event.Key() := a.event];
  }

  lemma RulesPass(prims: Primitives, version: RoomVersion, fetch: Fetch, create: EventId, join: EventId, e: Event)
    requires version != V12 && create in fetch && join in fetch && fetch[create].id == create
    requires Founding(prims, version, fetch[create]) && FounderJoins(fetch[join], fetch[create])
    requires FounderRules(e, fetch[create], join)
    ensures Passes(prims, version, fetch, e)
  {
    var a, b := AuthEntry(fetch[create], false), AuthEntry(fetch[join], false);
    assert Entries(fetch, e.authEvents) == [a, b];
    TwoEntries(a, b);
    RulesListed(version, e, a, b, join);
    RulesAccepted(prims, version, fetch[create], fetch[join], e, join, OwnState([a, b]));
  }

  lemma RulesListed(version: RoomVersion, e: Event, a: AuthEntry, b: AuthEntry, join: EventId)
    requires version != V12 && !a.rejected && !b.rejected && a.event.kind.CreateEvent? && a.event.stateKey == Some("")
    requires FounderJoins(b.event, a.event) && FounderRules(e, a.event, join)
    ensures AuthEventsAllowed(version, e, [a, b])
  {
    assert [a, b][0] == a;
  }

  /** All of a side's events are acceptable by themselves. */
  lemma SidePasses(prims: Primitives, version: RoomVersion, fetch: Fetch, s: Side)
    requires version != V12 && SideOk(prims, version, fetch, s)
    ensures Passes(prims, version, fetch, fetch[s.create]) && Passes(prims, version, fetch, fetch[s.join])
    ensures Passes(prims, version, fetch, fetch[s.rules])
  {
    CreatePasses(prims, version, fetch, fetch[s.create]);
    JoinPasses(prims, version, fetch, s.create, fetch[s.join]);
    RulesPass(prims, version, fetch, s.create, s.join, fetch[s.rules]);
  }

  // ---------------------------------------------------------------- the order

  function Ids(s: Side): seq<EventId> {
    [s.create, s.join, s.rules]
  }

  /** A side refers only to itself: the join to the create event, the rules to both. */
  ghost predicate Inward(fetch: Fetch, s: Side) {
    && s.create in fetch && s.join in fetch && s.rules in fetch
    && fetch[s.create].authEvents == [] && fetch[s.join].authEvents == [s.create]
    && fetch[s.rules].authEvents == [s.create, s.join]
  }

  lemma InwardChains(fetch: Fetch, s: Side)
    requires Inward(fetch, s)
    ensures Chain(fetch, s.create) == {} && Chain(fetch, s.join) == {s.create}
    ensures Chain(fetch, s.rules) == {s.create, s.join}
    ensures Complete(fetch, s.create) && Complete(fetch, s.join) && Complete(fetch, s.rules)
  {
    forall b ensures !Above(fetch, s.create, b) {
    }
    forall b ensures Above(fetch, s.join, b) <==> b == s.create {
      ReachesCases(fetch, s.create, b);
      assert Edge(fetch, s.join, s.create);
    }
    forall b ensures Above(fetch, s.rules, b) <==> b == s.create || b == s.join {
      ReachesCases(fetch, s.create, b);
      ReachesCases(fetch, s.join, b);
      assert Edge(fetch, s.rules, s.create) && Edge(fetch, s.rules, s.join);
    }
    CompleteUnfolds(fetch, s.create);
    CompleteUnfolds(fetch, s.join);
    CompleteUnfolds(fetch, s.rules);
  }

  /** Two runs of three, each element waiting for all before it in its own run. */
  ghost predicate Runs(deps: Deps, o: seq<EventId>) {
    && |o| == 6 && Distinct(o) && deps.Keys == Members(o)
    && (forall k :: 0 <= k < 6 ==> deps[o[k]] <= Members(o))
    && (forall m, k :: 0 <= m < 6 && 0 <= k < 6 ==> (o[m] in deps[o[k]] <==> m < k && (m < 3 <==> k < 3)))
  }

  lemma RunsStep(deps: Deps, less: (EventId, EventId) -> bool, o: seq<EventId>, i: nat)
    requires Runs(deps, o) && i < 6 && forall k, m :: 0 <= k < 3 <= m < 6 ==> less(o[k], o[m])
    ensures IsLeast(less, Ready(deps, o[..i]), o[i])
  {
    assert o[i] in Members(o);
    assert forall k :: 0 <= k < i ==> o[..i][k] == o[k];
    forall x | x in deps[o[i]] ensures x in Members(o[..i]) {
      assert x in Members(o);
      var k :| 0 <= k < 6 && o[k] == x;
      assert o[..i][k] == x;
    }
    forall k | 0 <= k < 6 && k != i && !(i < 3 <= k) ensures o[k] !in Ready(deps, o[..i]) {
      NotReady(deps, o, i, k);
    }
    forall x | x in Ready(deps, o[..i]) && x != o[i] ensures less(o[i], x) {
      assert x in Members(o);
      var k :| 0 <= k < 6 && o[k] == x;
    }
  }

  lemma NotReady(deps: Deps, o: seq<EventId>, i: nat, k: nat)
    requires Runs(deps, o) && i < 6 && k < 6 && i != k && !(i < 3 <= k)
    ensures o[k] !in Ready(deps, o[..i])
  {
    if k < i {
      assert o[..i][k] == o[k];
    } else {
      assert o[i] in deps[o[k]] && o[i] !in o[..i];
    }
  }

  lemma RunsLeast(deps: Deps, less: (EventId, EventId) -> bool, rank: EventId -> nat, o: seq<EventId>)
    requires Runs(deps, o) && forall k, m :: 0 <= k < 3 <= m < 6 ==> less(o[k], o[m])
    requires SelfContained(deps) && Acyclic(deps, rank) && TotalOn(less, deps.Keys)
    ensures LeastTopological(deps, less, o)
  {
    forall i | 0 <= i < |o| ensures IsLeast(less, Ready(deps, o[..i]), o[i]) {
      RunsStep(deps, less, o, i);
    }
    assert Ready(deps, o) == {};
    GreedyTopological(deps, less, rank, o);
    GreedyIsLeast(deps, less, o);
  }

  /** Two sides with different founders, whether or not they claim to be of one room. */
  ghost predicate Clash(prims: Primitives, version: RoomVersion, fetch: Fetch, l: Side, r: Side) {
    && version != V12 && SideOk(prims, version, fetch, l) && SideOk(prims, version, fetch, r)
    && Distinct(Ids(l) + Ids(r)) && fetch[l.create].sender != fetch[r.create].sender
  }

  /** What a side's events wait for. */
  ghost predicate Waits(deps: Deps, s: Side) {
    && s.create in deps && s.join in deps && s.rules in deps
    && deps[s.create] == {} && deps[s.join] == {s.create} && deps[s.rules] == {s.create, s.join}
  }

  lemma SideWaits(fetch: Fetch, events: set<EventId>, s: Side)
    requires Inward(fetch, s) && s.create in events && s.join in events && s.rules in events
    ensures Waits(Ancestry(fetch, events), s)
  {
    InwardChains(fetch, s);
  }

  lemma WaitsRun(deps: Deps, l: Side, r: Side)
    requires Waits(deps, l) && Waits(deps, r) && Distinct(Ids(l) + Ids(r)) && deps.Keys == Members(Ids(l) + Ids(r))
    ensures Runs(deps, Ids(l) + Ids(r))
  {
    var o := Ids(l) + Ids(r);
    forall k | 0 <= k < 6 ensures deps[o[k]] <= Members(o) {
      assert o[0] in Members(o) && o[1] in Members(o) && o[3] in Members(o) && o[4] in Members(o);
    }
    forall m, k | 0 <= m < 6 && 0 <= k < 6 ensures o[m] in deps[o[k]] <==> m < k && (m < 3 <==> k < 3) {
      WaitsAt(deps, o, if k < 3 then l else r, if k < 3 then 0 else 3, m, k);
    }
  }

  lemma WaitsAt(deps: Deps, o: seq<EventId>, s: Side, h: nat, m: nat, k: nat)
    requires |o| == 6 && Distinct(o) && Waits(deps, s) && (h == 0 || h == 3) && m < 6 && h <= k < h + 3
    requires o[h] == s.create && o[h + 1] == s.join && o[h + 2] == s.rules
    ensures o[m] in deps[o[k]] <==> h <= m < k
  {
    assert deps[o[k]] == if k == h then {} else if k == h + 1 then {o[h]} else {o[h], o[h + 1]};
    assert (m != h ==> o[m] != o[h]) && (m != h + 1 ==> o[m] != o[h + 1]);
  }

  lemma RunAncestry(fetch: Fetch, l: Side, r: Side)
    requires Inward(fetch, l) && Inward(fetch, r) && Distinct(Ids(l) + Ids(r))
    ensures Runs(Ancestry(fetch, Members(Ids(l) + Ids(r))), Ids(l) + Ids(r))
  {
    var o := Ids(l) + Ids(r);
    assert o[0] in Members(o) && o[1] in Members(o) && o[2] in Members(o);
    assert o[3] in Members(o) && o[4] in Members(o) && o[5] in Members(o);
    SideWaits(fetch, Members(o), l);
    SideWaits(fetch, Members(o), r);
    WaitsRun(Ancestry(fetch, Members(o)), l, r);
  }

  lemma NoLevelsAmong(fetch: Fetch, auth: seq<EventId>)
    requires forall id :: id in auth ==> id in fetch && !fetch[id].kind.LevelsEvent?
    ensures FirstLevels(fetch, auth) == Ok(None) && FromAuthEvents(fetch, auth, POWER_LEVELS) == None
  {
  }

  lemma KeyOf(version: RoomVersion, creators: set<UserId>, fetch: Fetch, events: set<EventId>, id: EventId)
    requires version != V12 && id in events && id in fetch
    requires forall a :: a in fetch[id].authEvents ==> a in fetch && !fetch[a].kind.LevelsEvent?
    ensures var keys := PowerKeys(version, creators, fetch, events);
            id in keys && keys[id].power == Int(if fetch[id].sender in creators then 100 else 0)
  {
    NoLevelsAmong(fetch, fetch[id].authEvents);
  }

  lemma PowerfulFirst(version: RoomVersion, creators: set<UserId>, fetch: Fetch, events: set<EventId>, a: EventId,
                      b: EventId)
    requires version != V12 && a in events && b in events && a in fetch && b in fetch
    requires forall x :: x in fetch[a].authEvents + fetch[b].authEvents ==> x in fetch && !fetch[x].kind.LevelsEvent?
    requires fetch[a].sender in creators && fetch[b].sender !in creators
    ensures Before(PowerKeys(version, creators, fetch, events))(a, b)
  {
    var keys := PowerKeys(version, creators, fetch, events);
    KeyOf(version, creators, fetch, events, a);
    KeyOf(version, creators, fetch, events, b);
    assert KeyLess(keys[a], keys[b]);
  }

  lemma SideMembers(prims: Primitives, version: RoomVersion, fetch: Fetch, s: Side, id: EventId)
    requires SideOk(prims, version, fetch, s) && id in Ids(s)
    ensures id in fetch && fetch[id].sender == fetch[s.create].sender
    ensures forall x :: x in fetch[id].authEvents ==> x in fetch && !fetch[x].kind.LevelsEvent?
  {
  }

  lemma ClashLess(prims: Primitives, version: RoomVersion, fetch: Fetch, l: Side, r: Side, k: nat, m: nat)
    requires Clash(prims, version, fetch, l, r) && k < 3 <= m < 6
    ensures var o := Ids(l) + Ids(r);
            Before(PowerKeys(version, {fetch[l.create].sender}, fetch, Members(o)))(o[k], o[m])
  {
    var o := Ids(l) + Ids(r);
    assert o[k] in Members(o) && o[m] in Members(o) && o[k] in Ids(l) && o[m] in Ids(r);
    SideMembers(prims, version, fetch, l, o[k]);
    SideMembers(prims, version, fetch, r, o[m]);
    PowerfulFirst(version, {fetch[l.create].sender}, fetch, Members(o), o[k], o[m]);
  }

  lemma SidesComplete(fetch: Fetch, l: Side, r: Side, id: EventId)
    requires Inward(fetch, l) && Inward(fetch, r) && id in Members(Ids(l) + Ids(r))
    ensures Complete(fetch, id) && id in fetch
  {
    InwardChains(fetch, l);
    InwardChains(fetch, r);
  }

  /** The side whose founder the creators name goes first. */
  lemma ClashOrder(prims: Primitives, version: RoomVersion, fetch: Fetch, rank: EventId -> nat, l: Side, r: Side)
    requires Clash(prims, version, fetch, l, r) && RankedBy(fetch, rank)
    ensures PowerOrdering(version, {fetch[l.create].sender}, fetch, Members(Ids(l) + Ids(r))) == Ids(l) + Ids(r)
  {
    var o, creators := Ids(l) + Ids(r), {fetch[l.create].sender};
    forall id | id in Members(o) ensures Complete(fetch, id) {
      SidesComplete(fetch, l, r, id);
    }
    RunAncestry(fetch, l, r);
    AncestryOrderable(version, creators, fetch, Members(o), rank);
    forall k, m | 0 <= k < 3 <= m < 6
      ensures Before(PowerKeys(version, creators, fetch, Members(o)))(o[k], o[m])
    {
      ClashLess(prims, version, fetch, l, r, k, m);
    }
    RunsLeast(Ancestry(fetch, Members(o)), Before(PowerKeys(version, creators, fetch, Members(o))), rank, o);
    PowerOrderingIs(version, creators, fetch, Members(o), rank, o);
  }

  // ---------------------------------------------------------------- the checks

  lemma StepTaken(prims: Primitives, version: RoomVersion, fetch: Fetch, state: StateIds, order: seq<EventId>,
                  state': StateIds)
    requires order != [] && order[0] in fetch && Held(fetch, state)
    requires Allowed(prims, version, fetch[order[0]], Effective(prims, version, fetch, state, fetch[order[0]]))
    requires state' == state[fetch[order[0]].Key() := order[0]]
    ensures CheckAll(prims, version, fetch, state, order) == CheckAll(prims, version, fetch, state', order[1..])
  {
  }

  lemma EffectiveAt(prims: Primitives, version: RoomVersion, fetch: Fetch, state: StateIds, e: Event, k: Key)
    requires k in Needed(version, e) && k in state && state[k] in fetch
    ensures Lookup(Effective(prims, version, fetch, state, e), k) == Some(fetch[state[k]])
  {
  }

  lemma NoLevels(prims: Primitives, version: RoomVersion, fetch: Fetch, state: StateIds, e: Event)
    requires POWER_LEVELS !in state
    requires forall id :: id in e.authEvents ==> id in fetch && !fetch[id].kind.LevelsEvent?
    ensures Lookup(Effective(prims, version, fetch, state, e), POWER_LEVELS) == None
  {
    NoLevelsAmong(fetch, e.authEvents);
  }

  lemma JoinChecked(prims: Primitives, version: RoomVersion, fetch: Fetch, state: StateIds, s: Side)
    requires version != V12 && SideOk(prims, version, fetch, s) && POWER_LEVELS !in state
    requires CREATE in state && state[CREATE] == s.create
    ensures Allowed(prims, version, fetch[s.join], Effective(prims, version, fetch, state, fetch[s.join]))
  {
    SideMembers(prims, version, fetch, s, s.join);
    EffectiveAt(prims, version, fetch, state, fetch[s.join], CREATE);
    NoLevels(prims, version, fetch, state, fetch[s.join]);
    JoinAccepted(prims, version, fetch[s.create], fetch[s.join],
                 Effective(prims, version, fetch, state, fetch[s.join]));
  }

  lemma RulesChecked(prims: Primitives, version: RoomVersion, fetch: Fetch, state: StateIds, s: Side)
    requires version != V12 && SideOk(prims, version, fetch, s) && POWER_LEVELS !in state
    requires CREATE in state && state[CREATE] == s.create
    requires MemberKey(fetch[s.create].sender) in state && state[MemberKey(fetch[s.create].sender)] == s.join
    ensures Allowed(prims, version, fetch[s.rules], Effective(prims, version, fetch, state, fetch[s.rules]))
  {
    var e := fetch[s.rules];
    SideMembers(prims, version, fetch, s, s.rules);
    EffectiveAt(prims, version, fetch, state, e, CREATE);
    EffectiveAt(prims, version, fetch, state, e, MemberKey(e.sender));
    NoLevels(prims, version, fetch, state, e);
    RulesAccepted(prims, version, fetch[s.create], fetch[s.join], e, s.join,
                  Effective(prims, version, fetch, state, e));
  }

  /** A state in which a side has settled. */
  function Settled(state: StateIds, founder: UserId, s: Side): StateIds {
    state[CREATE := s.create][MemberKey(founder) := s.join][JOIN_RULES := s.rules]
  }

  /** A side's event is accepted and filed under its key. */
  ghost predicate Taken(prims: Primitives, version: RoomVersion, fetch: Fetch, state: StateIds, id: EventId, key: Key) {
    && id in fetch && fetch[id].Key() == key && Held(fetch, state)
    && Allowed(prims, version, fetch[id], Effective(prims, version, fetch, state, fetch[id]))
  }

  lemma ThreeTaken(prims: Primitives, version: RoomVersion, fetch: Fetch, state: StateIds, order: seq<EventId>,
                   i: Key, j: Key, k: Key)
    requires |order| >= 3 && Taken(prims, version, fetch, state, order[0], i)
    requires Taken(prims, version, fetch, state[i := order[0]], order[1], j)
    requires Taken(prims, version, fetch, state[i := order[0]][j := order[1]], order[2], k)
    ensures CheckAll(prims, version, fetch, state, order) ==
            CheckAll(prims, version, fetch, state[i := order[0]][j := order[1]][k := order[2]], order[3..])
  {
    assert order[1..][1..] == order[2..] && order[2..][1..] == order[3..];
    var one, two := state[i := order[0]], state[i := order[0]][j := order[1]];
    StepTaken(prims, version, fetch, state, order, one);
    StepTaken(prims, version, fetch, one, order[1..], two);
    StepTaken(prims, version, fetch, two, order[2..], two[k := order[2]]);
  }

  /** All three events of a side are accepted, whatever was there before. */
  lemma SideChecked(prims: Primitives, version: RoomVersion, fetch: Fetch, state: StateIds, s: Side,
                    order: seq<EventId>)
    requires version != V12 && SideOk(prims, version, fetch, s) && Held(fetch, state) && POWER_LEVELS !in state
    requires |order| >= 3 && order[0] == s.create && order[1] == s.join && order[2] == s.rules
    ensures CheckAll(prims, version, fetch, state, order) ==
            CheckAll(prims, version, fetch, Settled(state, fetch[s.create].sender, s), order[3..])
  {
    SideTaken(prims, version, fetch, state, s);
    ThreeTaken(prims, version, fetch, state, order, CREATE, MemberKey(fetch[s.create].sender), JOIN_RULES);
  }

  lemma SideTaken(prims: Primitives, version: RoomVersion, fetch: Fetch, state: StateIds, s: Side)
    requires version != V12 && SideOk(prims, version, fetch, s) && Held(fetch, state) && POWER_LEVELS !in state
    ensures var one, key := state[CREATE := s.create], MemberKey(fetch[s.create].sender);
            && Taken(prims, version, fetch, state, s.create, CREATE) && Taken(prims, version, fetch, one, s.join, key)
            && Taken(prims, version, fetch, one[key := s.join], s.rules, JOIN_RULES)
  {
    var one, key := state[CREATE := s.create], MemberKey(fetch[s.create].sender);
    JoinChecked(prims, version, fetch, one, s);
    RulesChecked(prims, version, fetch, one[key := s.join], s);
  }

  /** The state that both sides leave, the second over the first. */
  function Outcome(fetch: Fetch, l: Side, r: Side): StateIds
    requires l.create in fetch && r.create in fetch
  {
    Settled(Settled(map[], fetch[l.create].sender, l), fetch[r.create].sender, r)
  }

  lemma ClashChecks(prims: Primitives, version: RoomVersion, fetch: Fetch, l: Side, r: Side)
    requires Clash(prims, version, fetch, l, r)
    ensures CheckAll(prims, version, fetch, map[], Ids(l) + Ids(r)) == Some(Outcome(fetch, l, r))
  {
    FirstSide(prims, version, fetch, l, Ids(r));
    SettledHeld(fetch, l);
    LastSide(prims, version, fetch, Settled(map[], fetch[l.create].sender, l), r);
  }

  lemma SettledHeld(fetch: Fetch, s: Side)
    requires Inward(fetch, s)
    ensures var state := Settled(map[], fetch[s.create].sender, s); Held(fetch, state) && POWER_LEVELS !in state
  {
  }

  lemma FirstSide(prims: Primitives, version: RoomVersion, fetch: Fetch, s: Side, rest: seq<EventId>)
    requires version != V12 && SideOk(prims, version, fetch, s)
    ensures CheckAll(prims, version, fetch, map[], Ids(s) + rest) ==
            CheckAll(prims, version, fetch, Settled(map[], fetch[s.create].sender, s), rest)
  {
    SideChecked(prims, version, fetch, map[], s, Ids(s) + rest);
    assert (Ids(s) + rest)[3..] == rest;
  }

  lemma LastSide(prims: Primitives, version: RoomVersion, fetch: Fetch, state: StateIds, s: Side)
    requires version != V12 && SideOk(prims, version, fetch, s) && Held(fetch, state) && POWER_LEVELS !in state
    ensures CheckAll(prims, version, fetch, state, Ids(s)) == Some(Settled(state, fetch[s.create].sender, s))
  {
    SideChecked(prims, version, fetch, state, s, Ids(s));
    assert Ids(s)[3..] == [];
    CheckNothing(prims, version, fetch, Settled(state, fetch[s.create].sender, s));
  }

  lemma CheckNothing(prims: Primitives, version: RoomVersion, fetch: Fetch, state: StateIds)
    ensures CheckAll(prims, version, fetch, state, []) == Some(state)
  {
  }

  // ---------------------------------------------------------------- the result

  function Snapshot(fetch: Fetch, s: Side): StateIds
    requires s.create in fetch
  {
    Settled(map[], fetch[s.create].sender, s)
  }

  lemma SnapshotsConflict(fetch: Fetch, l: Side, r: Side)
    requires l.create in fetch && r.create in fetch && Distinct(Ids(l) + Ids(r))
    requires fetch[l.create].sender != fetch[r.create].sender
    ensures var sets := {Snapshot(fetch, l), Snapshot(fetch, r)};
            Conflicted(sets) == Members(Ids(l) + Ids(r)) && Unconflicted(sets) == map[]
  {
    var p, q, o := Snapshot(fetch, l), Snapshot(fetch, r), Ids(l) + Ids(r);
    var sets := {p, q};
    assert p in sets && q in sets;
    assert o[0] != o[3] && o[2] != o[5];
    assert forall k, id :: !AllSay(sets, k, id);
    assert Unconflicted(sets) == map[];
    assert p[CREATE] == o[0] && p[MemberKey(fetch[l.create].sender)] == o[1] && p[JOIN_RULES] == o[2];
    assert q[CREATE] == o[3] && q[MemberKey(fetch[r.create].sender)] == o[4] && q[JOIN_RULES] == o[5];
  }

  lemma ChainWithin(fetch: Fetch, s: Side, id: EventId)
    requires Inward(fetch, s) && id in ChainOfState(fetch, Snapshot(fetch, s))
    ensures id in Ids(s)
  {
    InwardChains(fetch, s);
    var k :| k in Snapshot(fetch, s) && Above(fetch, Snapshot(fetch, s)[k], id);
    assert Snapshot(fetch, s)[k] in Ids(s);
    assert id in Chain(fetch, s.create) || id in Chain(fetch, s.join) || id in Chain(fetch, s.rules);
  }

  lemma DifferenceWithin(fetch: Fetch, l: Side, r: Side, id: EventId)
    requires Inward(fetch, l) && Inward(fetch, r)
    requires id in AuthDifference(fetch, {Snapshot(fetch, l), Snapshot(fetch, r)})
    ensures id in Ids(l) || id in Ids(r)
  {
    var s :| s in {Snapshot(fetch, l), Snapshot(fetch, r)} && id in ChainOfState(fetch, s);
    if s == Snapshot(fetch, l) {
      ChainWithin(fetch, l, id);
    } else {
      ChainWithin(fetch, r, id);
    }
  }

  lemma ClashConflict(version: RoomVersion, fetch: Fetch, l: Side, r: Side)
    requires version != V12 && Inward(fetch, l) && Inward(fetch, r)
    requires Conflicted({Snapshot(fetch, l), Snapshot(fetch, r)}) == Members(Ids(l) + Ids(r))
    ensures FullConflicted(version, fetch, {Snapshot(fetch, l), Snapshot(fetch, r)}) == Members(Ids(l) + Ids(r))
  {
    forall id | id in AuthDifference(fetch, {Snapshot(fetch, l), Snapshot(fetch, r)})
      ensures id in Members(Ids(l) + Ids(r))
    {
      DifferenceWithin(fetch, l, r, id);
    }
  }

  lemma ClashPower(fetch: Fetch, l: Side, r: Side)
    requires Inward(fetch, l) && Inward(fetch, r) && IsPowerEvent(fetch[l.rules]) && IsPowerEvent(fetch[r.rules])
    ensures PowerSet(fetch, Members(Ids(l) + Ids(r))) == Members(Ids(l) + Ids(r))
  {
    var full := Members(Ids(l) + Ids(r));
    InwardChains(fetch, l);
    InwardChains(fetch, r);
    assert l.rules in full && r.rules in full by {
      assert (Ids(l) + Ids(r))[2] == l.rules && (Ids(l) + Ids(r))[5] == r.rules;
    }
    forall id | id in full ensures id in PowerSet(fetch, full) {
      assert id in Ids(l) || id in Ids(r);
      assert id == l.rules || id in Chain(fetch, l.rules) || id == r.rules || id in Chain(fetch, r.rules);
    }
  }

  lemma NothingRemains(prims: Primitives, version: RoomVersion, fetch: Fetch, rank: EventId -> nat, full: set<EventId>,
                       partial: StateIds)
    requires RankedBy(fetch, rank) && full <= fetch.Keys && PowerSet(fetch, full) == full
    ensures AfterRest(prims, version, fetch, rank, full, partial) == Some(partial)
  {
  }

  lemma AllChecked(prims: Primitives, version: RoomVersion, fetch: Fetch, rank: EventId -> nat, creators: set<UserId>,
                   full: set<EventId>, start: StateIds)
    requires RankedBy(fetch, rank) && full <= fetch.Keys && PowerSet(fetch, full) == full
    ensures AfterAll(prims, version, fetch, rank, creators, full, start) ==
            CheckAll(prims, version, fetch, start, PowerOrdering(version, creators, fetch, full))
  {
    var partial := AfterPower(prims, version, fetch, creators, full, start);
    if partial.Some? {
      NothingRemains(prims, version, fetch, rank, full, partial.value);
    }
  }

  lemma PlusNothing(all: Option<StateIds>, nothing: StateIds)
    requires nothing == map[]
    ensures all == if all.None? then None else Some(all.value + nothing)
  {
    assert all.Some? ==> all.value + nothing == all.value;
  }

  /** Where nothing is agreed, the result is what both rounds of checks leave. */
  lemma ResolvedFromNothing(prims: Primitives, version: RoomVersion, fetch: Fetch, rank: EventId -> nat,
                            sets: set<StateIds>, c: EventId, full: set<EventId>)
    requires RankedBy(fetch, rank) && c in fetch && full <= fetch.Keys
    requires Conflicted(sets) != {} && FullConflicted(version, fetch, sets) == full && Unconflicted(sets) == map[]
    ensures Resolved(prims, version, fetch, rank, sets, Some(c)) ==
            AfterAll(prims, version, fetch, rank, Creators(prims, version, fetch[c]), full, map[])
  {
    var creators := Creators(prims, version, fetch[c]);
    SameAll(prims, version, fetch, rank, creators, full, FullConflicted(version, fetch, sets), map[],
            StartingState(version, sets));
    ResolvedUnfolds(prims, version, fetch, rank, sets, c);
    PlusNothing(AfterAll(prims, version, fetch, rank, creators, full, map[]), Unconflicted(sets));
  }

  lemma SidesHeld(fetch: Fetch, l: Side, r: Side)
    requires Inward(fetch, l) && Inward(fetch, r)
    ensures Members(Ids(l) + Ids(r)) <= fetch.Keys && l.create in Members(Ids(l) + Ids(r))
  {
    assert (Ids(l) + Ids(r))[0] == l.create;
  }

  lemma ClashAll(prims: Primitives, version: RoomVersion, fetch: Fetch, rank: EventId -> nat, l: Side, r: Side)
    requires Clash(prims, version, fetch, l, r) && RankedBy(fetch, rank)
    ensures Members(Ids(l) + Ids(r)) <= fetch.Keys
    ensures AfterAll(prims, version, fetch, rank, {fetch[l.create].sender}, Members(Ids(l) + Ids(r)), map[]) ==
            Some(Outcome(fetch, l, r))
  {
    SidesHeld(fetch, l, r);
    ClashPower(fetch, l, r);
    ClashOrder(prims, version, fetch, rank, l, r);
    ClashChecks(prims, version, fetch, l, r);
    AllChecked(prims, version, fetch, rank, {fetch[l.create].sender}, Members(Ids(l) + Ids(r)), map[]);
  }

  lemma ClashSets(prims: Primitives, version: RoomVersion, fetch: Fetch, l: Side, r: Side)
    requires Clash(prims, version, fetch, l, r)
    ensures var sets := {Snapshot(fetch, l), Snapshot(fetch, r)};
            && Conflicted(sets) != {} && Unconflicted(sets) == map[] && l.create in fetch
            && FullConflicted(version, fetch, sets) == Members(Ids(l) + Ids(r))
            && Creators(prims, version, fetch[l.create]) == {fetch[l.create].sender}
  {
    SidesHeld(fetch, l, r);
    SnapshotsConflict(fetch, l, r);
    ClashConflict(version, fetch, l, r);
  }

  /** With the left side's create event named, the right side settles over the left one. */
  lemma ClashResolves(prims: Primitives, version: RoomVersion, fetch: Fetch, rank: EventId -> nat, l: Side, r: Side,
                      sets: set<StateIds>)
    requires Clash(prims, version, fetch, l, r) && RankedBy(fetch, rank)
    requires sets == {Snapshot(fetch, l), Snapshot(fetch, r)}
    ensures FullConflicted(version, fetch, sets) <= fetch.Keys
    ensures Resolved(prims, version, fetch, rank, sets, Some(l.create)) == Some(Outcome(fetch, l, r))
  {
    ClashSets(prims, version, fetch, l, r);
    ClashAll(prims, version, fetch, rank, l, r);
    ResolvedFromNothing(prims, version, fetch, rank, sets, l.create, Members(Ids(l) + Ids(r)));
  }

  // ---------------------------------------------------------------- either order

  lemma FirstOfTwo(s: StateIds, t: StateIds)
    requires CREATE in s
    ensures FirstCreate([s, t]) == Some(s[CREATE]) && Members([s, t]) == {s, t}
  {
  }

  method ResolveTwo(prims: Primitives, version: RoomVersion, fetch: Fetch, s: StateIds, t: StateIds,
                    ghost rank: EventId -> nat)
    returns (r: Result<StateIds, StateRes.StateResError>)
    requires RankedBy(fetch, rank) && AllComplete(fetch, {s, t}) && Conflicted({s, t}) != {} && CREATE in s
    ensures r.Ok? && FullConflicted(version, fetch, {s, t}) <= fetch.Keys
    ensures Resolved(prims, version, fetch, rank, {s, t}, Some(s[CREATE])) == Some(r.value)
  {
    FirstOfTwo(s, t);
    r := StateRes.Resolve(prims, version, [s, t], fetch, rank);
    assert StateRes.Outcome(prims, version, fetch, rank, [s, t], r.value);
  }

  lemma SnapshotsComplete(fetch: Fetch, l: Side, r: Side)
    requires Inward(fetch, l) && Inward(fetch, r)
    ensures AllComplete(fetch, {Snapshot(fetch, l), Snapshot(fetch, r)})
    ensures CREATE in Snapshot(fetch, l) && Snapshot(fetch, l)[CREATE] == l.create
  {
    InwardChains(fetch, l);
    InwardChains(fetch, r);
  }

  method ResolveClash(prims: Primitives, version: RoomVersion, fetch: Fetch, l: Side, r: Side,
                      ghost rank: EventId -> nat)
    returns (result: Result<StateIds, StateRes.StateResError>)
    requires Clash(prims, version, fetch, l, r) && RankedBy(fetch, rank)
    ensures result == Ok(Outcome(fetch, l, r))
  {
    SnapshotsComplete(fetch, l, r);
    ClashSets(prims, version, fetch, l, r);
    ClashResolves(prims, version, fetch, rank, l, r, {Snapshot(fetch, l), Snapshot(fetch, r)});
    result := ResolveTwo(prims, version, fetch, Snapshot(fetch, l), Snapshot(fetch, r), rank);
  }

  lemma ClashSwaps(prims: Primitives, version: RoomVersion, fetch: Fetch, l: Side, r: Side)
    requires Clash(prims, version, fetch, l, r)
    ensures Clash(prims, version, fetch, r, l) && Outcome(fetch, l, r) != Outcome(fetch, r, l)
  {
    SwapDistinct(l, r);
    assert Outcome(fetch, l, r)[CREATE] == r.create && Outcome(fetch, r, l)[CREATE] == l.create;
  }

  lemma SwapDistinct(l: Side, r: Side)
    requires Distinct(Ids(l) + Ids(r))
    ensures Distinct(Ids(r) + Ids(l)) && l.create != r.create
  {
    var o := Ids(l) + Ids(r);
    assert Ids(r) + Ids(l) == [o[3], o[4], o[5], o[0], o[1], o[2]];
    assert o[0] != o[3];
  }

  /** The same two snapshots in either order, with different results, whatever other events are at hand. */
  method OrderMatters(prims: Primitives, version: RoomVersion, fetch: Fetch, l: Side, r: Side,
                      ghost rank: EventId -> nat)
    returns (p: Result<StateIds, StateRes.StateResError>, q: Result<StateIds, StateRes.StateResError>)
    requires Clash(prims, version, fetch, l, r) && RankedBy(fetch, rank)
    ensures p == Ok(Outcome(fetch, l, r)) && q == Ok(Outcome(fetch, r, l)) && p != q
  {
    ClashSwaps(prims, version, fetch, l, r);
    p := ResolveClash(prims, version, fetch, l, r, rank);
    q := ResolveClash(prims, version, fetch, r, l, rank);
  }

  // ---------------------------------------------------------------- any two create events

  function JoinOf(create: Event, id: EventId): Event {
    Event(id, create.roomId, create.sender, MemberEvent, Some(create.sender), map["membership" := String("join")],
          0, [create.id], [create.id])
  }

  function RulesOf(create: Event, join: EventId, id: EventId): Event {
    Event(id, create.roomId, create.sender, JoinRulesEvent, Some(""), map[], 0, [create.id, join], [])
  }

  /** Ids of their own for the joins and the rules. */
  function Left(x: Event, y: Event): Side {
    Side(x.id, x.id + y.id + "1", x.id + y.id + "2")
  }

  function Right(x: Event, y: Event): Side {
    Side(y.id, x.id + y.id + "3", x.id + y.id + "4")
  }

  function Both(x: Event, y: Event): Fetch {
    var l, r := Left(x, y), Right(x, y);
    map[x.id := x, y.id := y, l.join := JoinOf(x, l.join), l.rules := RulesOf(x, l.join, l.rules),
        r.join := JoinOf(y, r.join), r.rules := RulesOf(y, r.join, r.rules)]
  }

  function Depth(x: Event, y: Event): EventId -> nat {
    (id: EventId) => if id == x.id || id == y.id then 0
                     else if id == Left(x, y).join || id == Right(x, y).join then 1 else 2
  }

  lemma FreshIds(x: EventId, y: EventId, s: string)
    requires s != ""
    ensures x + y + s != x && x + y + s != y
  {
    assert |x + y + s| > |x| && |x + y + s| > |y|;
  }

  lemma BothDistinct(x: Event, y: Event)
    requires x.id != y.id
    ensures Distinct(Ids(Left(x, y)) + Ids(Right(x, y)))
  {
    var o, z := Ids(Left(x, y)) + Ids(Right(x, y)), x.id + y.id;
    FreshIds(x.id, y.id, "1");
    FreshIds(x.id, y.id, "2");
    FreshIds(x.id, y.id, "3");
    FreshIds(x.id, y.id, "4");
    assert (z + "1")[|z|] == '1' && (z + "2")[|z|] == '2' && (z + "3")[|z|] == '3' && (z + "4")[|z|] == '4';
    assert o == [x.id, z + "1", z + "2", y.id, z + "3", z + "4"];
  }

  /** What is filed where. */
  lemma BothHolds(x: Event, y: Event)
    requires x.id != y.id
    ensures var fetch, l, r := Both(x, y), Left(x, y), Right(x, y);
            && fetch.Keys == {x.id, y.id, l.join, l.rules, r.join, r.rules}
            && fetch[x.id] == x && fetch[l.join] == JoinOf(x, l.join) && fetch[l.rules] == RulesOf(x, l.join, l.rules)
            && fetch[y.id] == y && fetch[r.join] == JoinOf(y, r.join) && fetch[r.rules] == RulesOf(y, r.join, r.rules)
  {
    var o := Ids(Left(x, y)) + Ids(Right(x, y));
    BothDistinct(x, y);
    assert o[0] != o[1] && o[0] != o[2] && o[0] != o[3] && o[0] != o[4] && o[0] != o[5];
    assert o[1] != o[2] && o[1] != o[3] && o[1] != o[4] && o[1] != o[5];
    assert o[2] != o[3] && o[2] != o[4] && o[2] != o[5] && o[3] != o[4] && o[3] != o[5] && o[4] != o[5];
  }

  lemma BothRanked(x: Event, y: Event)
    requires x.id != y.id && x.authEvents == [] && y.authEvents == []
    ensures RankedBy(Both(x, y), Depth(x, y))
  {
    var o := Ids(Left(x, y)) + Ids(Right(x, y));
    BothHolds(x, y);
    BothDistinct(x, y);
    assert o[0] != o[2] && o[0] != o[5] && o[3] != o[2] && o[3] != o[5] && o[1] != o[2] && o[1] != o[5];
    assert o[4] != o[2] && o[4] != o[5] && o[0] != o[1] && o[0] != o[4] && o[3] != o[1] && o[3] != o[4];
  }

  lemma BothClash(prims: Primitives, version: RoomVersion, x: Event, y: Event)
    requires version != V12 && Founding(prims, version, x) && Founding(prims, version, y)
    requires x.id != y.id && x.sender != y.sender
    ensures Clash(prims, version, Both(x, y), Left(x, y), Right(x, y))
  {
    var o := Ids(Left(x, y)) + Ids(Right(x, y));
    BothDistinct(x, y);
    BothHolds(x, y);
    assert o[0] != o[1] && o[0] != o[2] && o[1] != o[2] && o[3] != o[4] && o[3] != o[5] && o[4] != o[5];
    StandsJoined();
  }

  lemma StandsJoined()
    ensures StandingIn(map["membership" := String("join")]) == Some(Join)
  {
  }

  lemma MemberPasses(prims: Primitives, version: RoomVersion, fetch: Fetch, s: Side, id: EventId)
    requires version != V12 && SideOk(prims, version, fetch, s) && id in Ids(s)
    ensures id in fetch && Passes(prims, version, fetch, fetch[id])
  {
    SidePasses(prims, version, fetch, s);
  }

  lemma BothPass(prims: Primitives, version: RoomVersion, x: Event, y: Event, id: EventId)
    requires version != V12 && Clash(prims, version, Both(x, y), Left(x, y), Right(x, y)) && id in Both(x, y)
    ensures Passes(prims, version, Both(x, y), Both(x, y)[id])
  {
    if id in Ids(Left(x, y)) {
      MemberPasses(prims, version, Both(x, y), Left(x, y), id);
    } else {
      MemberPasses(prims, version, Both(x, y), Right(x, y), id);
    }
  }

  /**
   * For any two acceptable create events by different founders there are snapshots, all of whose
   * events pass the rules by themselves, that resolve differently in either order.
   */
  method AnyFounders(prims: Primitives, version: RoomVersion, x: Event, y: Event)
    returns (fetch: Fetch, p: Result<StateIds, StateRes.StateResError>, q: Result<StateIds, StateRes.StateResError>)
    requires version != V12 && Founding(prims, version, x) && Founding(prims, version, y)
    requires x.id != y.id && x.sender != y.sender
    ensures x.id in fetch && fetch[x.id] == x && y.id in fetch && fetch[y.id] == y
    ensures forall id :: id in fetch ==> Passes(prims, version, fetch, fetch[id])
    ensures fetch == Both(x, y) && p != q
    ensures p == Ok(Outcome(fetch, Left(x, y), Right(x, y))) && q == Ok(Outcome(fetch, Right(x, y), Left(x, y)))
  {
    fetch := Both(x, y);
    BothHolds(x, y);
    BothRanked(x, y);
    BothClash(prims, version, x, y);
    forall id | id in fetch ensures Passes(prims, version, fetch, fetch[id]) {
      BothPass(prims, version, x, y, id);
    }
    p, q := OrderMatters(prims, version, fetch, Left(x, y), Right(x, y), Depth(x, y));
  }

  /** In version 11 every acceptable create event is of that kind. */
  lemma VersionEleven(prims: Primitives, e: Event)
    requires e.kind.CreateEvent? && e.stateKey == Some("") && e.authEvents == [] && CreateAllowed(prims, V11, e)
    ensures Founding(prims, V11, e)
  {
  }
}
