/**
 * Who may do what in a room, event by event along an accepted history: every change of somebody's
 * membership, every other event, and every change of the levels themselves. Levels and thresholds
 * are read straight off the power-levels content in force.
 */
module Moderation {
  import opened Wrappers
  import opened Events
  import opened PowerLevels
  import opened Auth
  import opened RoomHistory

  // ---------------------------------------------------------------- words

  /** Where somebody stands is what their member event says; who has none has left. */
  lemma StandingMeans(state: State, u: string)
    ensures var said := if MemberKey(u) in state then StrProp(state[MemberKey(u)].content, "membership") else None;
            && (Membership(state, u) == Join <==> said == Some("join"))
            && (Membership(state, u) == Invite <==> said == Some("invite"))
            && (Membership(state, u) == Ban <==> said == Some("ban"))
            && (Membership(state, u) == Knock <==> said == Some("knock"))
            && (Membership(state, u) == Leave <==> said == None || said == Some("leave"))
  {
  }

  /** A room is by invitation unless its join rules say otherwise, and closed if they say what nobody knows. */
  lemma RuleMeans(state: State)
    ensures var said := if JOIN_RULES in state then StrProp(state[JOIN_RULES].content, "join_rule") else None;
            && (JoinRule(state) == Public <==> said == Some("public"))
            && (JoinRule(state) == InviteOnly <==> said == None || said == Some("invite"))
            && (JoinRule(state) == KnockOnly <==> said == Some("knock"))
            && (JoinRule(state) == Restricted <==> said == Some("restricted"))
            && (JoinRule(state) == KnockRestricted <==> said == Some("knock_restricted"))
  {
  }

  /** Levels are integers; versions 8 and 9 also read them from strings. */
  lemma LevelMeans(prims: Primitives, version: RoomVersion, v: Json, n: int)
    ensures LevelValue(prims, v, version.LenientPowerLevels()) == Some(n) <==>
            v == Integer(n) || (version in {V8, V9} && v.String? && prims.parseLevel(v.text) == Some(n))
  {
  }

  /** The keys of a third-party invite: its own and the listed ones. */
  lemma KeysMean(content: Content, key: string)
    ensures key in CandidateKeys(content) <==>
            || StrProp(content, "public_key") == Some(key)
            || ("public_keys" in content && content["public_keys"].Array? &&
                exists i :: 0 <= i < |content["public_keys"].items| &&
                            OffersKey(content["public_keys"].items[i], key))
  {
    if "public_keys" in content && content["public_keys"].Array? {
      ListedKeysMean(content["public_keys"].items, key);
    }
  }

  predicate OffersKey(item: Json, key: string) {
    item.Object? && StrProp(item.fields, "public_key") == Some(key)
  }

  lemma {:induction false} ListedKeysMean(items: seq<Json>, key: string)
    ensures key in ListedKeys(items) <==> exists i :: 0 <= i < |items| && OffersKey(items[i], key)
  {
    if items != [] {
      ListedKeysMean(items[1..], key);
      if key in ListedKeys(items[1..]) {
        var i :| 0 <= i < |items[1..]| && OffersKey(items[1..][i], key);
        assert OffersKey(items[i + 1], key);
      }
      if i :| 0 < i < |items| && OffersKey(items[i], key) {
        assert OffersKey(items[1..][i - 1], key);
      }
    }
  }

  // ---------------------------------------------------------------- levels in force

  function LevelsContent(state: State): Content {
    if POWER_LEVELS in state then state[POWER_LEVELS].content else map[]
  }

  /** A threshold by its name in the power-levels content, or its default. */
  function Threshold(prims: Primitives, version: RoomVersion, state: State, name: string, default: int): int {
    var v := GetInt(prims, LevelsContent(state), name, version.LenientPowerLevels());
    if v.Some? then v.value else default
  }

  /** The level sending an event takes: what is set for its type, or the default for state or messages. */
  function Needed(prims: Primitives, version: RoomVersion, state: State, e: Event): int {
    var types := EntryMap(prims, LevelsContent(state), "events", version.LenientPowerLevels());
    if e.kind.TypeName() in types then types[e.kind.TypeName()]
    else if e.stateKey.Some? then Threshold(prims, version, state, "state_default", 50)
    else Threshold(prims, version, state, "events_default", 0)
  }

  /** Creators of version 12 are above everybody; without power levels older creators have 100, all others 0. */
  function Level(prims: Primitives, version: RoomVersion, state: State, u: UserId): PowerLevel
    requires CREATE in state
  {
    var creators := Creators(prims, version, state[CREATE]);
    if version == V12 && u in creators then Infinite
    else if POWER_LEVELS !in state then Int(if version != V12 && u in creators then 100 else 0)
    else
      var users := ExplicitUsers(prims, version, LevelsContent(state));
      Int(if u in users then users[u] else UsersDefault(prims, version, LevelsContent(state)))
  }

  /** The level of whoever a membership is about, which need not be a user id. */
  function TargetLevel(prims: Primitives, version: RoomVersion, state: State, target: string): PowerLevel
    requires CREATE in state
  {
    if prims.validUser(target) then Level(prims, version, state, target)
    else Int(UsersDefault(prims, version, LevelsContent(state)))
  }

  predicate AtLeast(level: PowerLevel, n: int) {
    level.Infinite? || level.level >= n
  }

  predicate Above(a: PowerLevel, b: PowerLevel) {
    b.Int? && (a.Infinite? || a.level > b.level)
  }

  /** The power-levels event in force can be read, or there is none. */
  ghost predicate Readable(prims: Primitives, version: RoomVersion, state: State) {
    CREATE in state && Resolve(prims, version, state[CREATE], Lookup(state, POWER_LEVELS)).Some?
  }

  /** What the levels in force say, threshold by threshold and user by user. */
  lemma LevelsMean(prims: Primitives, version: RoomVersion, state: State, u: UserId)
    requires Readable(prims, version, state)
    ensures var power := Resolve(prims, version, state[CREATE], Lookup(state, POWER_LEVELS)).value;
            && power.User(u) == Level(prims, version, state, u)
            && power.ban == Threshold(prims, version, state, "ban", 50)
            && power.kick == Threshold(prims, version, state, "kick", 50)
            && power.redact == Threshold(prims, version, state, "redact", 50)
            && power.invite == Threshold(prims, version, state, "invite", 0)
  {
    if POWER_LEVELS in state && !Privileged(prims, version, state[CREATE], u) {
      LevelFromContent(prims, version, state[CREATE], state[POWER_LEVELS], u);
    }
  }

  lemma TargetMeans(prims: Primitives, version: RoomVersion, state: State, target: string)
    requires Readable(prims, version, state)
    ensures Resolve(prims, version, state[CREATE], Lookup(state, POWER_LEVELS)).value.UserFromStr(prims, target) ==
            TargetLevel(prims, version, state, target)
  {
    LevelsMean(prims, version, state, target);
  }

  lemma NeededMeans(prims: Primitives, version: RoomVersion, state: State, e: Event)
    requires Readable(prims, version, state)
    ensures var power := Resolve(prims, version, state[CREATE], Lookup(state, POWER_LEVELS)).value;
            power.RequiredFor(e.kind, e.stateKey.Some?) == Needed(prims, version, state, e)
  {
  }

  /** Who the creators are: whom the create event names or its sender, and in version 12 additional ones. */
  lemma CreatorsAre(prims: Primitives, version: RoomVersion, create: Event, u: UserId)
    ensures u in Creators(prims, version, create) <==>
            || (if version in {V8, V9, V10} && StrProp(create.content, "creator").Some? &&
                   prims.validUser(StrProp(create.content, "creator").value)
                then u == StrProp(create.content, "creator").value else u == create.sender)
            || (version == V12 && "additional_creators" in create.content &&
                create.content["additional_creators"].Array? && prims.validUser(u) &&
                String(u) in create.content["additional_creators"].items)
  {
  }

  /** The state an event of a kind is checked against. */
  lemma SelectedKeys(version: RoomVersion, e: Event, k: Key)
    requires !e.kind.CreateEvent?
    ensures k in AuthTypes(version, e) <==>
            || (k == CREATE && version != V12) || k == POWER_LEVELS || k == MemberKey(e.sender)
            || (e.kind.MemberEvent? &&
                (|| (e.stateKey.Some? && k == MemberKey(e.stateKey.value))
                 || (k == JOIN_RULES && StandingIn(e.content) in {Some(Join), Some(Invite), Some(Knock)})
                 || (StandingIn(e.content) == Some(Invite) && InviteToken(e.content).Some? &&
                     k == (ThirdPartyInviteEvent, InviteToken(e.content).value))
                 || (StandingIn(e.content) == Some(Join) &&
                     StrProp(e.content, "join_authorised_via_users_server").Some? &&
                     k == MemberKey(StrProp(e.content, "join_authorised_via_users_server").value))))
  {
  }

  // ---------------------------------------------------------------- memberships

  ghost predicate Joined(state: State, u: string) {
    Membership(state, u) == Join
  }

  /** A joined sender who meets a threshold and is above the target. */
  ghost predicate Moderates(prims: Primitives, version: RoomVersion, state: State, e: Event, target: string,
                            threshold: int)
    requires CREATE in state
  {
    && Joined(state, e.sender) && AtLeast(Level(prims, version, state, e.sender), threshold)
    && Above(Level(prims, version, state, e.sender), TargetLevel(prims, version, state, target))
  }

  ghost predicate MayBan(prims: Primitives, version: RoomVersion, state: State, e: Event, target: string)
    requires CREATE in state
  {
    Moderates(prims, version, state, e, target, Threshold(prims, version, state, "ban", 50))
  }

  /** Removing somebody else; lifting their ban takes the ban level as well. */
  ghost predicate MayRemove(prims: Primitives, version: RoomVersion, state: State, e: Event, target: string)
    requires CREATE in state
  {
    && Moderates(prims, version, state, e, target, Threshold(prims, version, state, "kick", 50))
    && (Membership(state, target) == Ban ==>
          AtLeast(Level(prims, version, state, e.sender), Threshold(prims, version, state, "ban", 50)))
  }

  /** A joined user who may invite vouches for the join. */
  ghost predicate VouchedFor(prims: Primitives, version: RoomVersion, state: State, e: Event)
    requires CREATE in state
  {
    var voucher := StrProp(e.content, "join_authorised_via_users_server");
    && voucher.Some? && prims.validUser(voucher.value) && Joined(state, voucher.value)
    && AtLeast(Level(prims, version, state, voucher.value), Threshold(prims, version, state, "invite", 0))
  }

  /** The one join that needs no permission: the creator's, right after the create event. */
  lemma FirstJoinMeans(version: RoomVersion, e: Event, create: Event, target: string)
    ensures FirstJoin(version, e, create, target) <==>
            && e.prevEvents == [create.id]
            && target == if version in {V8, V9, V10} && StrProp(create.content, "creator").Some?
                         then StrProp(create.content, "creator").value else create.sender
  {
  }

  /** Joining by oneself: with an invite or again, in a public room, or vouched for in a restricted one. */
  ghost predicate MayJoin(prims: Primitives, version: RoomVersion, state: State, e: Event)
    requires CREATE in state
  {
    var was := Membership(state, e.sender);
    && was != Ban
    && (|| JoinRule(state) == Public
        || (was in {Invite, Join} && JoinRule(state) != Closed)
        || (JoinRule(state) in {Restricted, KnockRestricted} && VouchedFor(prims, version, state, e)))
  }

  /** An invite in answer to a third-party invite that is in state, signed by one of its keys. */
  ghost predicate ThirdPartyInvite(prims: Primitives, state: State, e: Event, target: string) {
    var block := ObjProp(e.content, "third_party_invite");
    && block.Some?
    && var signed := ObjProp(block.value, "signed");
       && signed.Some? && StrProp(signed.value, "mxid") == Some(target) && StrProp(signed.value, "token").Some?
       && var k := (ThirdPartyInviteEvent, StrProp(signed.value, "token").value);
          && k in state && state[k].sender == e.sender
          && prims.signedByAny(signed.value, CandidateKeys(state[k].content))
  }

  ghost predicate MayInvite(prims: Primitives, version: RoomVersion, state: State, e: Event, target: string)
    requires CREATE in state
  {
    if ObjProp(e.content, "third_party_invite").Some?
    then Membership(state, target) != Ban && ThirdPartyInvite(prims, state, e, target)
    else && Joined(state, e.sender) && Membership(state, target) !in {Join, Ban}
         && AtLeast(Level(prims, version, state, e.sender), Threshold(prims, version, state, "invite", 0))
  }

  /** What each membership takes. */
  ghost predicate MaySet(prims: Primitives, version: RoomVersion, state: State, e: Event, target: string,
                         standing: Standing)
    requires CREATE in state
  {
    match standing
    case Join => FirstJoin(version, e, state[CREATE], target) ||
                 (e.sender == target && MayJoin(prims, version, state, e))
    case Invite => MayInvite(prims, version, state, e, target)
    case Leave => if e.sender == target then Membership(state, target) in {Invite, Join, Knock}
                  else MayRemove(prims, version, state, e, target)
    case Ban => MayBan(prims, version, state, e, target)
    case Knock => e.sender == target && JoinRule(state) in {KnockOnly, KnockRestricted} &&
                  Membership(state, target) !in {Ban, Invite, Join}
    case Unknown => false
  }

  /** Before any of that: one room, one server if it does not federate, and readable levels. */
  ghost predicate Admitted(prims: Primitives, version: RoomVersion, state: State, e: Event) {
    && Readable(prims, version, state)
    && (version == V12 ==> e.roomId.Some? && Localpart(e.roomId.value) == Localpart(state[CREATE].id))
    && (Unfederated(state[CREATE]) ==> prims.serverOf(e.sender) == prims.serverOf(state[CREATE].sender))
  }

  /** Levels that are those in force, as far as an event about a target is concerned. */
  ghost predicate InForce(prims: Primitives, version: RoomVersion, state: State, e: Event, target: string,
                          power: RoomPowerLevels)
    requires CREATE in state
  {
    && power.User(e.sender) == Level(prims, version, state, e.sender)
    && power.UserFromStr(prims, target) == TargetLevel(prims, version, state, target)
    && power.ban == Threshold(prims, version, state, "ban", 50)
    && power.kick == Threshold(prims, version, state, "kick", 50)
    && power.invite == Threshold(prims, version, state, "invite", 0)
    && var voucher := StrProp(e.content, "join_authorised_via_users_server");
       voucher.Some? ==> power.User(voucher.value) == Level(prims, version, state, voucher.value)
  }

  lemma ForceIs(prims: Primitives, version: RoomVersion, state: State, e: Event, target: string)
    requires Readable(prims, version, state)
    ensures InForce(prims, version, state, e, target,
                    Resolve(prims, version, state[CREATE], Lookup(state, POWER_LEVELS)).value)
  {
    var voucher := StrProp(e.content, "join_authorised_via_users_server");
    LevelsMean(prims, version, state, e.sender);
    TargetMeans(prims, version, state, target);
    if voucher.Some? {
      LevelsMean(prims, version, state, voucher.value);
    }
  }

  lemma JoinExact(prims: Primitives, version: RoomVersion, state: State, e: Event, target: string,
                  power: RoomPowerLevels)
    requires CREATE in state && InForce(prims, version, state, e, target, power)
    requires e.stateKey == Some(target) && StandingIn(e.content) == Some(Join)
    ensures MemberAllowed(prims, version, e, state[CREATE], state, power) <==>
            MaySet(prims, version, state, e, target, Join)
  {
  }

  lemma InviteExact(prims: Primitives, version: RoomVersion, state: State, e: Event, target: string,
                    power: RoomPowerLevels)
    requires CREATE in state && InForce(prims, version, state, e, target, power)
    requires e.stateKey == Some(target) && StandingIn(e.content) == Some(Invite)
    ensures MemberAllowed(prims, version, e, state[CREATE], state, power) <==>
            MaySet(prims, version, state, e, target, Invite)
  {
  }

  lemma RemovalExact(prims: Primitives, version: RoomVersion, state: State, e: Event, target: string,
                     standing: Standing, power: RoomPowerLevels)
    requires CREATE in state && InForce(prims, version, state, e, target, power)
    requires e.stateKey == Some(target) && StandingIn(e.content) == Some(standing)
    requires standing != Join && standing != Invite
    ensures MemberAllowed(prims, version, e, state[CREATE], state, power) <==>
            MaySet(prims, version, state, e, target, standing)
  {
  }

  lemma MemberExact(prims: Primitives, version: RoomVersion, state: State, e: Event, target: string,
                    standing: Standing, power: RoomPowerLevels)
    requires CREATE in state && InForce(prims, version, state, e, target, power)
    requires e.stateKey == Some(target) && StandingIn(e.content) == Some(standing)
    ensures MemberAllowed(prims, version, e, state[CREATE], state, power) <==>
            MaySet(prims, version, state, e, target, standing)
  {
    if standing == Join {
      JoinExact(prims, version, state, e, target, power);
    } else if standing == Invite {
      InviteExact(prims, version, state, e, target, power);
    } else {
      RemovalExact(prims, version, state, e, target, standing, power);
    }
  }

  /** Exactly which membership events are allowed. */
  lemma MembershipsExact(prims: Primitives, version: RoomVersion, state: State, e: Event)
    requires e.kind.MemberEvent?
    ensures Allowed(prims, version, e, state) <==>
            && Admitted(prims, version, state, e) && e.stateKey.Some? && StandingIn(e.content).Some?
            && MaySet(prims, version, state, e, e.stateKey.value, StandingIn(e.content).value)
  {
    if Readable(prims, version, state) && e.stateKey.Some? && StandingIn(e.content).Some? {
      var target, power := e.stateKey.value,
        Resolve(prims, version, state[CREATE], Lookup(state, POWER_LEVELS)).value;
      ForceIs(prims, version, state, e, target);
      MemberExact(prims, version, state, e, target, StandingIn(e.content).value, power);
    }
  }

  /** Whatever a membership becomes in a history, somebody entitled to it has made it so. */
  lemma EveryMembershipChange(prims: Primitives, version: RoomVersion, h: seq<Event>, i: nat, u: string)
    requires Linear(prims, version, h) && i < |h|
    requires Membership(StateBefore(h, i + 1), u) != Membership(StateBefore(h, i), u)
    ensures CREATE in StateBefore(h, i) && SetsMembership(h[i], u, Membership(StateBefore(h, i + 1), u))
    ensures MaySet(prims, version, StateBefore(h, i), h[i], u, Membership(StateBefore(h, i + 1), u))
  {
    assert Accepted(prims, version, h, i);
    MembershipChange(prims, version, h[i], StateBefore(h, i), u);
    MembershipsExact(prims, version, StateBefore(h, i), h[i]);
  }

  /** Who is banned was banned by a joined user at the ban level and above them. */
  lemma BannedBy(prims: Primitives, version: RoomVersion, h: seq<Event>, i: nat, u: string)
    requires Linear(prims, version, h) && i < |h|
    requires Membership(StateBefore(h, i), u) != Ban && Membership(StateBefore(h, i + 1), u) == Ban
    ensures CREATE in StateBefore(h, i) && SetsMembership(h[i], u, Ban)
    ensures MayBan(prims, version, StateBefore(h, i), h[i], u)
  {
    EveryMembershipChange(prims, version, h, i, u);
  }

  ghost predicate InvitedAnew(prims: Primitives, e: Event, state: State, u: string) {
    SetsMembership(e, u, Invite) && ThirdPartyInvite(prims, state, e, u)
  }

  /**
   * Who was joined and no longer is has left, was banned, or was kicked by a joined user above them;
   * or a third-party invite made out to them was accepted, which asks nothing of where they stand.
   */
  lemma RemovedBy(prims: Primitives, version: RoomVersion, h: seq<Event>, i: nat, u: string)
    requires Linear(prims, version, h) && i < |h|
    requires Membership(StateBefore(h, i), u) == Join && Membership(StateBefore(h, i + 1), u) != Join
    ensures CREATE in StateBefore(h, i)
    ensures || (SetsMembership(h[i], u, Leave) && h[i].sender == u)
            || (SetsMembership(h[i], u, Leave) && h[i].sender != u &&
                MayRemove(prims, version, StateBefore(h, i), h[i], u))
            || (SetsMembership(h[i], u, Ban) && MayBan(prims, version, StateBefore(h, i), h[i], u))
            || InvitedAnew(prims, h[i], StateBefore(h, i), u)
  {
    EveryMembershipChange(prims, version, h, i, u);
  }

  // ---------------------------------------------------------------- nobody is above the ceiling

  lemma BoundedLevel(prims: Primitives, version: RoomVersion, state: State, v: UserId, m: int)
    requires CREATE in state && LevelsBounded(prims, version, state, m)
    requires !Privileged(prims, version, state[CREATE], v)
    ensures !AtLeast(Level(prims, version, state, v), m + 1)
  {
  }

  /** A user at the ceiling is not banned or kicked by anybody but a creator with infinite power. */
  lemma TopIsSafe(prims: Primitives, version: RoomVersion, h: seq<Event>, i: nat, m: int, u: UserId)
    requires Linear(prims, version, h) && i < |h| && prims.validUser(u)
    requires AtTop(prims, version, StateBefore(h, i), u, m) && Membership(StateBefore(h, i), u) == Join
    requires !Privileged(prims, version, h[0], h[i].sender)
    ensures Membership(StateBefore(h, i + 1), u) == Join || (SetsMembership(h[i], u, Leave) && h[i].sender == u) ||
            InvitedAnew(prims, h[i], StateBefore(h, i), u)
  {
    var state := StateBefore(h, i);
    assert i > 0 by {
      assert StateBefore(h, 0) == map[];
    }
    CreateStays(prims, version, h, i);
    if Membership(StateBefore(h, i + 1), u) != Join {
      RemovedBy(prims, version, h, i, u);
      BoundedLevel(prims, version, state, h[i].sender, m);
      assert !Above(Level(prims, version, state, h[i].sender), Level(prims, version, state, u));
    }
  }

  /**
   * Over any stretch without creators of infinite power: a joined user at the ceiling, who sends no
   * power levels and is not invited anew, stays joined until they leave.
   */
  lemma {:induction false} TopStays(prims: Primitives, version: RoomVersion, h: seq<Event>, i: nat, j: nat, m: int,
                                    u: UserId)
    requires Linear(prims, version, h) && 0 < i <= j <= |h| && prims.validUser(u)
    requires AtTop(prims, version, StateBefore(h, i), u, m) && Membership(StateBefore(h, i), u) == Join
    requires forall k :: i <= k < j ==> !Privileged(prims, version, h[0], h[k].sender)
    requires forall k :: i <= k < j && h[k].sender == u ==> !SetsLevels(h[k]) && !SetsMembership(h[k], u, Leave)
    requires forall k :: i <= k < j ==> !InvitedAnew(prims, h[k], StateBefore(h, k), u)
    ensures AtTop(prims, version, StateBefore(h, j), u, m) && Membership(StateBefore(h, j), u) == Join
    decreases j
  {
    if i < j {
      TopStays(prims, version, h, i, j - 1, m, u);
      LevelsKept(prims, version, h, j - 1, m);
      TopIsSafe(prims, version, h, j - 1, m, u);
    }
  }

  // ---------------------------------------------------------------- all other events

  /** What sending takes: being joined, the level for it, and no state under another user's id. */
  ghost predicate MaySend(prims: Primitives, version: RoomVersion, state: State, e: Event)
    requires CREATE in state
  {
    && Joined(state, e.sender)
    && AtLeast(Level(prims, version, state, e.sender),
               if e.kind.ThirdPartyInviteEvent? then Threshold(prims, version, state, "invite", 0)
               else Needed(prims, version, state, e))
    && (!e.kind.ThirdPartyInviteEvent? && e.stateKey.Some? && e.stateKey.value != "" && e.stateKey.value[0] == '@' ==>
          e.stateKey.value == e.sender)
  }

  lemma SendingExact(prims: Primitives, version: RoomVersion, state: State, e: Event)
    requires !e.kind.MemberEvent? && !e.kind.CreateEvent? && !e.kind.LevelsEvent?
    ensures Allowed(prims, version, e, state) <==>
            Admitted(prims, version, state, e) && MaySend(prims, version, state, e)
  {
    if Readable(prims, version, state) {
      LevelsMean(prims, version, state, e.sender);
      NeededMeans(prims, version, state, e);
    }
  }

  /** Every event of a history but the first. */
  lemma EveryEvent(prims: Primitives, version: RoomVersion, h: seq<Event>, i: nat)
    requires Linear(prims, version, h) && 0 < i < |h|
    ensures CREATE in StateBefore(h, i) && StateBefore(h, i)[CREATE] == h[0]
    ensures Admitted(prims, version, StateBefore(h, i), h[i])
    ensures !h[i].kind.MemberEvent? ==> MaySend(prims, version, StateBefore(h, i), h[i])
  {
    var state, e := StateBefore(h, i), h[i];
    CreateStays(prims, version, h, i);
    assert Accepted(prims, version, h, i);
    LevelsMean(prims, version, state, e.sender);
    NeededMeans(prims, version, state, e);
  }

  /** The first event: no predecessors, a room of its sender's server, a known version and a named creator. */
  lemma WellFounded(prims: Primitives, version: RoomVersion, h: seq<Event>)
    requires Linear(prims, version, h)
    ensures h[0].prevEvents == []
    ensures if version == V12 then h[0].roomId == None
            else h[0].roomId.Some? && prims.roomServer(h[0].roomId.value) == Some(prims.serverOf(h[0].sender))
    ensures "room_version" in h[0].content ==>
            exists v :: v in ["8", "9", "10", "11", "12"] && h[0].content["room_version"] == String(v)
    ensures version in {V8, V9, V10} ==> StrProp(h[0].content, "creator").Some?
  {
    assert Accepted(prims, version, h, 0);
    assert "8" in ["8", "9", "10", "11", "12"] && "9" in ["8", "9", "10", "11", "12"];
    assert "10" in ["8", "9", "10", "11", "12"] && "11" in ["8", "9", "10", "11", "12"];
    assert "12" in ["8", "9", "10", "11", "12"];
  }

  /** In a room that does not federate all events are from the create event's server. */
  lemma StaysLocal(prims: Primitives, version: RoomVersion, h: seq<Event>, i: nat)
    requires Linear(prims, version, h) && i < |h| && Unfederated(h[0])
    ensures prims.serverOf(h[i].sender) == prims.serverOf(h[0].sender)
  {
    if i > 0 {
      EveryEvent(prims, version, h, i);
    }
  }

  // ---------------------------------------------------------------- changing the levels

  /** A value was changed: neither what it was nor what it becomes is above the sender. */
  predicate Reachable(level: PowerLevel, was: Option<int>, now: Option<int>) {
    was != now ==> (was.Some? ==> AtLeast(level, was.value)) && (now.Some? ==> AtLeast(level, now.value))
  }

  function EntryIn(entries: map<string, int>, k: string): Option<int> {
    if k in entries then Some(entries[k]) else None
  }

  const THRESHOLDS: seq<string> :=
    ["users_default", "events_default", "state_default", "ban", "redact", "kick", "invite"]

  ghost predicate EntriesReachable(level: PowerLevel, was: map<string, int>, now: map<string, int>) {
    forall k :: k in was || k in now ==> Reachable(level, EntryIn(was, k), EntryIn(now, k))
  }

  /** Others' levels are changed by those strictly above them, one's own may be lowered. */
  ghost predicate UsersReachable(level: PowerLevel, was: map<string, int>, now: map<string, int>, sender: UserId) {
    forall u :: (u in was || u in now) && EntryIn(was, u) != EntryIn(now, u) ==>
      && (u in was && u != sender ==> Above(level, Int(was[u])))
      && (u in now ==> AtLeast(level, now[u]))
  }

  /** Every threshold and every entry of the levels is changed within reach. */
  ghost predicate ChangedWithinReach(prims: Primitives, version: RoomVersion, level: PowerLevel, sender: UserId,
                                     was: Content, now: Content)
  {
    var lenient := version.LenientPowerLevels();
    && (forall k :: k in THRESHOLDS ==>
          Reachable(level, GetInt(prims, was, k, lenient), GetInt(prims, now, k, lenient)))
    && EntriesReachable(level, EntryMap(prims, was, "events", lenient), EntryMap(prims, now, "events", lenient))
    && EntriesReachable(level, EntryMap(prims, was, "notifications", lenient),
                        EntryMap(prims, now, "notifications", lenient))
    && UsersReachable(level, ExplicitUsers(prims, version, was), ExplicitUsers(prims, version, now), sender)
  }

  lemma ScalarReach(level: PowerLevel, was: Option<int>, now: Option<int>)
    ensures ScalarChange(level, was, now) <==> Reachable(level, was, now)
  {
  }

  lemma EntriesReach(level: PowerLevel, was: map<string, int>, now: map<string, int>)
    ensures EntryChanges(level, was, now, None) <==> EntriesReachable(level, was, now)
  {
    if EntriesReachable(level, was, now) {
      assert forall k :: k in was || k in now ==> Reachable(level, EntryIn(was, k), EntryIn(now, k));
    }
  }

  lemma UsersReach(level: PowerLevel, was: map<string, int>, now: map<string, int>, sender: UserId)
    ensures EntryChanges(level, was, now, Some(sender)) <==> UsersReachable(level, was, now, sender)
  {
  }

  /** Creators of version 12 are not listed among the users. */
  ghost predicate CreatorsUnlisted(version: RoomVersion, creators: set<UserId>, c: Content) {
    version == V12 && "users" in c && c["users"].Object? ==> forall u :: u in creators ==> u !in c["users"].fields
  }

  /** Exactly which power levels are allowed to who may send them. */
  lemma LevelsExact(prims: Primitives, version: RoomVersion, e: Event, state: State, power: RoomPowerLevels)
    ensures PowerLevelsAllowed(prims, version, e, state, power) <==>
            && WellFormedLevels(prims, e.content, version.LenientPowerLevels())
            && CreatorsUnlisted(version, power.creators, e.content)
            && (POWER_LEVELS in state ==>
                  ChangedWithinReach(prims, version, power.User(e.sender), e.sender, state[POWER_LEVELS].content,
                                     e.content))
  {
    if POWER_LEVELS in state {
      var lenient, level, was, now := version.LenientPowerLevels(), power.User(e.sender), state[POWER_LEVELS].content,
        e.content;
      assert SCALARS == THRESHOLDS;
      forall k ensures ScalarChange(level, GetInt(prims, was, k, lenient), GetInt(prims, now, k, lenient)) <==>
                       Reachable(level, GetInt(prims, was, k, lenient), GetInt(prims, now, k, lenient))
      {
        ScalarReach(level, GetInt(prims, was, k, lenient), GetInt(prims, now, k, lenient));
      }
      EntriesReach(level, EntryMap(prims, was, "events", lenient), EntryMap(prims, now, "events", lenient));
      EntriesReach(level, EntryMap(prims, was, "notifications", lenient),
                   EntryMap(prims, now, "notifications", lenient));
      UsersReach(level, ExplicitUsers(prims, version, was), ExplicitUsers(prims, version, now), e.sender);
    }
  }

  /** A change of the levels in force along a history. */
  lemma EveryLevelsChange(prims: Primitives, version: RoomVersion, h: seq<Event>, i: nat)
    requires Linear(prims, version, h) && 0 < i < |h| && SetsLevels(h[i])
    ensures CREATE in StateBefore(h, i) && MaySend(prims, version, StateBefore(h, i), h[i])
    ensures POWER_LEVELS in StateBefore(h, i) ==>
              ChangedWithinReach(prims, version, Level(prims, version, StateBefore(h, i), h[i].sender), h[i].sender,
                                 StateBefore(h, i)[POWER_LEVELS].content, h[i].content)
  {
    var state, e := StateBefore(h, i), h[i];
    EveryEvent(prims, version, h, i);
    assert Accepted(prims, version, h, i);
    LevelsMean(prims, version, state, e.sender);
    if POWER_LEVELS in state {
      LevelsExact(prims, version, e, state, Resolve(prims, version, h[0], Some(state[POWER_LEVELS])).value);
    }
  }

  /** No accepted power levels lock the room up: those in force can always be read. */
  lemma {:induction false} AlwaysReadable(prims: Primitives, version: RoomVersion, h: seq<Event>, i: nat)
    requires Linear(prims, version, h) && 0 < i <= |h|
    ensures Readable(prims, version, StateBefore(h, i))
    decreases i
  {
    CreateStays(prims, version, h, i);
    if i > 1 {
      AlwaysReadable(prims, version, h, i - 1);
      var state, e := StateBefore(h, i - 1), h[i - 1];
      CreateStays(prims, version, h, i - 1);
      assert Accepted(prims, version, h, i - 1);
      if SetsLevels(e) {
        WellFormedReads(prims, version, h[0], e);
      }
    }
  }

  lemma WellFormedReads(prims: Primitives, version: RoomVersion, create: Event, e: Event)
    requires WellFormedLevels(prims, e.content, version.LenientPowerLevels())
    ensures Resolve(prims, version, create, Some(e)).Some?
  {
    var c, lenient := e.content, version.LenientPowerLevels();
    assert forall k :: k in SCALARS && k in c ==> LevelValue(prims, c[k], lenient).Some?;
    assert SCALARS == ["users_default", "events_default", "state_default", "ban", "redact", "kick", "invite"];
    assert "users" in ["events", "notifications", "users"] && "events" in ["events", "notifications", "users"];
  }
}
