/**
 * What the authorization rules guarantee over whole histories: each event names its
 * predecessor as its only prev event and is checked against the state its predecessors left.
 */
module RoomHistory {
  import opened Wrappers
  import opened Events
  import opened PowerLevels
  import opened Auth

  function Apply(state: State, e: Event): State {
    if e.stateKey.Some? then state[(e.kind, e.stateKey.value) := e] else state
  }

  function StateBefore(h: seq<Event>, i: nat): State
    requires i <= |h|
  {
    if i == 0 then map[] else Apply(StateBefore(h, i - 1), h[i - 1])
  }

  /** A linear history in which every event was accepted. */
  ghost predicate Linear(prims: Primitives, version: RoomVersion, h: seq<Event>) {
    && h != [] && h[0].kind.CreateEvent? && h[0].stateKey == Some("")
    && (forall i :: 0 < i < |h| ==> h[i].prevEvents == [h[i - 1].id])
    && (forall i, j :: 0 <= i < j < |h| ==> h[i].id != h[j].id)
    && (forall i: nat :: i < |h| ==> Accepted(prims, version, h, i))
  }

  ghost predicate Accepted(prims: Primitives, version: RoomVersion, h: seq<Event>, i: nat)
    requires i < |h|
  {
    Allowed(prims, version, h[i], StateBefore(h, i))
  }

  /** After the first event the create event stays the one in state, and no second one appears. */
  lemma {:induction false} CreateStays(prims: Primitives, version: RoomVersion, h: seq<Event>, i: nat)
    requires Linear(prims, version, h) && 0 < i <= |h|
    ensures Lookup(StateBefore(h, i), CREATE) == Some(h[0])
    ensures i < |h| ==> !h[i].kind.CreateEvent?
    decreases i
  {
    if i < |h| {
      assert Accepted(prims, version, h, i);
      assert h[i].prevEvents == [h[i - 1].id];
    }
    if i > 1 {
      CreateStays(prims, version, h, i - 1);
    }
  }

  // ---------------------------------------------------------------- the power ceiling

  function UsersDefault(prims: Primitives, version: RoomVersion, c: Content): int {
    var d := GetInt(prims, c, "users_default", version.LenientPowerLevels());
    if d.Some? then d.value else 0
  }

  function ExplicitUsers(prims: Primitives, version: RoomVersion, c: Content): map<UserId, int> {
    EntryMap(prims, c, "users", version.LenientPowerLevels())
  }

  /** m is at least 0, the default level and every explicit level. */
  ghost predicate Bounded(prims: Primitives, version: RoomVersion, c: Content, m: int) {
    && 0 <= m && UsersDefault(prims, version, c) <= m
    && forall u :: u in ExplicitUsers(prims, version, c) ==> ExplicitUsers(prims, version, c)[u] <= m
  }

  predicate HasLevel(prims: Primitives, version: RoomVersion, c: Content, u: UserId, m: int) {
    u in ExplicitUsers(prims, version, c) && ExplicitUsers(prims, version, c)[u] == m
  }

  /** The highest of 0, the default level and the explicit levels. */
  ghost predicate Ceiling(prims: Primitives, version: RoomVersion, c: Content, m: int) {
    Bounded(prims, version, c, m) && forall n :: Bounded(prims, version, c, n) ==> m <= n
  }

  predicate SetsLevels(e: Event) {
    e.Key() == POWER_LEVELS && e.stateKey.Some?
  }

  predicate Privileged(prims: Primitives, version: RoomVersion, create: Event, user: UserId) {
    version.PrivilegedCreators() && user in Creators(prims, version, create)
  }

  /** The level a power-levels event gives a user, read off its content. */
  lemma LevelFromContent(prims: Primitives, version: RoomVersion, create: Event, pl: Event, user: UserId)
    requires Resolve(prims, version, create, Some(pl)).Some? && !Privileged(prims, version, create, user)
    ensures Resolve(prims, version, create, Some(pl)).value.User(user) ==
            Int(if user in ExplicitUsers(prims, version, pl.content)
                then ExplicitUsers(prims, version, pl.content)[user]
                else UsersDefault(prims, version, pl.content))
  {
  }

  /** The change a power-levels event makes to the users' levels is within a level. */
  ghost predicate WithinReach(prims: Primitives, version: RoomVersion, level: int, was: Content, now: Content,
                              sender: UserId)
  {
    var lenient := version.LenientPowerLevels();
    && ScalarChange(Int(level), GetInt(prims, was, "users_default", lenient),
                    GetInt(prims, now, "users_default", lenient))
    && EntryChanges(Int(level), ExplicitUsers(prims, version, was), ExplicitUsers(prims, version, now), Some(sender))
  }

  /** Rule 10, as far as it concerns the users' levels. */
  lemma LevelsRule(prims: Primitives, version: RoomVersion, e: Event, state: State, power: RoomPowerLevels)
    requires POWER_LEVELS in state && PowerLevelsAllowed(prims, version, e, state, power) && power.User(e.sender).Int?
    ensures WithinReach(prims, version, power.User(e.sender).level, state[POWER_LEVELS].content, e.content, e.sender)
  {
  }

  /** Within reach of a bounded sender the bound stays, and so do others at it. */
  lemma ReachKeepsBound(prims: Primitives, version: RoomVersion, level: int, was: Content, now: Content,
                        sender: UserId, m: int)
    requires WithinReach(prims, version, level, was, now, sender) && level <= m && Bounded(prims, version, was, m)
    ensures Bounded(prims, version, now, m)
    ensures forall u :: u != sender && HasLevel(prims, version, was, u, m) ==> HasLevel(prims, version, now, u, m)
  {
  }

  /** No power-levels event between i and j was sent by a creator with infinite power. */
  ghost predicate OrdinarySenders(prims: Primitives, version: RoomVersion, h: seq<Event>, i: nat, j: nat)
    requires i <= j <= |h| && h != []
  {
    forall k :: i <= k < j && SetsLevels(h[k]) ==> !Privileged(prims, version, h[0], h[k].sender)
  }

  ghost predicate LevelsBounded(prims: Primitives, version: RoomVersion, state: State, m: int) {
    POWER_LEVELS in state && Bounded(prims, version, state[POWER_LEVELS].content, m)
  }

  ghost predicate AtTop(prims: Primitives, version: RoomVersion, state: State, u: UserId, m: int) {
    LevelsBounded(prims, version, state, m) && HasLevel(prims, version, state[POWER_LEVELS].content, u, m)
  }

  /** One event of a history keeps a bound, and keeps its top users other than its sender. */
  lemma LevelsKept(prims: Primitives, version: RoomVersion, h: seq<Event>, k: nat, m: int)
    requires Linear(prims, version, h) && 0 < k < |h|
    requires SetsLevels(h[k]) ==> !Privileged(prims, version, h[0], h[k].sender)
    requires LevelsBounded(prims, version, StateBefore(h, k), m)
    ensures LevelsBounded(prims, version, StateBefore(h, k + 1), m)
    ensures forall u :: AtTop(prims, version, StateBefore(h, k), u, m) && !(SetsLevels(h[k]) && h[k].sender == u)
                        ==> AtTop(prims, version, StateBefore(h, k + 1), u, m)
  {
    CreateStays(prims, version, h, k);
    if SetsLevels(h[k]) {
      assert Accepted(prims, version, h, k);
      var state, e := StateBefore(h, k), h[k];
      var power := Resolve(prims, version, h[0], Some(state[POWER_LEVELS])).value;
      LevelFromContent(prims, version, h[0], state[POWER_LEVELS], e.sender);
      LevelsRule(prims, version, e, state, power);
      ReachKeepsBound(prims, version, power.User(e.sender).level, state[POWER_LEVELS].content, e.content, e.sender, m);
    }
  }

  lemma {:induction false} BoundSurvives(prims: Primitives, version: RoomVersion, h: seq<Event>, i: nat, j: nat, m: int)
    requires Linear(prims, version, h) && 0 < i <= j <= |h| && OrdinarySenders(prims, version, h, i, j)
    requires LevelsBounded(prims, version, StateBefore(h, i), m)
    ensures LevelsBounded(prims, version, StateBefore(h, j), m)
    decreases j
  {
    if i < j {
      BoundSurvives(prims, version, h, i, j - 1, m);
      LevelsKept(prims, version, h, j - 1, m);
    }
  }

  /**
   * Along any stretch of an accepted history without privileged senders, in particular any
   * stretch at all before room version 12, the ceiling never rises.
   */
  lemma CeilingNeverRises(prims: Primitives, version: RoomVersion, h: seq<Event>, i: nat, j: nat,
                          m: int, n: int)
    requires Linear(prims, version, h) && 0 < i <= j <= |h|
    requires version.PrivilegedCreators() ==> OrdinarySenders(prims, version, h, i, j)
    requires POWER_LEVELS in StateBefore(h, i)
    requires Ceiling(prims, version, StateBefore(h, i)[POWER_LEVELS].content, m)
    ensures POWER_LEVELS in StateBefore(h, j)
    ensures Ceiling(prims, version, StateBefore(h, j)[POWER_LEVELS].content, n) ==> n <= m
  {
    BoundSurvives(prims, version, h, i, j, m);
  }

  lemma {:induction false} TopSurvives(prims: Primitives, version: RoomVersion, h: seq<Event>,
                    i: nat, j: nat, m: int, u: UserId)
    requires Linear(prims, version, h) && 0 < i <= j <= |h| && OrdinarySenders(prims, version, h, i, j)
    requires AtTop(prims, version, StateBefore(h, i), u, m)
    requires forall k :: i <= k < j && SetsLevels(h[k]) ==> h[k].sender != u
    ensures AtTop(prims, version, StateBefore(h, j), u, m)
    decreases j
  {
    if i < j {
      TopSurvives(prims, version, h, i, j - 1, m, u);
      LevelsKept(prims, version, h, j - 1, m);
    }
  }

  /** Somebody at the ceiling keeps that level until they themselves send power levels. */
  lemma TopKeepsLevel(prims: Primitives, version: RoomVersion, h: seq<Event>,
                      i: nat, j: nat, m: int, u: UserId)
    requires Linear(prims, version, h) && 0 < i <= j <= |h|
    requires version.PrivilegedCreators() ==> OrdinarySenders(prims, version, h, i, j)
    requires POWER_LEVELS in StateBefore(h, i)
    requires Ceiling(prims, version, StateBefore(h, i)[POWER_LEVELS].content, m)
    requires HasLevel(prims, version, StateBefore(h, i)[POWER_LEVELS].content, u, m)
    requires forall k :: i <= k < j && SetsLevels(h[k]) ==> h[k].sender != u
    ensures POWER_LEVELS in StateBefore(h, j)
    ensures HasLevel(prims, version, StateBefore(h, j)[POWER_LEVELS].content, u, m)
    ensures Ceiling(prims, version, StateBefore(h, j)[POWER_LEVELS].content, m)
  {
    TopSurvives(prims, version, h, i, j, m, u);
  }

  // ---------------------------------------------------------------- bans

  /** e sets u's membership to mem. */
  predicate SetsMembership(e: Event, u: string, mem: Standing) {
    && e.kind.MemberEvent? && e.stateKey == Some(u)
    && StandingIn(e.content) == Some(mem)
  }

  /** What lifting a ban takes. */
  ghost predicate Unban(prims: Primitives, version: RoomVersion, e: Event, state: State, u: string) {
    && SetsMembership(e, u, Leave) && e.sender != u
    && Membership(state, e.sender) == Join
    && CREATE in state
    && var power := Resolve(prims, version, state[CREATE], Lookup(state, POWER_LEVELS));
    && power.Some?
    && power.value.User(e.sender).Satisfies(power.value.ban)
    && power.value.User(e.sender).Satisfies(power.value.kick)
    && power.value.UserFromStr(prims, u).Below(power.value.User(e.sender))
  }

  /** An accepted event changes a membership only by setting it. */
  lemma MembershipChange(prims: Primitives, version: RoomVersion, e: Event, state: State, u: string)
    requires Allowed(prims, version, e, state)
    ensures Membership(Apply(state, e), u) != Membership(state, u) ==>
            SetsMembership(e, u, Membership(Apply(state, e), u)) && CREATE in state
  {
  }

  /** The creator's first join can only be the second event of a linear history. */
  lemma FirstJoinIsSecond(prims: Primitives, version: RoomVersion, h: seq<Event>, i: nat, target: string)
    requires Linear(prims, version, h) && 0 < i < |h| && FirstJoin(version, h[i], h[0], target)
    ensures i == 1
  {
    assert h[i].prevEvents == [h[i - 1].id];
  }

  /** One step: a banned user stays banned unless the event is an unban. */
  lemma BanStep(prims: Primitives, version: RoomVersion, h: seq<Event>, i: nat, u: string)
    requires Linear(prims, version, h) && i < |h|
    requires Membership(StateBefore(h, i), u) == Ban
    ensures Membership(StateBefore(h, i + 1), u) == Ban ||
            Unban(prims, version, h[i], StateBefore(h, i), u)
  {
    var state, e := StateBefore(h, i), h[i];
    assert Accepted(prims, version, h, i);
    assert i > 1 by {
      assert StateBefore(h, 0) == map[];
    }
    MembershipChange(prims, version, e, state, u);
    if Membership(Apply(state, e), u) != Ban {
      CreateStays(prims, version, h, i);
      if FirstJoin(version, e, h[0], u) {
        FirstJoinIsSecond(prims, version, h, i, u);
      }
    }
  }

  /** Over any stretch: whoever was banned and no longer is was unbanned in between. */
  lemma {:induction false} BanHolds(prims: Primitives, version: RoomVersion, h: seq<Event>,
                                    i: nat, j: nat, u: string)
    requires Linear(prims, version, h) && i <= j <= |h|
    requires Membership(StateBefore(h, i), u) == Ban
    ensures Membership(StateBefore(h, j), u) == Ban ||
            exists k :: i <= k < j && Unban(prims, version, h[k], StateBefore(h, k), u)
    decreases j
  {
    if i < j {
      BanHolds(prims, version, h, i, j - 1, u);
      if Membership(StateBefore(h, j - 1), u) == Ban {
        BanStep(prims, version, h, j - 1, u);
      }
    }
  }

  // ---------------------------------------------------------------- invitations

  ghost predicate Invited(h: seq<Event>, i: nat, u: string)
    requires i <= |h|
  {
    exists k :: 0 <= k < i && SetsMembership(h[k], u, Invite)
  }

  /** The user entered through the creator's first join. */
  ghost predicate FoundingMember(version: RoomVersion, h: seq<Event>, i: nat, u: string)
    requires i <= |h|
  {
    1 < i && SetsMembership(h[1], u, Join) && FirstJoin(version, h[1], h[0], u)
  }

  lemma JoinStep(prims: Primitives, version: RoomVersion, e: Event, state: State, u: string)
    requires Allowed(prims, version, e, state) && SetsMembership(e, u, Join)
    requires CREATE in state && JoinRule(state) in {InviteOnly, KnockOnly}
    ensures FirstJoin(version, e, state[CREATE], u) || Membership(state, u) in {Invite, Join}
  {
  }

  /** Whoever is invited was sent an invite that was accepted. */
  lemma {:induction false} InviteeWasInvited(prims: Primitives, version: RoomVersion, h: seq<Event>, i: nat, u: string)
    requires Linear(prims, version, h) && i <= |h| && Membership(StateBefore(h, i), u) == Invite
    ensures Invited(h, i, u)
    decreases i
  {
    if i > 0 {
      assert Accepted(prims, version, h, i - 1);
      MembershipChange(prims, version, h[i - 1], StateBefore(h, i - 1), u);
      if Membership(StateBefore(h, i - 1), u) == Invite {
        InviteeWasInvited(prims, version, h, i - 1, u);
      }
    }
  }

  predicate ClosedAt(h: seq<Event>, k: nat)
    requires k <= |h|
  {
    JoinRule(StateBefore(h, k)) in {InviteOnly, KnockOnly}
  }

  /**
   * Every single join into a room that is closed at that moment, whatever it was before: the user
   * holds an invite, or it is the founding join.
   */
  lemma ClosedJoin(prims: Primitives, version: RoomVersion, h: seq<Event>, k: nat, u: string)
    requires Linear(prims, version, h) && k < |h| && ClosedAt(h, k)
    requires Membership(StateBefore(h, k), u) != Join && Membership(StateBefore(h, k + 1), u) == Join
    ensures FoundingMember(version, h, k + 1, u) ||
            (Membership(StateBefore(h, k), u) == Invite && Invited(h, k, u))
  {
    var state, e := StateBefore(h, k), h[k];
    assert Accepted(prims, version, h, k);
    MembershipChange(prims, version, e, state, u);
    CreateStays(prims, version, h, k);
    JoinStep(prims, version, e, state, u);
    if FirstJoin(version, e, h[0], u) {
      FirstJoinIsSecond(prims, version, h, k, u);
    } else {
      InviteeWasInvited(prims, version, h, k, u);
    }
  }

  /**
   * Over any stretch in which the room is closed: whoever is joined at its end was joined at its
   * beginning, or was invited, or is the founder.
   */
  lemma {:induction false} ClosedRoom(prims: Primitives, version: RoomVersion, h: seq<Event>,
                                      i: nat, j: nat, u: string)
    requires Linear(prims, version, h) && i <= j <= |h| && forall k :: i <= k < j ==> ClosedAt(h, k)
    ensures Membership(StateBefore(h, j), u) == Join ==>
            || Membership(StateBefore(h, i), u) == Join
            || (exists k :: i <= k < j && Membership(StateBefore(h, k), u) == Invite && Invited(h, k, u))
            || FoundingMember(version, h, j, u)
    decreases j
  {
    if i < j && Membership(StateBefore(h, j), u) == Join {
      if Membership(StateBefore(h, j - 1), u) == Join {
        ClosedRoom(prims, version, h, i, j - 1, u);
      } else {
        ClosedJoin(prims, version, h, j - 1, u);
      }
    }
  }
}
