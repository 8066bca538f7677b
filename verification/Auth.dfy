/**
 * The state-dependent authorization rules of room versions 8 to 12 (rule numbers are those of
 * room version 12), and the auth-event selection that feeds them.
 */
module Auth {
  import opened Wrappers
  import opened Events
  import opened PowerLevels

  /** A snapshot of room state. */
  type State = map<Key, Event>

  function Lookup(state: State, key: Key): Option<Event> {
    if key in state then Some(state[key]) else None
  }

  /** Where a user stands in a state; nobody said anything means they left. */
  function Membership(state: State, user: string): Standing {
    var e := Lookup(state, MemberKey(user));
    if e.Some? && StandingIn(e.value.content).Some? then StandingIn(e.value.content).value else Leave
  }

  function JoinRule(state: State): Rule {
    var e := Lookup(state, JOIN_RULES);
    if e.Some? && StrProp(e.value.content, "join_rule").Some?
    then ReadRule(StrProp(e.value.content, "join_rule").value) else InviteOnly
  }

  // ---------------------------------------------------------------- selection

  function InviteToken(content: Content): Option<string> {
    var tpi := ObjProp(content, "third_party_invite");
    var signed := if tpi.Some? then ObjProp(tpi.value, "signed") else None;
    if signed.Some? then StrProp(signed.value, "token") else None
  }

  /** The state keys the selection algorithm names for an event. */
  function AuthTypes(version: RoomVersion, e: Event): set<Key> {
    if e.kind.CreateEvent? then {}
    else
      var mem := if StandingIn(e.content).Some? then StandingIn(e.content).value else Unknown;
      var isMember := e.kind.MemberEvent?;
      var authoriser := StrProp(e.content, "join_authorised_via_users_server");
      (if version.CreateEventInAuthEvents() then {CREATE} else {})
      + {POWER_LEVELS, MemberKey(e.sender)}
      + (if isMember && e.stateKey.Some? then {MemberKey(e.stateKey.value)} else {})
      + (if isMember && mem in {Join, Invite, Knock} then {JOIN_RULES} else {})
      + (if isMember && mem == Invite && InviteToken(e.content).Some?
         then {(ThirdPartyInviteEvent, InviteToken(e.content).value)} else {})
      + (if isMember && mem == Join && authoriser.Some? then {MemberKey(authoriser.value)} else {})
  }

  /** An auth event and whether it was itself rejected. */
  datatype AuthEntry = AuthEntry(event: Event, rejected: bool)

  /** Rule 3: an event's own list of auth events is well formed. */
  predicate AuthEventsAllowed(version: RoomVersion, e: Event, entries: seq<AuthEntry>) {
    && (forall i, j :: 0 <= i < j < |entries| ==> entries[i].event.Key() != entries[j].event.Key())
    && (forall i :: 0 <= i < |entries| ==>
          var a := entries[i].event;
          && a.Key() in AuthTypes(version, e) && !entries[i].rejected
          && (a.roomId == e.roomId || (version.RoomIdIsCreateEventId() && a.kind.CreateEvent?)))
    && (version.CreateEventInAuthEvents() && !e.kind.CreateEvent? ==>
          exists i :: 0 <= i < |entries| && entries[i].event.kind.CreateEvent?)
  }

  // ---------------------------------------------------------------- the rules

  /** Rules 1 to 11 against a snapshot. */
  predicate Allowed(prims: Primitives, version: RoomVersion, e: Event, state: State) {
    if e.kind.CreateEvent? then CreateAllowed(prims, version, e)
    else if CREATE !in state then false
    else
      var create := state[CREATE];
      var levels := Resolve(prims, version, create, Lookup(state, POWER_LEVELS));
      if version.RoomIdIsCreateEventId() &&
         (e.roomId.None? || Localpart(e.roomId.value) != Localpart(create.id)) then false
      else if Unfederated(create) && prims.serverOf(e.sender) != prims.serverOf(create.sender) then false
      else if levels.None? then false
      else if e.kind.MemberEvent? then MemberAllowed(prims, version, e, create, state, levels.value)
      else OtherAllowed(prims, version, e, state, levels.value)
  }

  predicate Unfederated(create: Event) {
    "m.federate" in create.content && create.content["m.federate"] == Bool(false)
  }

  /** Rules 6 to 11. */
  predicate OtherAllowed(prims: Primitives, version: RoomVersion, e: Event, state: State,
                         power: RoomPowerLevels)
  {
    var level := power.User(e.sender);
    if Membership(state, e.sender) != Join then false
    else if e.kind.ThirdPartyInviteEvent? then level.Satisfies(power.invite)
    else if !level.Satisfies(power.RequiredFor(e.kind, e.stateKey.Some?)) then false
    else if e.stateKey.Some? && UserKeyed(e.stateKey.value) && e.stateKey.value != e.sender then false
    else if e.kind.LevelsEvent? then PowerLevelsAllowed(prims, version, e, state, power)
    else true
  }

  predicate UserKeyed(key: string) {
    key != "" && key[0] == '@'
  }

  /** Rule 1. */
  predicate CreateAllowed(prims: Primitives, version: RoomVersion, e: Event) {
    && e.prevEvents == []
    && (if version.RoomIdIsCreateEventId() then e.roomId.None?
        else e.roomId.Some? && prims.roomServer(e.roomId.value) == Some(prims.serverOf(e.sender)))
    && ("room_version" in e.content ==>
          e.content["room_version"] in
            {String("8"), String("9"), String("10"), String("11"), String("12")})
    && (version.CreatorInCreateContent() ==> StrProp(e.content, "creator").Some?)
    && (version.PrivilegedCreators() && "additional_creators" in e.content ==>
          && e.content["additional_creators"].Array?
          && forall v :: v in e.content["additional_creators"].items ==>
               v.String? && prims.validUser(v.text))
  }

  /** The user whose first join needs no permission. */
  function FirstJoiner(version: RoomVersion, create: Event): string {
    if version.CreatorInCreateContent() && StrProp(create.content, "creator").Some?
    then StrProp(create.content, "creator").value else create.sender
  }

  /** Rule 5.3.1: the creator joins right after the create event. */
  predicate FirstJoin(version: RoomVersion, e: Event, create: Event, target: string) {
    e.prevEvents == [create.id] && target == FirstJoiner(version, create)
  }

  /** Rule 5. */
  predicate MemberAllowed(prims: Primitives, version: RoomVersion, e: Event, create: Event,
                          state: State, power: RoomPowerLevels)
  {
    if e.stateKey.None? || StandingIn(e.content).None? then false
    else
      var target, mem := e.stateKey.value, StandingIn(e.content).value;
      var level := power.User(e.sender);
      var senderMem, targetMem := Membership(state, e.sender), Membership(state, target);
      match mem
      case Join =>
        FirstJoin(version, e, create, target) || JoinAllowed(prims, e, target, state, power)
      case Invite =>
        if ObjProp(e.content, "third_party_invite").Some?
        then ThirdPartyInviteAllowed(prims, e, ObjProp(e.content, "third_party_invite").value,
                                     target, targetMem, state)
        else senderMem == Join && targetMem !in {Join, Ban} && level.Satisfies(power.invite)
      case Leave =>
        if e.sender == target then senderMem in {Invite, Join, Knock}
        else && senderMem == Join
             && (targetMem == Ban ==> level.Satisfies(power.ban))
             && level.Satisfies(power.kick) && power.UserFromStr(prims, target).Below(level)
      case Ban =>
        senderMem == Join && level.Satisfies(power.ban) && power.UserFromStr(prims, target).Below(level)
      case Knock =>
        JoinRule(state) in {KnockOnly, KnockRestricted} && e.sender == target &&
        senderMem !in {Ban, Invite, Join}
      case Unknown => false
  }

  /** Rules 5.3.2 to 5.3.7. */
  predicate JoinAllowed(prims: Primitives, e: Event, target: string, state: State, power: RoomPowerLevels) {
    var mem := Membership(state, e.sender);
    var authoriser := StrProp(e.content, "join_authorised_via_users_server");
    if e.sender != target || mem == Ban then false
    else match JoinRule(state)
      case InviteOnly => mem in {Invite, Join}
      case KnockOnly => mem in {Invite, Join}
      case Restricted => mem in {Invite, Join} || RestrictedJoin(prims, authoriser, state, power)
      case KnockRestricted => mem in {Invite, Join} || RestrictedJoin(prims, authoriser, state, power)
      case Public => true
      case Closed => false
  }

  predicate RestrictedJoin(prims: Primitives, authoriser: Option<string>, state: State,
                           power: RoomPowerLevels)
  {
    && authoriser.Some? && prims.validUser(authoriser.value)
    && Membership(state, authoriser.value) == Join
    && power.User(authoriser.value).Satisfies(power.invite)
  }

  /** The public keys of a third-party invite event, in order. */
  function CandidateKeys(content: Content): seq<string> {
    (if StrProp(content, "public_key").Some? then [StrProp(content, "public_key").value] else [])
    + (if "public_keys" in content && content["public_keys"].Array?
       then ListedKeys(content["public_keys"].items) else [])
  }

  function ListedKeys(items: seq<Json>): seq<string> {
    if items == [] then []
    else
      var rest := ListedKeys(items[1..]);
      if items[0].Object? && StrProp(items[0].fields, "public_key").Some?
      then [StrProp(items[0].fields, "public_key").value] + rest else rest
  }

  /** Rule 5.4.1. */
  predicate ThirdPartyInviteAllowed(prims: Primitives, e: Event, tpi: Content, target: string,
                                    targetMem: Standing, state: State)
  {
    var signed := ObjProp(tpi, "signed");
    && targetMem != Ban
    && signed.Some?
    && StrProp(signed.value, "mxid") == Some(target)
    && StrProp(signed.value, "token").Some?
    && var token := (ThirdPartyInviteEvent, StrProp(signed.value, "token").value);
    && token in state
    && e.sender == state[token].sender
    && prims.signedByAny(signed.value, CandidateKeys(state[token].content))
  }

  const SCALARS: seq<string> :=
    ["users_default", "events_default", "state_default", "ban", "redact", "kick", "invite"]

  /** Rules 10.1 to 10.3: the shape of the content. */
  predicate WellFormedLevels(prims: Primitives, c: Content, lenient: bool) {
    && (forall k :: k in SCALARS && k in c ==> LevelValue(prims, c[k], lenient).Some?)
    && (forall k :: k in ["events", "notifications", "users"] && k in c ==>
          c[k].Object? && AllLevels(prims, c[k].fields, lenient))
    && ("users" in c ==> forall k :: k in c["users"].fields ==> prims.validUser(k))
  }

  function GetInt(prims: Primitives, c: Content, key: string, lenient: bool): Option<int> {
    if key in c then LevelValue(prims, c[key], lenient) else None
  }

  function EntryMap(prims: Primitives, c: Content, key: string, lenient: bool): map<string, int> {
    if key in c && c[key].Object? then Levels(prims, c[key].fields, lenient) else map[]
  }

  /** Rule 10. */
  predicate PowerLevelsAllowed(prims: Primitives, version: RoomVersion, e: Event, state: State,
                               power: RoomPowerLevels)
  {
    var c, lenient, level := e.content, version.LenientPowerLevels(), power.User(e.sender);
    && WellFormedLevels(prims, c, lenient)
    && (version.PrivilegedCreators() && "users" in c ==>
          forall u :: u in power.creators ==> u !in c["users"].fields)
    && (POWER_LEVELS in state ==>
          var was := state[POWER_LEVELS].content;
          && (forall k :: k in SCALARS ==>
                ScalarChange(level, GetInt(prims, was, k, lenient), GetInt(prims, c, k, lenient)))
          && EntryChanges(level, EntryMap(prims, was, "events", lenient), EntryMap(prims, c, "events", lenient), None)
          && EntryChanges(level, EntryMap(prims, was, "notifications", lenient),
                          EntryMap(prims, c, "notifications", lenient), None)
          && EntryChanges(level, EntryMap(prims, was, "users", lenient), EntryMap(prims, c, "users", lenient),
                          Some(e.sender)))
  }

  /** Rule 10.6: neither the old nor the new value of a changed scalar is above the sender. */
  predicate ScalarChange(level: PowerLevel, was: Option<int>, now: Option<int>) {
    was != now ==>
      && (was.Some? ==> level.Satisfies(was.value))
      && (now.Some? ==> level.Satisfies(now.value))
  }

  /**
   * Rules 10.7 to 10.10: entries changed or removed were within the sender's reach, strictly so
   * for other users' levels, and entries added or changed stay within it.
   */
  predicate EntryChanges(level: PowerLevel, was: map<string, int>, now: map<string, int>,
                         self: Option<UserId>)
  {
    && (forall k :: k in was && !(k in now && now[k] == was[k]) ==>
          if self.Some? then k == self.value || Int(was[k]).Below(level) else level.Satisfies(was[k]))
    && (forall k :: k in now && !(k in was && was[k] == now[k]) ==> level.Satisfies(now[k]))
  }

  // ---------------------------------------------------------------- selection is sufficient

  ghost predicate Agree(s: State, t: State, keys: set<Key>) {
    forall k :: k in keys ==> Lookup(s, k) == Lookup(t, k)
  }

  function Restrict(s: State, keys: set<Key>): State {
    map k | k in s && k in keys :: s[k]
  }

  lemma MemberNeedsOnlySelected(prims: Primitives, version: RoomVersion, e: Event, create: Event,
                                s: State, t: State, power: RoomPowerLevels)
    requires e.kind.MemberEvent? && Agree(s, t, AuthTypes(version, e))
    ensures MemberAllowed(prims, version, e, create, s, power) ==
            MemberAllowed(prims, version, e, create, t, power)
  {
  }

  lemma OtherNeedsOnlySelected(prims: Primitives, version: RoomVersion, e: Event, s: State, t: State,
                               power: RoomPowerLevels)
    requires !e.kind.CreateEvent? && Agree(s, t, AuthTypes(version, e))
    ensures OtherAllowed(prims, version, e, s, power) == OtherAllowed(prims, version, e, t, power)
  {
  }

  /** Two states that agree on the selected keys and the create event authorize alike. */
  lemma SelectionDecides(prims: Primitives, version: RoomVersion, e: Event, s: State, t: State)
    requires Agree(s, t, AuthTypes(version, e) + {CREATE})
    ensures Allowed(prims, version, e, s) == Allowed(prims, version, e, t)
  {
    if !e.kind.CreateEvent? {
      var keys := AuthTypes(version, e);
      assert CREATE in keys + {CREATE} && POWER_LEVELS in keys + {CREATE};
      assert Lookup(s, CREATE) == Lookup(t, CREATE);
      assert Lookup(s, POWER_LEVELS) == Lookup(t, POWER_LEVELS);
      assert Agree(s, t, keys);
      if CREATE in s {
        var levels := Resolve(prims, version, s[CREATE], Lookup(s, POWER_LEVELS));
        if levels.Some? {
          if e.kind.MemberEvent? {
            MemberNeedsOnlySelected(prims, version, e, s[CREATE], s, t, levels.value);
          } else {
            OtherNeedsOnlySelected(prims, version, e, s, t, levels.value);
          }
        }
      }
    }
  }

  /** Checking against the selected part of a state is checking against the state. */
  lemma SelectionSuffices(prims: Primitives, version: RoomVersion, e: Event, s: State)
    ensures Allowed(prims, version, e, Restrict(s, AuthTypes(version, e) + {CREATE})) ==
            Allowed(prims, version, e, s)
  {
    SelectionDecides(prims, version, e, s, Restrict(s, AuthTypes(version, e) + {CREATE}));
  }
}
