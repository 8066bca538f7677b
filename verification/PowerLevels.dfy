/** Who has how much power in a room, read off its create and power-levels events. */
module PowerLevels {
  import opened Wrappers
  import opened Events

  /**
   * What the rules take from elsewhere: identifier syntax, integer parsing, signatures. Every
   * result holds for every choice of these functions.
   */
  datatype Primitives = Primitives(
    validUser: string -> bool,
    validEventId: string -> bool,
    serverOf: UserId -> string,
    roomServer: string -> Option<string>,
    parseLevel: string -> Option<int>,
    signedByAny: (Content, seq<string>) -> bool)

  /** How much power a user has. Infinite is above every integer. */
  datatype PowerLevel = Int(level: int) | Infinite
  {
    predicate Below(other: PowerLevel) {
      match (this, other)
      case (Infinite, _) => false
      case (Int(_), Infinite) => true
      case (Int(a), Int(b)) => a < b
    }

    predicate Satisfies(required: int) {
      !Below(Int(required))
    }
  }

  function Creators(prims: Primitives, version: RoomVersion, create: Event): set<UserId> {
    var c := create.content;
    var named := if version.CreatorInCreateContent() && StrProp(c, "creator").Some? &&
                    prims.validUser(StrProp(c, "creator").value)
                 then StrProp(c, "creator").value else create.sender;
    var extra := if version.PrivilegedCreators() && "additional_creators" in c &&
                    c["additional_creators"].Array?
                 then set v | v in c["additional_creators"].items && v.String? && prims.validUser(v.text) :: v.text
                 else {};
    {named} + extra
  }

  /** Room versions 8 and 9 also read levels from strings. */
  function LevelValue(prims: Primitives, v: Json, lenient: bool): Option<int> {
    match v
    case Integer(i) => Some(i)
    case String(s) => if lenient then prims.parseLevel(s) else None
    case _ => None
  }

  /** The well-formed entries of an object of levels. */
  function Levels(prims: Primitives, obj: Content, lenient: bool): map<string, int> {
    map k | k in obj && LevelValue(prims, obj[k], lenient).Some? :: LevelValue(prims, obj[k], lenient).value
  }

  predicate AllLevels(prims: Primitives, obj: Content, lenient: bool) {
    forall k :: k in obj ==> LevelValue(prims, obj[k], lenient).Some?
  }

  /** A scalar level; None when it is present but malformed. */
  function IntProp(prims: Primitives, c: Content, key: string, default: int, lenient: bool): Option<int> {
    if key in c then LevelValue(prims, c[key], lenient) else Some(default)
  }

  /** An object of levels; None when it is present but malformed. */
  function IntMap(prims: Primitives, c: Content, key: string, lenient: bool): Option<map<string, int>> {
    if key !in c then Some(map[])
    else if c[key].Object? && AllLevels(prims, c[key].fields, lenient)
    then Some(Levels(prims, c[key].fields, lenient))
    else None
  }

  datatype RoomPowerLevels = RoomPowerLevels(
    version: RoomVersion,
    creators: set<UserId>,
    hasPlEvent: bool,
    users: map<UserId, int>,
    usersDefault: int,
    events: map<string, int>,
    eventsDefault: int,
    stateDefault: int,
    ban: int,
    kick: int,
    redact: int,
    invite: int)
  {
    function User(user: UserId): PowerLevel {
      if version.PrivilegedCreators() && user in creators then Infinite
      else if user in users then Int(users[user])
      else if !hasPlEvent && !version.PrivilegedCreators() && user in creators then Int(100)
      else Int(usersDefault)
    }

    /** The level of a possibly malformed user id. */
    function UserFromStr(prims: Primitives, user: string): PowerLevel {
      if prims.validUser(user) then User(user) else Int(usersDefault)
    }

    function RequiredFor(kind: Kind, isState: bool): int {
      var name := kind.TypeName();
      if name in events then events[name] else if isState then stateDefault else eventsDefault
    }
  }

  /** None when the power-levels event is malformed. */
  function Resolve(prims: Primitives, version: RoomVersion, create: Event, pl: Option<Event>)
    : Option<RoomPowerLevels>
  {
    var c := if pl.Some? then pl.value.content else map[];
    var lenient := version.LenientPowerLevels();
    var users := IntMap(prims, c, "users", lenient);
    var usersDefault := IntProp(prims, c, "users_default", 0, lenient);
    var events := IntMap(prims, c, "events", lenient);
    var eventsDefault := IntProp(prims, c, "events_default", 0, lenient);
    var stateDefault := IntProp(prims, c, "state_default", 50, lenient);
    var ban := IntProp(prims, c, "ban", 50, lenient);
    var kick := IntProp(prims, c, "kick", 50, lenient);
    var redact := IntProp(prims, c, "redact", 50, lenient);
    var invite := IntProp(prims, c, "invite", 0, lenient);
    if users.None? || (exists k :: k in users.value && !prims.validUser(k)) then None
    else if usersDefault.None? || events.None? || eventsDefault.None? || stateDefault.None? then None
    else if ban.None? || kick.None? || redact.None? || invite.None? then None
    else Some(RoomPowerLevels(version, Creators(prims, version, create), pl.Some?, users.value,
                              usersDefault.value, events.value, eventsDefault.value,
                              stateDefault.value, ban.value, kick.value, redact.value, invite.value))
  }
}
