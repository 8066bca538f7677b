/** Room events as the authorization rules and state resolution see them. */
module Events {
  import opened Wrappers

  type EventId = string
  type UserId = string

  /** Event types: the ones the rules single out, and all others by name. */
  datatype Kind =
    | CreateEvent
    | LevelsEvent
    | MemberEvent
    | JoinRulesEvent
    | ThirdPartyInviteEvent
    | OtherEvent(name: string)
  {
    function TypeName(): string {
      match this
      case CreateEvent => "m.room.create"
      case LevelsEvent => "m.room.power_levels"
      case MemberEvent => "m.room.member"
      case JoinRulesEvent => "m.room.join_rules"
      case ThirdPartyInviteEvent => "m.room.third_party_invite"
      case OtherEvent(name) => name
    }
  }

  /** `(event type, state key)`. */
  type Key = (Kind, string)

  /** Canonical JSON. */
  datatype Json =
    | Null
    | Bool(flag: bool)
    | Integer(number: int)
    | String(text: string)
    | Array(items: seq<Json>)
    | Object(fields: map<string, Json>)

  type Content = map<string, Json>

  datatype Event = Event(
    id: EventId,
    roomId: Option<string>,
    sender: UserId,
    kind: Kind,
    stateKey: Option<string>,
    content: Content,
    ts: nat,
    authEvents: seq<EventId>,
    prevEvents: seq<EventId>)
  {
    /** The key under which the event is filed when it is state. */
    function Key(): Key {
      (kind, if stateKey.Some? then stateKey.value else "")
    }
  }

  /** What `fetch` returns: the events at hand, by id. */
  type Fetch = map<EventId, Event>

  const CREATE: Key := (CreateEvent, "")
  const POWER_LEVELS: Key := (LevelsEvent, "")
  const JOIN_RULES: Key := (JoinRulesEvent, "")

  function MemberKey(user: string): Key {
    (MemberEvent, user)
  }

  function StrProp(obj: Content, key: string): Option<string> {
    if key in obj && obj[key].String? then Some(obj[key].text) else None
  }

  function ObjProp(obj: Content, key: string): Option<Content> {
    if key in obj && obj[key].Object? then Some(obj[key].fields) else None
  }

  /** `membership` values; whatever the rules do not name is Unknown. */
  datatype Standing = Join | Invite | Leave | Ban | Knock | Unknown

  function ReadStanding(s: string): Standing {
    match s
    case "join" => Join
    case "invite" => Invite
    case "leave" => Leave
    case "ban" => Ban
    case "knock" => Knock
    case _ => Unknown
  }

  /** The `membership` property of a content, when it is a string. */
  function StandingIn(content: Content): Option<Standing> {
    var s := StrProp(content, "membership");
    if s.Some? then Some(ReadStanding(s.value)) else None
  }

  /** `join_rule` values; whatever the rules do not name is Closed. */
  datatype Rule = InviteOnly | KnockOnly | Restricted | KnockRestricted | Public | Closed

  function ReadRule(s: string): Rule {
    match s
    case "invite" => InviteOnly
    case "knock" => KnockOnly
    case "restricted" => Restricted
    case "knock_restricted" => KnockRestricted
    case "public" => Public
    case _ => Closed
  }

  /** An identifier without its leading sigil. */
  function Localpart(id: string): string {
    if id == "" then "" else id[1..]
  }

  datatype RoomVersion = V8 | V9 | V10 | V11 | V12
  {
    predicate RoomIdIsCreateEventId() { V12? }
    predicate CreateEventInAuthEvents() { !V12? }
    predicate CreatorInCreateContent() { V8? || V9? || V10? }
    predicate LenientPowerLevels() { V8? || V9? }
    predicate PrivilegedCreators() { V12? }
    predicate StateResV21() { V12? }
  }
}
