/**
 * What commands do to a room shard: events are appended, imported with a join, recovered as a
 * segment or backfilled as history, and several tables must agree after every command. Commands
 * work on a staged copy of the tables, which an error discards.
 */
module RoomShard {
  import opened Wrappers
  import opened Orders
  import opened ByteKeys
  import opened Views
  import opened Timeline

  const MAX_GAP_MARKERS: nat := 1024

  /** A stored event. Off the timeline its seq is 0; backfilled it has a history index. */
  datatype Stored = Stored(raw: Bytes, seqNo: nat, rejected: bool, historyIdx: Option<nat>, imported: bool, relay: bool)

  datatype RoomMeta = RoomMeta(version: Bytes, createId: Id, extremities: seq<Id>, frontier: seq<Id>,
                               nextHistoryIdx: nat, gapMarkers: seq<nat>)

  datatype ReceiptRecord = ReceiptRecord(id: Id, thread: Option<Bytes>, ts: nat, seqNo: nat)

  datatype Tables = Tables(events: map<Id, Stored>, journal: map<Bytes, SeqEntry>, roomSeq: map<Bytes, Id>,
                           history: map<Bytes, Id>, rooms: map<Room, RoomMeta>, receipts: map<Bytes, ReceiptRecord>,
                           seqNo: nat)

  /** What the tables stand for: everything emitted, the per-room rows, and the history rows. */
  datatype Trace = Trace(log: seq<SeqEntry>, emitted: seq<Payload>, roomRows: map<RowId, Id>, hist: map<RowId, Id>)

  /** An event id determines its room and its body; a body may or may not parse to prev events. */
  datatype World = World(roomOf: Id -> Room, bodyOf: Id -> Bytes, prevsOf: Bytes -> Option<seq<Id>>)

  datatype Error = UnknownRoom | BadBody

  datatype Response =
    | Duplicate(id: Id)
    | Rejected(id: Id)
    | Accepted(id: Id, seqNo: nat)
    | Receipted(seqNo: nat)
    | Segment(appended: nat)
    | History(indexed: nat, complete: bool)

  datatype Pdu = Pdu(id: Id, raw: Bytes)

  // ---------------------------------------------------------------- what the tables promise

  predicate OnTimeline(events: map<Id, Stored>, id: Id) {
    id in events && events[id].seqNo > 0
  }

  predicate Visible(events: map<Id, Stored>, id: Id) {
    id in events && (events[id].seqNo > 0 || events[id].historyIdx.Some?)
  }

  ghost predicate Genuine(w: World, room: Room, p: Pdu) {
    w.roomOf(p.id) == room && w.bodyOf(p.id) == p.raw
  }

  ghost predicate AllGenuine(w: World, room: Room, ps: seq<Pdu>) {
    forall i :: 0 <= i < |ps| ==> Genuine(w, room, ps[i])
  }

  /** An entry of the log is the one place of its event. */
  ghost predicate EntryPlaced(w: World, events: map<Id, Stored>, n: nat, e: SeqEntry) {
    e.Event? ==> e.id in events && events[e.id].seqNo == n && w.roomOf(e.id) == e.room
  }

  ghost predicate EventPlaced(w: World, log: seq<SeqEntry>, id: Id, s: Stored) {
    && s.raw == w.bodyOf(id)
    && (s.seqNo > 0 ==> s.seqNo <= |log| && log[s.seqNo - 1].Event? && log[s.seqNo - 1].id == id)
  }

  /** Stored seqs and the log name each other: no event is on the timeline twice. */
  ghost predicate Placed(w: World, log: seq<SeqEntry>, events: map<Id, Stored>) {
    && (forall i :: 0 <= i < |log| ==> EntryPlaced(w, events, i + 1, log[i]))
    && (forall id :: id in events ==> EventPlaced(w, log, id, events[id]))
  }

  lemma OncePerEvent(w: World, log: seq<SeqEntry>, events: map<Id, Stored>, i: nat, j: nat)
    requires Placed(w, log, events) && i < |log| && j < |log|
    requires log[i].Event? && log[j].Event? && log[i].id == log[j].id
    ensures i == j
  {
  }

  ghost predicate RoomsKnown(log: seq<SeqEntry>, rooms: map<Room, RoomMeta>) {
    forall i :: 0 <= i < |log| && log[i].Event? ==> log[i].room in rooms
  }

  ghost predicate TimelineOk(w: World, t: Tables, tr: Trace) {
    && t.seqNo == |tr.log| && Agree(tr.log, tr.emitted, tr.roomRows, t.journal, t.roomSeq)
    && Placed(w, tr.log, t.events)
  }

  // ---------------------------------------------------------------- putting an event on the timeline

  lemma PlacedGrows(w: World, log: seq<SeqEntry>, events: map<Id, Stored>, room: Room, id: Id, s: Stored)
    requires Placed(w, log, events) && !OnTimeline(events, id)
    requires s.seqNo == |log| + 1 && s.raw == w.bodyOf(id) && w.roomOf(id) == room
    ensures Placed(w, log + [Event(room, id)], events[id := s])
  {
  }

  lemma PlacedTakesReceipt(w: World, log: seq<SeqEntry>, events: map<Id, Stored>, e: SeqEntry)
    requires Placed(w, log, events) && e.Receipt?
    ensures Placed(w, log + [e], events)
  {
  }

  /** Emit an event and index it: its own row, the journal and its room's index. */
  method PutOnTimeline(t: Tables, room: Room, p: Pdu, imported: bool, relay: bool, ghost w: World, ghost tr: Trace)
    returns (t': Tables, ghost tr': Trace)
    requires TimelineOk(w, t, tr) && NulFree(room) && t.seqNo + 1 < U64_MAX
    requires Genuine(w, room, p) && !OnTimeline(t.events, p.id)
    ensures TimelineOk(w, t', tr') && t'.seqNo == t.seqNo + 1
    ensures t'.events == t.events[p.id := Stored(p.raw, t.seqNo + 1, false, None, imported, relay)]
    ensures t'.rooms == t.rooms && t'.history == t.history && t'.receipts == t.receipts
    ensures tr'.log == tr.log + [Event(room, p.id)] && tr'.hist == tr.hist
  {
    var s := Stored(p.raw, t.seqNo + 1, false, None, imported, relay);
    var journal, index, rows :=
      EmitEvent(t.journal, t.roomSeq, t.seqNo + 1, room, p.id, tr.log, tr.emitted, tr.roomRows);
    PlacedGrows(w, tr.log, t.events, room, p.id, s);
    t' := Tables(t.events[p.id := s], journal, index, t.history, t.rooms, t.receipts, t.seqNo + 1);
    tr' := Trace(tr.log + [Event(room, p.id)], tr.emitted + [EventChange(room, p.id)], rows, tr.hist);
  }

  // ---------------------------------------------------------------- history

  ghost predicate Settled(events: map<Id, Stored>, frontier: seq<Id>, p: Id) {
    Visible(events, p) || p in frontier
  }

  ghost predicate PrevsSettled(w: World, events: map<Id, Stored>, frontier: seq<Id>, id: Id) {
    w.prevsOf(w.bodyOf(id)).Some? && forall p :: p in w.prevsOf(w.bodyOf(id)).value ==> Settled(events, frontier, p)
  }

  /** A history row names a visible event of its room whose prev events are visible or on the room's frontier. */
  ghost predicate RowOk(w: World, events: map<Id, Stored>, rooms: map<Room, RoomMeta>, r: RowId, id: Id) {
    && r.0 in rooms && NulFree(r.0) && r.1 < rooms[r.0].nextHistoryIdx
    && Visible(events, id) && w.roomOf(id) == r.0
    && PrevsSettled(w, events, rooms[r.0].frontier, id)
  }

  ghost predicate IndexRow(w: World, hist: map<RowId, Id>, id: Id, s: Stored) {
    s.historyIdx.Some? ==> var r := (w.roomOf(id), s.historyIdx.value); r in hist && hist[r] == id
  }

  ghost predicate HistoryOk(w: World, events: map<Id, Stored>, rooms: map<Room, RoomMeta>, hist: map<RowId, Id>) {
    && (forall room :: room in rooms ==> rooms[room].nextHistoryIdx <= U64_MAX)
    && (forall r :: r in hist ==> RowOk(w, events, rooms, r, hist[r]))
    && (forall id :: id in events ==> IndexRow(w, hist, id, events[id]))
  }

  /** Visible events stay visible, and history indexes are not invented. */
  ghost predicate Later(events: map<Id, Stored>, events': map<Id, Stored>) {
    && (forall id :: Visible(events, id) ==> Visible(events', id))
    && (forall id :: id in events' && events'[id].historyIdx.Some? ==>
          id in events && events[id].historyIdx == events'[id].historyIdx)
  }

  /** Rooms stay, with their frontiers except for what became visible. */
  ghost predicate RoomLater(events': map<Id, Stored>, m: RoomMeta, m': RoomMeta) {
    m'.nextHistoryIdx == m.nextHistoryIdx && forall p :: p in m.frontier ==> Settled(events', m'.frontier, p)
  }

  /** Something of the room's history is indexed. */
  ghost predicate HasHistory(hist: map<RowId, Id>, room: Room) {
    exists idx: nat :: (room, idx) in hist
  }

  ghost predicate RoomsLater(events': map<Id, Stored>, hist: map<RowId, Id>, rooms: map<Room, RoomMeta>,
                             rooms': map<Room, RoomMeta>)
  {
    && rooms.Keys <= rooms'.Keys
    && (forall room :: room in rooms && HasHistory(hist, room) ==> RoomLater(events', rooms[room], rooms'[room]))
    && (forall room :: room in rooms' ==> rooms'[room].nextHistoryIdx <= U64_MAX)
  }

  /** Commands that index no history keep it closed. */
  lemma HistoryStays(w: World, events: map<Id, Stored>, rooms: map<Room, RoomMeta>, events': map<Id, Stored>,
                     rooms': map<Room, RoomMeta>, hist: map<RowId, Id>)
    requires HistoryOk(w, events, rooms, hist) && Later(events, events') && RoomsLater(events', hist, rooms, rooms')
    ensures HistoryOk(w, events', rooms', hist)
  {
  }

  // ---------------------------------------------------------------- the whole

  ghost predicate Sound(w: World, t: Tables, tr: Trace) {
    && TimelineOk(w, t, tr) && RoomsKnown(tr.log, t.rooms)
    && HistoryOk(w, t.events, t.rooms, tr.hist) && Encodes(t.history, tr.hist, RowKey())
  }

  /** A command that indexes no history leaves the shard sound. */
  lemma StaysSound(w: World, t: Tables, tr: Trace, t': Tables, tr': Trace)
    requires Sound(w, t, tr) && TimelineOk(w, t', tr') && RoomsKnown(tr'.log, t'.rooms)
    requires Later(t.events, t'.events) && RoomsLater(t'.events, tr.hist, t.rooms, t'.rooms)
    requires t'.history == t.history && tr'.hist == tr.hist
    ensures Sound(w, t', tr')
  {
    HistoryStays(w, t.events, t.rooms, t'.events, t'.rooms, tr.hist);
  }

  /** What a command leaves in the trace: it only grows. */
  ghost predicate Grows(tr: Trace, tr': Trace) {
    && tr.log <= tr'.log && tr.emitted <= tr'.emitted
    && forall r :: r in tr.hist ==> r in tr'.hist && tr'.hist[r] == tr.hist[r]
  }

  // ---------------------------------------------------------------- append

  datatype Append = Append(room: Room, event: Pdu, rejected: bool, createVersion: Option<Bytes>,
                           extremities: seq<Id>, relay: bool)

  /** A create event does not go to a room whose history is being backfilled: it would start the record over. */
  ghost predicate Appendable(w: World, t: Tables, tr: Trace, cmd: Append) {
    && Genuine(w, cmd.room, cmd.event) && NulFree(cmd.room)
    && (cmd.createVersion.Some? && cmd.event.id !in t.events && !cmd.rejected ==> !HasHistory(tr.hist, cmd.room))
  }

  lemma StoredOff(w: World, log: seq<SeqEntry>, events: map<Id, Stored>, id: Id, s: Stored)
    requires Placed(w, log, events) && id !in events && s.seqNo == 0 && s.raw == w.bodyOf(id) && s.historyIdx == None
    ensures Placed(w, log, events[id := s]) && Later(events, events[id := s])
  {
  }

  /** No other room's record changes. */
  ghost predicate OnlyRoom(rooms: map<Room, RoomMeta>, rooms': map<Room, RoomMeta>, room: Room) {
    room in rooms' && forall r :: r != room ==> (r in rooms' <==> r in rooms) && (r in rooms ==> rooms'[r] == rooms[r])
  }

  /**
   * The command's extremities become the room's. A create event starts the record, with nothing to
   * backfill; any other event leaves everything else of it.
   */
  ghost predicate RoomAppended(rooms: map<Room, RoomMeta>, rooms': map<Room, RoomMeta>, cmd: Append) {
    && OnlyRoom(rooms, rooms', cmd.room)
    && var now := rooms'[cmd.room];
       && now.extremities == cmd.extremities
       && if cmd.createVersion.Some?
          then && now.version == cmd.createVersion.value && now.createId == cmd.event.id
               && now.frontier == [] && now.nextHistoryIdx == 1 && now.gapMarkers == []
          else && cmd.room in rooms
               && var was := rooms[cmd.room];
                  && now.version == was.version && now.createId == was.createId && now.frontier == was.frontier
                  && now.nextHistoryIdx == was.nextHistoryIdx && now.gapMarkers == was.gapMarkers
  }

  /** What an append does: nothing twice, a rejected event only stored, an accepted one on the timeline. */
  ghost predicate Appended(t: Tables, cmd: Append, r: Result<Response, Error>, t': Tables) {
    var id := cmd.event.id;
    && t'.history == t.history && t'.receipts == t.receipts
    && if id in t.events then r == Ok(Duplicate(id)) && t' == t
       else if cmd.rejected then
         && r == Ok(Rejected(id))
         && t' == t.(events := t.events[id := Stored(cmd.event.raw, 0, true, None, false, false)])
       else if cmd.createVersion == None && cmd.room !in t.rooms then r == Err(UnknownRoom) && t' == t
       else
         && r == Ok(Accepted(id, t.seqNo + 1))
         && t'.events == t.events[id := Stored(cmd.event.raw, t.seqNo + 1, false, None, false, cmd.relay)]
         && RoomAppended(t.rooms, t'.rooms, cmd)
  }

  /** Only an accepted event is logged, and it is logged last. */
  ghost predicate AppendLogged(cmd: Append, r: Result<Response, Error>, tr: Trace, tr': Trace) {
    && tr'.hist == tr.hist
    && if r.Ok? && r.value.Accepted? then tr'.log == tr.log + [Event(cmd.room, cmd.event.id)] else tr' == tr
  }

  /** A rejected event is stored, and nothing else. */
  method StoreRejected(t: Tables, cmd: Append, ghost w: World, ghost tr: Trace) returns (t': Tables)
    requires Sound(w, t, tr) && Appendable(w, t, tr, cmd) && cmd.event.id !in t.events
    ensures Sound(w, t', tr)
    ensures t' == t.(events := t.events[cmd.event.id := Stored(cmd.event.raw, 0, true, None, false, false)])
  {
    var s := Stored(cmd.event.raw, 0, true, None, false, false);
    StoredOff(w, tr.log, t.events, cmd.event.id, s);
    t' := t.(events := t.events[cmd.event.id := s]);
    StaysSound(w, t, tr, t', tr);
  }

  /** An accepted event goes on the timeline, and its room's record is rewritten. */
  method StoreAccepted(t: Tables, cmd: Append, ghost w: World, ghost tr: Trace) returns (t': Tables, ghost tr': Trace)
    requires Sound(w, t, tr) && Appendable(w, t, tr, cmd) && t.seqNo + 1 < U64_MAX
    requires cmd.event.id !in t.events && !cmd.rejected
    requires cmd.createVersion == None ==> cmd.room in t.rooms
    ensures Sound(w, t', tr') && t'.seqNo == t.seqNo + 1
    ensures t'.history == t.history && tr'.hist == tr.hist && t'.receipts == t.receipts
    ensures tr'.log == tr.log + [Event(cmd.room, cmd.event.id)]
    ensures t'.events == t.events[cmd.event.id := Stored(cmd.event.raw, t.seqNo + 1, false, None, false, cmd.relay)]
    ensures RoomAppended(t.rooms, t'.rooms, cmd)
  {
    t', tr' := PutOnTimeline(t, cmd.room, cmd.event, false, cmd.relay, w, tr);
    AppendedRooms(w, t'.events, tr.hist, t.events, t.rooms, cmd);
    AppendRecords(t.rooms, cmd);
    t' := t'.(rooms := t.rooms[cmd.room := AppendedMeta(t.rooms, cmd)]);
    StaysSound(w, t, tr, t', tr');
  }

  lemma AppendRecords(rooms: map<Room, RoomMeta>, cmd: Append)
    requires cmd.createVersion == None ==> cmd.room in rooms
    ensures RoomAppended(rooms, rooms[cmd.room := AppendedMeta(rooms, cmd)], cmd)
  {
  }

  lemma AppendedRooms(w: World, events': map<Id, Stored>, hist: map<RowId, Id>, events: map<Id, Stored>,
                      rooms: map<Room, RoomMeta>, cmd: Append)
    requires HistoryOk(w, events, rooms, hist) && (cmd.createVersion == None ==> cmd.room in rooms)
    requires cmd.createVersion.Some? ==> !HasHistory(hist, cmd.room)
    ensures RoomsLater(events', hist, rooms, rooms[cmd.room := AppendedMeta(rooms, cmd)])
  {
  }

  method ApplyAppend(t: Tables, cmd: Append, ghost w: World, ghost tr: Trace)
    returns (r: Result<Response, Error>, t': Tables, ghost tr': Trace)
    requires Sound(w, t, tr) && Appendable(w, t, tr, cmd) && t.seqNo + 1 < U64_MAX
    ensures Appended(t, cmd, r, t')
    ensures Sound(w, t', tr') && AppendLogged(cmd, r, tr, tr')
  {
    var id := cmd.event.id;
    t', tr' := t, tr;
    if id in t.events {
      return Ok(Duplicate(id)), t, tr;
    }
    if cmd.rejected {
      t' := StoreRejected(t, cmd, w, tr);
      return Ok(Rejected(id)), t', tr;
    }
    if cmd.createVersion == None && cmd.room !in t.rooms {
      return Err(UnknownRoom), t, tr;
    }
    t', tr' := StoreAccepted(t, cmd, w, tr);
    r := Ok(Accepted(id, t'.seqNo));
  }

  /** The room's record after an append: gained for a create event, else with new extremities. */
  function AppendedMeta(rooms: map<Room, RoomMeta>, cmd: Append): RoomMeta
    requires cmd.createVersion == None ==> cmd.room in rooms
  {
    if cmd.createVersion.Some? then RoomMeta(cmd.createVersion.value, cmd.event.id, cmd.extremities, [], 1, [])
    else rooms[cmd.room].(extremities := cmd.extremities)
  }

  // ---------------------------------------------------------------- receipts

  datatype ReceiptCmd = ReceiptCmd(room: Room, user: Bytes, kind: Bytes, thread: Option<Bytes>, id: Id, ts: nat)

  /** One receipt per room, user, kind and thread. */
  function ReceiptKey(cmd: ReceiptCmd): Bytes {
    cmd.room + [0] + cmd.user + [0] + cmd.kind + [0] + (if cmd.thread.Some? then cmd.thread.value else [])
  }

  /** With no NUL in their names, receipts share a key exactly if they are of one room, user, kind and thread. */
  lemma ReceiptKeys(a: ReceiptCmd, b: ReceiptCmd)
    requires NulFree(a.room) && NulFree(a.user) && NulFree(a.kind)
    requires NulFree(b.room) && NulFree(b.user) && NulFree(b.kind)
    ensures ReceiptKey(a) == ReceiptKey(b) <==>
            a.room == b.room && a.user == b.user && a.kind == b.kind && ThreadOf(a) == ThreadOf(b)
  {
    if ReceiptKey(a) == ReceiptKey(b) {
      var x, y := a.kind + [0] + ThreadOf(a), b.kind + [0] + ThreadOf(b);
      assert ReceiptKey(a) == a.room + [0] + (a.user + [0] + x) && ReceiptKey(b) == b.room + [0] + (b.user + [0] + y);
      SplitAtNul(a.room, a.user + [0] + x, b.room, b.user + [0] + y);
      SplitAtNul(a.user, x, b.user, y);
      SplitAtNul(a.kind, ThreadOf(a), b.kind, ThreadOf(b));
    }
  }

  /** No thread and the empty thread are the same. */
  function ThreadOf(cmd: ReceiptCmd): Bytes {
    if cmd.thread.Some? then cmd.thread.value else []
  }

  lemma SplitAtNul(p: Bytes, x: Bytes, q: Bytes, y: Bytes)
    requires NulFree(p) && NulFree(q) && (p + [0] + x == q + [0] + y)
    ensures p == q && x == y
  {
    var k, m := p + [0] + x, q + [0] + y;
    assert k[|p|] == 0 && m[|q|] == 0 && k == m;
    assert forall i :: 0 <= i < |p| ==> k[i] == p[i];
    assert forall i :: 0 <= i < |q| ==> m[i] == q[i];
    assert |p| == |q|;
    assert p == k[..|p|] && q == m[..|q|] && x == k[|p| + 1..] && y == m[|q| + 1..];
  }

  predicate SameReceipt(t: Tables, cmd: ReceiptCmd) {
    ReceiptKey(cmd) in t.receipts && t.receipts[ReceiptKey(cmd)].id == cmd.id
  }

  /** What a receipt does: nothing when repeated, else it burns a seq and rewrites its row. */
  ghost predicate ReceiptTaken(t: Tables, cmd: ReceiptCmd, r: Response, t': Tables) {
    if ReceiptKey(cmd) in t.receipts && t.receipts[ReceiptKey(cmd)].id == cmd.id then r == Receipted(0) && t' == t
    else
      && r == Receipted(t.seqNo + 1) && t'.events == t.events && t'.rooms == t.rooms && t'.history == t.history
      && t'.receipts == t.receipts[ReceiptKey(cmd) := ReceiptRecord(cmd.id, cmd.thread, cmd.ts, t.seqNo + 1)]
  }

  ghost predicate ReceiptLogged(cmd: ReceiptCmd, r: Response, tr: Trace, tr': Trace) {
    && tr'.hist == tr.hist
    && if r == Receipted(0) then tr' == tr
       else tr'.log == tr.log + [Receipt(cmd.room, cmd.user, cmd.kind, cmd.id, cmd.ts)]
  }

  method ApplyReceipt(t: Tables, cmd: ReceiptCmd, ghost w: World, ghost tr: Trace)
    returns (r: Response, t': Tables, ghost tr': Trace)
    requires Sound(w, t, tr) && t.seqNo + 1 < U64_MAX
    ensures ReceiptTaken(t, cmd, r, t')
    ensures Sound(w, t', tr') && ReceiptLogged(cmd, r, tr, tr')
  {
    if SameReceipt(t, cmd) {
      return Receipted(0), t, tr;
    }
    var e := Receipt(cmd.room, cmd.user, cmd.kind, cmd.id, cmd.ts);
    var journal := EmitReceipt(t.journal, t.seqNo + 1, e, tr.log, tr.emitted, tr.roomRows, t.roomSeq);
    PlacedTakesReceipt(w, tr.log, t.events, e);
    t' := Tables(t.events, journal, t.roomSeq, t.history, t.rooms,
                 t.receipts[ReceiptKey(cmd) := ReceiptRecord(cmd.id, cmd.thread, cmd.ts, t.seqNo + 1)], t.seqNo + 1);
    tr' := Trace(tr.log + [e], tr.emitted + [ReceiptChange(cmd.room)], tr.roomRows, tr.hist);
    r := Receipted(t.seqNo + 1);
  }

  // ---------------------------------------------------------------- supporting events

  /** What is stored for an event held only for its content. */
  function Support(raw: Bytes): Stored {
    Stored(raw, 0, false, None, true, false)
  }

  ghost predicate Listed(ps: seq<Pdu>, id: Id) {
    exists i :: 0 <= i < |ps| && ps[i].id == id
  }

  /** Events already held stay as they are; the listed others are stored off the timeline. */
  ghost predicate Supported(w: World, events: map<Id, Stored>, events': map<Id, Stored>, ps: seq<Pdu>) {
    && (forall id :: id in events ==> id in events' && events'[id] == events[id])
    && (forall id :: id in events' && id !in events ==>
          Listed(ps, id) && events'[id] == Stored(w.bodyOf(id), 0, false, None, true, false))
    && (forall i :: 0 <= i < |ps| ==> ps[i].id in events')
  }

  method StoreSupport(events: map<Id, Stored>, ps: seq<Pdu>, ghost w: World, ghost room: Room, ghost log: seq<SeqEntry>)
    returns (events': map<Id, Stored>)
    requires Placed(w, log, events) && AllGenuine(w, room, ps)
    ensures Placed(w, log, events') && Supported(w, events, events', ps)
  {
    events' := events;
    for i := 0 to |ps|
      invariant Placed(w, log, events') && Supported(w, events, events', ps[..i])
    {
      ghost var before := events';
      if ps[i].id !in events' {
        StoredOff(w, log, events', ps[i].id, Support(ps[i].raw));
        events' := events'[ps[i].id := Support(ps[i].raw)];
      }
      SupportedNext(w, events, before, events', ps, i);
    }
    assert ps[..|ps|] == ps;
  }

  lemma SupportedNext(w: World, events: map<Id, Stored>, before: map<Id, Stored>, events': map<Id, Stored>,
                      ps: seq<Pdu>, i: nat)
    requires i < |ps| && Supported(w, events, before, ps[..i]) && ps[i].raw == w.bodyOf(ps[i].id)
    requires events' == (if ps[i].id in before then before else before[ps[i].id := Support(ps[i].raw)])
    ensures Supported(w, events, events', ps[..i + 1])
  {
    var now := ps[..i + 1];
    assert now[i] == ps[i];
    assert forall j :: 0 <= j < i ==> now[j] == ps[..i][j];
    forall id | Listed(ps[..i], id) ensures Listed(now, id) {
      var j :| 0 <= j < i && ps[..i][j].id == id;
      assert now[j].id == id;
    }
  }

  lemma SupportedLater(w: World, events: map<Id, Stored>, events': map<Id, Stored>, ps: seq<Pdu>)
    requires Supported(w, events, events', ps)
    ensures Later(events, events') && forall id :: Visible(events', id) ==> Visible(events, id)
    ensures forall id :: OnTimeline(events', id) <==> OnTimeline(events, id)
  {
  }

  // ---------------------------------------------------------------- importing a room with a join

  datatype Import = Import(room: Room, version: Bytes, createId: Id, join: Pdu, events: seq<Pdu>, frontier: seq<Id>)

  /** A set of ids as the ordered list the room's record keeps. */
  method SortedIds(s: set<Id>) returns (q: seq<Id>)
    ensures Lists(BytesBelow(), s, q) && forall id :: id in q <==> id in s
  {
    BytesTotal(s);
    q := Sort(BytesBelow(), s);
    ListingLists(BytesBelow(), s);
    assert forall id :: id in Members(q) <==> id in q;
  }

  /** The ids of a list that are not visible. */
  ghost function Unseen(events: map<Id, Stored>, ids: seq<Id>): set<Id> {
    set id | id in ids && !Visible(events, id)
  }

  method CollectUnseen(events: map<Id, Stored>, ids: seq<Id>) returns (s: set<Id>)
    ensures s == Unseen(events, ids)
  {
    s := {};
    for i := 0 to |ids|
      invariant s == Unseen(events, ids[..i])
    {
      assert ids[..i + 1] == ids[..i] + [ids[i]];
      if !Visible(events, ids[i]) {
        s := s + {ids[i]};
      }
    }
    assert ids[..|ids|] == ids;
  }

  /** A frontier keeps what was open and takes on the asked-for events not yet visible. */
  ghost predicate Opened(events: map<Id, Stored>, was: seq<Id>, asked: seq<Id>, now: seq<Id>) {
    forall id :: id in now <==> id in was || (id in asked && !Visible(events, id))
  }

  method OpenFrontier(events: map<Id, Stored>, was: seq<Id>, asked: seq<Id>) returns (now: seq<Id>)
    ensures Opened(events, was, asked, now)
  {
    var missing := CollectUnseen(events, asked);
    now := SortedIds((set id | id in was) + missing);
  }

  predicate AlreadyJoined(t: Tables, cmd: Import) {
    cmd.room in t.rooms && OnTimeline(t.events, cmd.join.id)
  }

  lemma OnTimelineKnown(w: World, log: seq<SeqEntry>, events: map<Id, Stored>, rooms: map<Room, RoomMeta>, id: Id)
    requires Placed(w, log, events) && RoomsKnown(log, rooms) && OnTimeline(events, id)
    ensures w.roomOf(id) in rooms
  {
  }

  /** What was held of a room before it is imported again. */
  function OldFrontier(rooms: map<Room, RoomMeta>, room: Room): seq<Id> {
    if room in rooms then rooms[room].frontier else []
  }

  /** The room's record after an import; an existing record's history index and gap markers carry over. */
  function ImportedMeta(rooms: map<Room, RoomMeta>, cmd: Import, frontier: seq<Id>): RoomMeta {
    RoomMeta(cmd.version, cmd.createId, [cmd.join.id], frontier,
             if cmd.room in rooms then rooms[cmd.room].nextHistoryIdx else 1,
             if cmd.room in rooms then rooms[cmd.room].gapMarkers else [])
  }

  /** The supporting events and the join, staged. */
  method StageImport(t: Tables, cmd: Import, ghost w: World, ghost tr: Trace) returns (t': Tables, ghost tr': Trace)
    requires TimelineOk(w, t, tr) && RoomsKnown(tr.log, t.rooms) && !AlreadyJoined(t, cmd) && t.seqNo + 1 < U64_MAX
    requires NulFree(cmd.room) && Genuine(w, cmd.room, cmd.join) && AllGenuine(w, cmd.room, cmd.events)
    ensures TimelineOk(w, t', tr') && t'.seqNo == t.seqNo + 1 && Later(t.events, t'.events)
    ensures t'.rooms == t.rooms && t'.history == t.history && tr'.hist == tr.hist && t'.receipts == t.receipts
    ensures tr'.log == tr.log + [Event(cmd.room, cmd.join.id)]
    ensures JoinStored(w, t, cmd, t')
  {
    var held := StoreSupport(t.events, cmd.events, w, cmd.room, tr.log);
    SupportedLater(w, t.events, held, cmd.events);
    if OnTimeline(t.events, cmd.join.id) {
      OnTimelineKnown(w, tr.log, t.events, t.rooms, cmd.join.id);
    }
    t', tr' := PutOnTimeline(t.(events := held), cmd.room, cmd.join, true, false, w, tr);
  }

  /** The event table after an import: held events stay, supporting ones are added, the join is on the timeline. */
  ghost predicate JoinStored(w: World, t: Tables, cmd: Import, t': Tables) {
    exists held :: Supported(w, t.events, held, cmd.events) &&
                   t'.events == held[cmd.join.id := Stored(cmd.join.raw, t.seqNo + 1, false, None, true, false)]
  }

  /**
   * The record is the one the join brought, with the join as its one extremity; a known room's
   * history index and gap markers carry over.
   */
  ghost predicate RoomImported(rooms: map<Room, RoomMeta>, rooms': map<Room, RoomMeta>, cmd: Import) {
    && OnlyRoom(rooms, rooms', cmd.room)
    && var now := rooms'[cmd.room];
       && now.version == cmd.version && now.createId == cmd.createId && now.extremities == [cmd.join.id]
       && if cmd.room in rooms
          then now.nextHistoryIdx == rooms[cmd.room].nextHistoryIdx && now.gapMarkers == rooms[cmd.room].gapMarkers
          else now.nextHistoryIdx == 1 && now.gapMarkers == []
  }

  /** What an import does: nothing for a known join, else the join is stored and the frontier opens. */
  ghost predicate Joined(w: World, t: Tables, cmd: Import, r: Response, t': Tables) {
    && t'.history == t.history && t'.receipts == t.receipts
    && if cmd.room in t.rooms && cmd.join.id in t.events && t.events[cmd.join.id].seqNo > 0
       then r == Duplicate(cmd.join.id) && t' == t
       else
         && r == Accepted(cmd.join.id, t.seqNo + 1) && JoinStored(w, t, cmd, t')
         && RoomImported(t.rooms, t'.rooms, cmd)
         && Opened(t'.events, if cmd.room in t.rooms then t.rooms[cmd.room].frontier else [], cmd.frontier,
                   t'.rooms[cmd.room].frontier)
  }

  ghost predicate JoinLogged(cmd: Import, r: Response, tr: Trace, tr': Trace) {
    && tr'.hist == tr.hist
    && if r.Accepted? then tr'.log == tr.log + [Event(cmd.room, cmd.join.id)] else tr' == tr
  }

  method ApplyImport(t: Tables, cmd: Import, ghost w: World, ghost tr: Trace)
    returns (r: Response, t': Tables, ghost tr': Trace)
    requires Sound(w, t, tr) && t.seqNo + 1 < U64_MAX
    requires NulFree(cmd.room) && Genuine(w, cmd.room, cmd.join) && AllGenuine(w, cmd.room, cmd.events)
    ensures Joined(w, t, cmd, r, t')
    ensures Sound(w, t', tr') && JoinLogged(cmd, r, tr, tr')
  {
    if AlreadyJoined(t, cmd) {
      return Duplicate(cmd.join.id), t, tr;
    }
    var staged, tr1 := StageImport(t, cmd, w, tr);
    var frontier := OpenFrontier(staged.events, OldFrontier(t.rooms, cmd.room), cmd.frontier);
    t', tr' := staged.(rooms := t.rooms[cmd.room := ImportedMeta(t.rooms, cmd, frontier)]), tr1;
    ImportSound(w, t, tr, staged, t', tr', cmd, frontier);
    r := Accepted(cmd.join.id, t.seqNo + 1);
  }

  lemma ImportSound(w: World, t: Tables, tr: Trace, staged: Tables, t': Tables, tr': Trace, cmd: Import,
                    frontier: seq<Id>)
    requires Sound(w, t, tr) && TimelineOk(w, staged, tr') && Later(t.events, staged.events)
    requires staged.history == t.history && tr'.hist == tr.hist && tr'.log == tr.log + [Event(cmd.room, cmd.join.id)]
    requires t' == staged.(rooms := t.rooms[cmd.room := ImportedMeta(t.rooms, cmd, frontier)])
    requires Opened(staged.events, OldFrontier(t.rooms, cmd.room), cmd.frontier, frontier)
    ensures Sound(w, t', tr')
  {
    assert RoomsLater(t'.events, tr.hist, t.rooms, t'.rooms);
    StaysSound(w, t, tr, t', tr');
  }

  // ---------------------------------------------------------------- recovering a segment

  datatype SegmentCmd = SegmentCmd(room: Room, events: seq<Pdu>, timeline: seq<Pdu>, frontierAdd: seq<Id>)

  /** What a segment adds to the log: its events not yet on the timeline, each once, in order. */
  ghost function Recovered(events: map<Id, Stored>, room: Room, ps: seq<Pdu>): seq<SeqEntry> {
    if ps == [] then []
    else
      var k := |ps| - 1;
      if OnTimeline(events, ps[k].id) || Listed(ps[..k], ps[k].id) then Recovered(events, room, ps[..k])
      else Recovered(events, room, ps[..k]) + [Event(room, ps[k].id)]
  }

  /** After part of a segment, the timeline holds what it held and that part. */
  ghost predicate PartOnTimeline(events: map<Id, Stored>, events': map<Id, Stored>, ps: seq<Pdu>) {
    && Later(events, events')
    && forall id :: OnTimeline(events', id) <==> OnTimeline(events, id) || Listed(ps, id)
  }

  /** Stored events that a batch does not list stay as they are. */
  ghost predicate OthersKept(events: map<Id, Stored>, events': map<Id, Stored>, ps: seq<Pdu>) {
    && (forall id :: id in events ==> id in events')
    && (forall id :: id in events && !Listed(ps, id) ==> events'[id] == events[id])
  }

  /** What joins the timeline with a segment is neither imported nor relayed, nor part of the history. */
  ghost predicate ChainStored(events: map<Id, Stored>, events': map<Id, Stored>, ps: seq<Pdu>) {
    forall id :: Listed(ps, id) && !OnTimeline(events, id) && id in events' ==>
      var s := events'[id]; !s.rejected && s.historyIdx == None && !s.imported && !s.relay
  }

  lemma ChainStoredNext(events: map<Id, Stored>, before: map<Id, Stored>, after: map<Id, Stored>, ps: seq<Pdu>, i: nat,
                        s: Stored)
    requires i < |ps| && ChainStored(events, before, ps[..i]) && PartOnTimeline(events, before, ps[..i])
    requires if OnTimeline(before, ps[i].id) then after == before
             else after == before[ps[i].id := s] && !s.rejected && s.historyIdx == None && !s.imported && !s.relay
    ensures ChainStored(events, after, ps[..i + 1])
  {
    forall id ensures Listed(ps[..i + 1], id) <==> Listed(ps[..i], id) || id == ps[i].id {
      ListedNext(ps, i, id);
    }
  }

  lemma OthersKeptNext(events: map<Id, Stored>, before: map<Id, Stored>, after: map<Id, Stored>, ps: seq<Pdu>, i: nat,
                       s: Stored)
    requires i < |ps| && OthersKept(events, before, ps[..i]) && (after == before || after == before[ps[i].id := s])
    ensures OthersKept(events, after, ps[..i + 1])
  {
    forall id ensures Listed(ps[..i + 1], id) <==> Listed(ps[..i], id) || id == ps[i].id {
      ListedNext(ps, i, id);
    }
  }

  lemma PartNext(events: map<Id, Stored>, before: map<Id, Stored>, after: map<Id, Stored>, ps: seq<Pdu>, i: nat,
                 s: Stored)
    requires i < |ps| && PartOnTimeline(events, before, ps[..i]) && s.seqNo > 0 && s.historyIdx == None
    requires after == (if OnTimeline(before, ps[i].id) then before else before[ps[i].id := s])
    ensures PartOnTimeline(events, after, ps[..i + 1])
  {
    forall id ensures Listed(ps[..i + 1], id) <==> Listed(ps[..i], id) || id == ps[i].id {
      ListedNext(ps, i, id);
    }
  }

  lemma RecoveredNext(events: map<Id, Stored>, before: map<Id, Stored>, room: Room, ps: seq<Pdu>, i: nat)
    requires i < |ps| && PartOnTimeline(events, before, ps[..i])
    ensures Recovered(events, room, ps[..i + 1]) ==
            Recovered(events, room, ps[..i]) + (if OnTimeline(before, ps[i].id) then [] else [Event(room, ps[i].id)])
  {
    assert ps[..i + 1][..i] == ps[..i];
  }

  /** Events and log when some of a chain has joined the timeline. */
  ghost predicate Grew(events: map<Id, Stored>, log: seq<SeqEntry>, room: Room, ps: seq<Pdu>,
                       events': map<Id, Stored>, log': seq<SeqEntry>, last: Option<Id>)
  {
    && PartOnTimeline(events, events', ps) && OthersKept(events, events', ps) && ChainStored(events, events', ps)
    && |log'| <= |log| + |ps|
    && log' == log + Recovered(events, room, ps) && last == LastOf(Recovered(events, room, ps))
  }

  lemma GrewOver(events: map<Id, Stored>, log: seq<SeqEntry>, room: Room, ps: seq<Pdu>, i: nat,
                 events': map<Id, Stored>, log': seq<SeqEntry>, last: Option<Id>)
    requires i < |ps| && Grew(events, log, room, ps[..i], events', log', last) && OnTimeline(events', ps[i].id)
    ensures Grew(events, log, room, ps[..i + 1], events', log', last)
  {
    RecoveredNext(events, events', room, ps, i);
    PartNext(events, events', events', ps, i, events'[ps[i].id].(historyIdx := None));
    OthersKeptNext(events, events', events', ps, i, events'[ps[i].id]);
    ChainStoredNext(events, events', events', ps, i, events'[ps[i].id]);
  }

  lemma GrewBy(events: map<Id, Stored>, log: seq<SeqEntry>, room: Room, ps: seq<Pdu>, i: nat,
               events': map<Id, Stored>, log': seq<SeqEntry>, last: Option<Id>, s: Stored)
    requires i < |ps| && Grew(events, log, room, ps[..i], events', log', last) && !OnTimeline(events', ps[i].id)
    requires s.seqNo > 0 && s.historyIdx == None && !s.rejected && !s.imported && !s.relay
    ensures Grew(events, log, room, ps[..i + 1], events'[ps[i].id := s], log' + [Event(room, ps[i].id)], Some(ps[i].id))
  {
    RecoveredNext(events, events', room, ps, i);
    PartNext(events, events', events'[ps[i].id := s], ps, i, s);
    OthersKeptNext(events, events', events'[ps[i].id := s], ps, i, s);
    ChainStoredNext(events, events', events'[ps[i].id := s], ps, i, s);
  }

  ghost predicate Chained(w: World, t: Tables, tr: Trace, room: Room, ps: seq<Pdu>, t': Tables, tr': Trace,
                          last: Option<Id>)
  {
    && TimelineOk(w, t', tr') && Grew(t.events, tr.log, room, ps, t'.events, tr'.log, last)
    && t'.rooms == t.rooms && t'.history == t.history && tr'.hist == tr.hist && t'.receipts == t.receipts
  }

  method ChainNext(t: Tables, room: Room, ps: seq<Pdu>, i: nat, t': Tables, last: Option<Id>,
                   ghost w: World, ghost tr: Trace, ghost tr': Trace)
    returns (t'': Tables, last': Option<Id>, ghost tr'': Trace)
    requires i < |ps| && Chained(w, t, tr, room, ps[..i], t', tr', last)
    requires NulFree(room) && Genuine(w, room, ps[i]) && |tr.log| + |ps| < U64_MAX
    ensures Chained(w, t, tr, room, ps[..i + 1], t'', tr'', last')
  {
    if OnTimeline(t'.events, ps[i].id) {
      GrewOver(t.events, tr.log, room, ps, i, t'.events, tr'.log, last);
      return t', last, tr';
    }
    GrewBy(t.events, tr.log, room, ps, i, t'.events, tr'.log, last,
           Stored(ps[i].raw, t'.seqNo + 1, false, None, false, false));
    t'', tr'' := PutOnTimeline(t', room, ps[i], false, false, w, tr');
    last' := Some(ps[i].id);
  }

  /** A segment's events go on the timeline in their given order. */
  method AppendChain(t: Tables, room: Room, ps: seq<Pdu>, ghost w: World, ghost tr: Trace)
    returns (t': Tables, last: Option<Id>, ghost tr': Trace)
    requires TimelineOk(w, t, tr) && NulFree(room) && AllGenuine(w, room, ps) && t.seqNo + |ps| < U64_MAX
    ensures Chained(w, t, tr, room, ps, t', tr', last)
  {
    t', tr', last := t, tr, None;
    for i := 0 to |ps|
      invariant Chained(w, t, tr, room, ps[..i], t', tr', last)
    {
      t', last, tr' := ChainNext(t, room, ps, i, t', last, w, tr, tr');
    }
    assert ps[..|ps|] == ps;
  }

  ghost function LastOf(entries: seq<SeqEntry>): Option<Id> {
    if entries == [] then None else Some(entries[|entries| - 1].id)
  }

  /** Append the asked-for events that are neither visible nor on the frontier yet. */
  method ExtendFrontier(events: map<Id, Stored>, was: seq<Id>, asked: seq<Id>) returns (now: seq<Id>)
    ensures Opened(events, was, asked, now) && was <= now
  {
    now := was;
    for i := 0 to |asked|
      invariant Opened(events, was, asked[..i], now) && was <= now
    {
      assert asked[..i + 1] == asked[..i] + [asked[i]];
      if !Visible(events, asked[i]) && asked[i] !in now {
        now := now + [asked[i]];
      }
    }
    assert asked[..|asked|] == asked;
  }

  function Newest(q: seq<nat>, limit: nat): seq<nat> {
    if |q| > limit then q[|q| - limit..] else q
  }

  /** The room's record after a segment. */
  function SegmentMeta(m: RoomMeta, first: nat, last: Option<Id>, frontier: seq<Id>): RoomMeta {
    m.(gapMarkers := if last.Some? then Newest(m.gapMarkers + [first], MAX_GAP_MARKERS) else m.gapMarkers,
       extremities := if last.Some? && last.value !in m.extremities then m.extremities + [last.value]
                      else m.extremities,
       frontier := frontier)
  }

  lemma {:induction false} RecoveredSame(events: map<Id, Stored>, events': map<Id, Stored>, room: Room, ps: seq<Pdu>)
    requires forall id :: OnTimeline(events', id) <==> OnTimeline(events, id)
    ensures Recovered(events', room, ps) == Recovered(events, room, ps)
    ensures |Recovered(events, room, ps)| <= |ps|
    ensures forall e :: e in Recovered(events, room, ps) ==> e.Event? && e.room == room
  {
    if ps != [] {
      RecoveredSame(events, events', room, ps[..|ps| - 1]);
    }
  }

  lemma LaterTransitive(a: map<Id, Stored>, b: map<Id, Stored>, c: map<Id, Stored>)
    requires Later(a, b) && Later(b, c)
    ensures Later(a, c)
  {
  }

  /** The chain is on the timeline, its supporting events are held, and all other events stay as they are. */
  ghost predicate SegmentStored(t: Tables, cmd: SegmentCmd, t': Tables) {
    && (forall id :: OnTimeline(t'.events, id) <==> OnTimeline(t.events, id) || Listed(cmd.timeline, id))
    && (forall id :: id in t.events ==> id in t'.events)
    && (forall id :: id in t.events && !Listed(cmd.timeline, id) ==> t'.events[id] == t.events[id])
    && (forall id :: Listed(cmd.events, id) ==> id in t'.events) && ChainStored(t.events, t'.events, cmd.timeline)
  }

  lemma StagedStores(w: World, t: Tables, cmd: SegmentCmd, held: map<Id, Stored>, t': Tables)
    requires Supported(w, t.events, held, cmd.events) && OthersKept(held, t'.events, cmd.timeline)
    requires ChainStored(held, t'.events, cmd.timeline)
    requires forall id :: OnTimeline(held, id) <==> OnTimeline(t.events, id)
    requires forall id :: OnTimeline(t'.events, id) <==> OnTimeline(held, id) || Listed(cmd.timeline, id)
    ensures SegmentStored(t, cmd, t')
  {
  }

  /** The supporting events and the chain, staged. */
  method StageSegment(t: Tables, cmd: SegmentCmd, ghost w: World, ghost tr: Trace)
    returns (t': Tables, last: Option<Id>, ghost tr': Trace)
    requires TimelineOk(w, t, tr) && NulFree(cmd.room) && t.seqNo + |cmd.timeline| < U64_MAX
    requires AllGenuine(w, cmd.room, cmd.events) && AllGenuine(w, cmd.room, cmd.timeline)
    ensures TimelineOk(w, t', tr') && Later(t.events, t'.events)
    ensures SegmentStored(t, cmd, t')
    ensures t'.rooms == t.rooms && t'.history == t.history && tr'.hist == tr.hist && t'.receipts == t.receipts
    ensures tr'.log == tr.log + Recovered(t.events, cmd.room, cmd.timeline)
    ensures last == LastOf(Recovered(t.events, cmd.room, cmd.timeline))
  {
    var held := StoreSupport(t.events, cmd.events, w, cmd.room, tr.log);
    SupportedLater(w, t.events, held, cmd.events);
    RecoveredSame(t.events, held, cmd.room, cmd.timeline);
    t', last, tr' := AppendChain(t.(events := held), cmd.room, cmd.timeline, w, tr);
    LaterTransitive(t.events, held, t'.events);
    StagedStores(w, t, cmd, held, t');
  }

  /** The newest markers, up to the limit, in order. */
  ghost predicate NewestOf(q: seq<nat>, limit: nat, now: seq<nat>) {
    && |now| == (if |q| < limit then |q| else limit)
    && forall i :: 0 <= i < |now| ==> now[i] == q[|q| - |now| + i]
  }

  /**
   * A segment that adds something leaves a gap marker at its first seq, of which the newest are kept,
   * and its last event as one more extremity; nothing else of the record changes but the frontier.
   */
  ghost predicate RoomRecovered(rooms: map<Room, RoomMeta>, rooms': map<Room, RoomMeta>, room: Room, first: nat,
                                last: Option<Id>)
  {
    && OnlyRoom(rooms, rooms', room) && room in rooms
    && var was, now := rooms[room], rooms'[room];
       && now.version == was.version && now.createId == was.createId && now.nextHistoryIdx == was.nextHistoryIdx
       && if last.None? then now.gapMarkers == was.gapMarkers && now.extremities == was.extremities
          else && NewestOf(was.gapMarkers + [first], 1024, now.gapMarkers)
               && was.extremities <= now.extremities && last.value in now.extremities
               && (forall id :: id in now.extremities ==> id in was.extremities || id == last.value)
               && (last.value in was.extremities ==> now.extremities == was.extremities)
  }

  lemma SegmentRecords(rooms: map<Room, RoomMeta>, room: Room, first: nat, last: Option<Id>, frontier: seq<Id>)
    requires room in rooms
    ensures RoomRecovered(rooms, rooms[room := SegmentMeta(rooms[room], first, last, frontier)], room, first, last)
  {
  }

  /** What a segment does: its events not yet there join the timeline, and the frontier opens. */
  ghost predicate SegmentTaken(t: Tables, cmd: SegmentCmd, r: Result<Response, Error>, t': Tables) {
    && t'.history == t.history && t'.receipts == t.receipts
    && if cmd.room !in t.rooms then r == Err(UnknownRoom) && t' == t
       else
         var gained := Recovered(t.events, cmd.room, cmd.timeline);
         && r == Ok(Segment(|gained|)) && SegmentStored(t, cmd, t')
         && RoomRecovered(t.rooms, t'.rooms, cmd.room, t.seqNo + 1, LastOf(gained))
         && Opened(t'.events, t.rooms[cmd.room].frontier, cmd.frontierAdd, t'.rooms[cmd.room].frontier)
  }

  /** They are logged last, in order. */
  ghost predicate SegmentLogged(t: Tables, cmd: SegmentCmd, r: Result<Response, Error>, tr: Trace, tr': Trace) {
    && tr'.hist == tr.hist
    && if r.Err? then tr' == tr else tr'.log == tr.log + Recovered(t.events, cmd.room, cmd.timeline)
  }

  method ApplySegment(t: Tables, cmd: SegmentCmd, ghost w: World, ghost tr: Trace)
    returns (r: Result<Response, Error>, t': Tables, ghost tr': Trace)
    requires Sound(w, t, tr) && NulFree(cmd.room) && t.seqNo + |cmd.timeline| < U64_MAX
    requires AllGenuine(w, cmd.room, cmd.events) && AllGenuine(w, cmd.room, cmd.timeline)
    ensures SegmentTaken(t, cmd, r, t')
    ensures Sound(w, t', tr') && SegmentLogged(t, cmd, r, tr, tr')
  {
    if cmd.room !in t.rooms {
      return Err(UnknownRoom), t, tr;
    }
    var staged, last, tr1 := StageSegment(t, cmd, w, tr);
    var m := t.rooms[cmd.room];
    var frontier := ExtendFrontier(staged.events, m.frontier, cmd.frontierAdd);
    t', tr' := staged.(rooms := t.rooms[cmd.room := SegmentMeta(m, t.seqNo + 1, last, frontier)]), tr1;
    SegmentSound(w, t, tr, staged, t', tr', cmd, last, frontier);
    SegmentRecords(t.rooms, cmd.room, t.seqNo + 1, last, frontier);
    r := Ok(Segment(staged.seqNo - t.seqNo));
  }

  lemma SegmentSound(w: World, t: Tables, tr: Trace, staged: Tables, t': Tables, tr': Trace, cmd: SegmentCmd,
                     last: Option<Id>, frontier: seq<Id>)
    requires Sound(w, t, tr) && TimelineOk(w, staged, tr') && Later(t.events, staged.events) && cmd.room in t.rooms
    requires staged.history == t.history && tr'.hist == tr.hist
    requires tr'.log == tr.log + Recovered(t.events, cmd.room, cmd.timeline)
    requires t' == staged.(rooms := t.rooms[cmd.room := SegmentMeta(t.rooms[cmd.room], t.seqNo + 1, last, frontier)])
    requires Opened(staged.events, t.rooms[cmd.room].frontier, cmd.frontierAdd, frontier)
    ensures Sound(w, t', tr')
  {
    RecoveredSame(t.events, t.events, cmd.room, cmd.timeline);
    var gained := Recovered(t.events, cmd.room, cmd.timeline);
    forall i | 0 <= i < |tr'.log| && tr'.log[i].Event? ensures tr'.log[i].room in t'.rooms {
      assert i >= |tr.log| ==> tr'.log[i] in gained;
    }
    assert RoomsLater(t'.events, tr.hist, t.rooms, t'.rooms);
    StaysSound(w, t, tr, t', tr');
  }

  // ---------------------------------------------------------------- importing history

  datatype HistoryCmd = HistoryCmd(room: Room, events: seq<Pdu>)

  /** What a history import has staged: rows, the ids it has seen and the prev events they name. */
  datatype Batch = Batch(events: map<Id, Stored>, history: map<Bytes, Id>, idx: nat, ids: set<Id>, prevs: seq<Id>)

  /** An event new to the history names this prev event. */
  ghost predicate Names(w: World, events: map<Id, Stored>, id: Id, p: Id) {
    !Visible(events, id) && w.prevsOf(w.bodyOf(id)).Some? && p in w.prevsOf(w.bodyOf(id)).value
  }

  ghost predicate Referenced(w: World, events: map<Id, Stored>, ps: seq<Pdu>, p: Id) {
    exists i :: 0 <= i < |ps| && Names(w, events, ps[i].id, p)
  }

  /** A body that must be parsed does parse. */
  ghost predicate Readable(w: World, events: map<Id, Stored>, id: Id) {
    !Visible(events, id) ==> w.prevsOf(w.bodyOf(id)).Some?
  }

  ghost predicate BatchEvents(w: World, events: map<Id, Stored>, log: seq<SeqEntry>, ps: seq<Pdu>, b: Batch) {
    && Placed(w, log, b.events)
    && (forall id :: Visible(b.events, id) <==> Visible(events, id) || Listed(ps, id))
    && (forall id :: id in b.ids <==> Listed(ps, id))
    && (forall p :: p in b.prevs <==> Referenced(w, events, ps, p))
    && (forall i :: 0 <= i < |ps| ==> Readable(w, events, ps[i].id))
  }

  /** A row the batch added. */
  ghost predicate NewRow(w: World, events: map<Id, Stored>, room: Room, lo: nat, ps: seq<Pdu>, idx: nat, r: RowId,
                         id: Id)
  {
    r.0 == room && lo <= r.1 < idx && w.roomOf(id) == room && Listed(ps, id) && !Visible(events, id)
  }

  ghost predicate BatchRows(w: World, events: map<Id, Stored>, was: map<RowId, Id>, room: Room, lo: nat, ps: seq<Pdu>,
                            b: Batch, hist: map<RowId, Id>)
  {
    && (forall r :: r in was ==> r in hist && hist[r] == was[r])
    && (forall r :: r in hist && r !in was ==> NewRow(w, events, room, lo, ps, b.idx, r, hist[r]))
    && (forall id :: id in b.events ==> IndexRow(w, hist, id, b.events[id]))
    && lo <= b.idx <= lo + |ps|
  }

  lemma ListedNext(ps: seq<Pdu>, i: nat, id: Id)
    requires i < |ps|
    ensures Listed(ps[..i + 1], id) <==> Listed(ps[..i], id) || id == ps[i].id
  {
  }

  lemma ReferencedNext(w: World, events: map<Id, Stored>, ps: seq<Pdu>, i: nat, p: Id)
    requires i < |ps|
    ensures Referenced(w, events, ps[..i + 1], p) <==>
            Referenced(w, events, ps[..i], p) || Names(w, events, ps[i].id, p)
  {
  }

  /** Index rewriting an event off the timeline keeps the timeline. */
  lemma PlacedReindexed(w: World, log: seq<SeqEntry>, events: map<Id, Stored>, id: Id, s: Stored)
    requires Placed(w, log, events) && !OnTimeline(events, id) && s.seqNo == 0 && s.raw == w.bodyOf(id)
    ensures Placed(w, log, events[id := s])
  {
  }

  /** What a history import stores for an event: the held body, or the given one, with its index. */
  function Backfilled(events: map<Id, Stored>, p: Pdu, idx: nat): Stored {
    if p.id in events then events[p.id].(historyIdx := Some(idx))
    else Stored(p.raw, 0, false, Some(idx), true, false)
  }

  lemma BackfilledBody(w: World, log: seq<SeqEntry>, events: map<Id, Stored>, room: Room, p: Pdu, idx: nat)
    requires Placed(w, log, events) && Genuine(w, room, p) && !Visible(events, p.id)
    ensures Backfilled(events, p, idx).raw == w.bodyOf(p.id) && Backfilled(events, p, idx).seqNo == 0
  {
  }

  lemma EventsSkip(w: World, events: map<Id, Stored>, log: seq<SeqEntry>, ps: seq<Pdu>, i: nat, b: Batch)
    requires i < |ps| && BatchEvents(w, events, log, ps[..i], b) && Visible(b.events, ps[i].id)
    ensures BatchEvents(w, events, log, ps[..i + 1], b.(ids := b.ids + {ps[i].id}))
  {
    var id, done := ps[i].id, ps[..i + 1];
    forall k ensures Listed(done, k) <==> Listed(ps[..i], k) || k == id {
      ListedNext(ps, i, k);
    }
    AlreadyReferenced(w, events, ps, i);
    forall j | 0 <= j < |done| ensures Readable(w, events, done[j].id) {
      if j < i {
        assert Readable(w, events, ps[..i][j].id);
      } else if !Visible(events, id) {
        var k :| 0 <= k < i && ps[..i][k].id == id;
        assert Readable(w, events, ps[..i][k].id);
      }
    }
  }

  /** An event already visible or already in the batch names nothing new. */
  lemma AlreadyReferenced(w: World, events: map<Id, Stored>, ps: seq<Pdu>, i: nat)
    requires i < |ps| && (Visible(events, ps[i].id) || Listed(ps[..i], ps[i].id))
    ensures forall p :: Referenced(w, events, ps[..i + 1], p) <==> Referenced(w, events, ps[..i], p)
  {
  }

  lemma EventsIndex(w: World, events: map<Id, Stored>, log: seq<SeqEntry>, room: Room, ps: seq<Pdu>, i: nat, b: Batch,
                    b': Batch)
    requires i < |ps| && BatchEvents(w, events, log, ps[..i], b)
    requires !Visible(b.events, ps[i].id) && Genuine(w, room, ps[i])
    requires w.prevsOf(w.bodyOf(ps[i].id)).Some?
    requires b'.events == b.events[ps[i].id := Backfilled(b.events, ps[i], b.idx)]
    requires b'.ids == b.ids + {ps[i].id} && b'.prevs == b.prevs + w.prevsOf(w.bodyOf(ps[i].id)).value
    ensures BatchEvents(w, events, log, ps[..i + 1], b')
  {
    var id, done := ps[i].id, ps[..i + 1];
    BackfilledBody(w, log, b.events, room, ps[i], b.idx);
    PlacedReindexed(w, log, b.events, id, Backfilled(b.events, ps[i], b.idx));
    forall k ensures Listed(done, k) <==> Listed(ps[..i], k) || k == id {
      ListedNext(ps, i, k);
    }
    forall k ensures Visible(b'.events, k) <==> Visible(b.events, k) || k == id {
    }
    forall p ensures p in b'.prevs <==> Referenced(w, events, done, p) {
      ReferencedNext(w, events, ps, i, p);
    }
    forall j | 0 <= j < |done| ensures Readable(w, events, done[j].id) {
      assert j < i ==> Readable(w, events, ps[..i][j].id);
    }
  }

  lemma RowsSkip(w: World, events: map<Id, Stored>, was: map<RowId, Id>, room: Room, lo: nat, ps: seq<Pdu>, i: nat,
                 b: Batch, hist: map<RowId, Id>, ids: set<Id>)
    requires i < |ps| && BatchRows(w, events, was, room, lo, ps[..i], b, hist)
    ensures BatchRows(w, events, was, room, lo, ps[..i + 1], b.(ids := ids), hist)
  {
  }

  /** Every row of the room before the batch has a smaller index than the batch begins with. */
  ghost predicate IndexedBelow(was: map<RowId, Id>, room: Room, lo: nat) {
    forall r :: r in was && r.0 == room ==> r.1 < lo
  }

  lemma RowsIndex(w: World, events: map<Id, Stored>, was: map<RowId, Id>, room: Room, lo: nat, ps: seq<Pdu>, i: nat,
                  b: Batch, b': Batch, hist: map<RowId, Id>)
    requires i < |ps| && BatchRows(w, events, was, room, lo, ps[..i], b, hist) && IndexedBelow(was, room, lo)
    requires w.roomOf(ps[i].id) == room && !Visible(events, ps[i].id) && b'.idx == b.idx + 1
    requires b'.events == b.events[ps[i].id := Backfilled(b.events, ps[i], b.idx)]
    ensures (room, b.idx) !in hist
    ensures BatchRows(w, events, was, room, lo, ps[..i + 1], b', hist[(room, b.idx) := ps[i].id])
  {
    var q, id := (room, b.idx), ps[i].id;
    assert q in hist && q !in was ==> NewRow(w, events, room, lo, ps[..i], b.idx, q, hist[q]);
    var hist' := hist[q := id];
    forall r | r in hist' && r !in was ensures NewRow(w, events, room, lo, ps[..i + 1], b'.idx, r, hist'[r]) {
      ListedNext(ps, i, hist'[r]);
      assert r != q ==> NewRow(w, events, room, lo, ps[..i], b.idx, r, hist[r]);
    }
    forall k | k in b'.events ensures IndexRow(w, hist', k, b'.events[k]) {
      assert k != id ==> IndexRow(w, hist, k, b.events[k]);
    }
  }

  ghost predicate HistoryFits(hist: map<RowId, Id>) {
    Fits(hist.Keys, U64_MAX)
  }

  lemma HistoryPut(table: map<Bytes, Id>, hist: map<RowId, Id>, room: Room, idx: nat, id: Id)
    requires Encodes(table, hist, RowKey()) && HistoryFits(hist) && NulFree(room) && idx <= U64_MAX
    ensures Encodes(table[NumberKey(room, idx) := id], hist[(room, idx) := id], RowKey())
    ensures HistoryFits(hist[(room, idx) := id])
  {
    var r: RowId := (room, idx);
    RowKeyInjective(hist.Keys + {r}, U64_MAX);
    EncodesPut<RowId, Id>(table, hist, RowKey(), r, id);
  }

  method PutHistory(table: map<Bytes, Id>, room: Room, idx: nat, id: Id, ghost hist: map<RowId, Id>)
    returns (table': map<Bytes, Id>)
    requires Encodes(table, hist, RowKey()) && HistoryFits(hist) && NulFree(room) && idx <= U64_MAX
    ensures Encodes(table', hist[(room, idx) := id], RowKey()) && HistoryFits(hist[(room, idx) := id])
  {
    HistoryPut(table, hist, room, idx, id);
    table' := table[NumberKey(room, idx) := id];
  }

  /** What is backfilled keeps what was stored of it, or is stored as imported; only its history index is new. */
  ghost predicate Backfills(events: map<Id, Stored>, events': map<Id, Stored>, ps: seq<Pdu>) {
    forall id :: Listed(ps, id) && !Visible(events, id) && id in events' ==>
      var s := events'[id];
      && s.historyIdx.Some? && s.seqNo == 0
      && if id in events then s == events[id].(historyIdx := s.historyIdx) else !s.rejected && s.imported && !s.relay
  }

  /** Nothing but what is listed is newly stored. */
  ghost predicate OnlyListed(events: map<Id, Stored>, events': map<Id, Stored>, ps: seq<Pdu>) {
    forall id :: id in events' && id !in events ==> Listed(ps, id)
  }

  ghost predicate BatchStored(events: map<Id, Stored>, events': map<Id, Stored>, ps: seq<Pdu>) {
    OthersKept(events, events', ps) && OnlyListed(events, events', ps) && Backfills(events, events', ps)
  }

  lemma BatchStoredSkip(events: map<Id, Stored>, before: map<Id, Stored>, ps: seq<Pdu>, i: nat)
    requires i < |ps| && BatchStored(events, before, ps[..i])
    requires Visible(events, ps[i].id) || Listed(ps[..i], ps[i].id)
    ensures BatchStored(events, before, ps[..i + 1])
  {
    forall id ensures Listed(ps[..i + 1], id) <==> Listed(ps[..i], id) || id == ps[i].id {
      ListedNext(ps, i, id);
    }
  }

  lemma BatchStoredNext(events: map<Id, Stored>, before: map<Id, Stored>, ps: seq<Pdu>, i: nat, idx: nat)
    requires i < |ps| && BatchStored(events, before, ps[..i])
    requires !Visible(before, ps[i].id) && !Listed(ps[..i], ps[i].id)
    ensures BatchStored(events, before[ps[i].id := Backfilled(before, ps[i], idx)], ps[..i + 1])
  {
    forall id ensures Listed(ps[..i + 1], id) <==> Listed(ps[..i], id) || id == ps[i].id {
      ListedNext(ps, i, id);
    }
  }

  /** The batch after some of its events. */
  ghost predicate Indexed(w: World, t: Tables, tr: Trace, room: Room, ps: seq<Pdu>, b: Batch, hist: map<RowId, Id>)
    requires room in t.rooms
  {
    && BatchEvents(w, t.events, tr.log, ps, b)
    && BatchRows(w, t.events, tr.hist, room, t.rooms[room].nextHistoryIdx, ps, b, hist)
    && Encodes(b.history, hist, RowKey()) && HistoryFits(hist) && BatchStored(t.events, b.events, ps)
  }

  /** One event of a history import; `None` when its body does not parse. */
  method IndexOne(t: Tables, room: Room, ps: seq<Pdu>, i: nat, b: Batch, prevsOf: Bytes -> Option<seq<Id>>,
                  ghost w: World, ghost tr: Trace, ghost hist: map<RowId, Id>)
    returns (b': Option<Batch>, ghost hist': map<RowId, Id>)
    requires room in t.rooms && i < |ps| && Indexed(w, t, tr, room, ps[..i], b, hist)
    requires IndexedBelow(tr.hist, room, t.rooms[room].nextHistoryIdx) && NulFree(room) && Genuine(w, room, ps[i])
    requires w.prevsOf == prevsOf && t.rooms[room].nextHistoryIdx + |ps| <= U64_MAX
    ensures b' == None ==> !Readable(w, t.events, ps[i].id)
    ensures b'.Some? ==> Indexed(w, t, tr, room, ps[..i + 1], b'.value, hist')
  {
    var id := ps[i].id;
    hist' := hist;
    if Visible(b.events, id) {
      EventsSkip(w, t.events, tr.log, ps, i, b);
      BatchStoredSkip(t.events, b.events, ps, i);
      RowsSkip(w, t.events, tr.hist, room, t.rooms[room].nextHistoryIdx, ps, i, b, hist, b.ids + {id});
      return Some(b.(ids := b.ids + {id})), hist;
    }
    var s := Backfilled(b.events, ps[i], b.idx);
    BackfilledBody(w, tr.log, b.events, room, ps[i], b.idx);
    var prevs := prevsOf(s.raw);
    if prevs == None {
      return None, hist;
    }
    var history := PutHistory(b.history, room, b.idx, id, hist);
    var next := Batch(b.events[id := s], history, b.idx + 1, b.ids + {id}, b.prevs + prevs.value);
    EventsIndex(w, t.events, tr.log, room, ps, i, b, next);
    BatchStoredNext(t.events, b.events, ps, i, b.idx);
    RowsIndex(w, t.events, tr.hist, room, t.rooms[room].nextHistoryIdx, ps, i, b, next, hist);
    b', hist' := Some(next), hist[(room, b.idx) := id];
  }

  lemma IndexingStarts(w: World, t: Tables, tr: Trace, room: Room)
    requires Sound(w, t, tr) && room in t.rooms
    ensures IndexedBelow(tr.hist, room, t.rooms[room].nextHistoryIdx)
    ensures Indexed(w, t, tr, room, [], Batch(t.events, t.history, t.rooms[room].nextHistoryIdx, {}, []), tr.hist)
  {
    forall r | r in tr.hist
      ensures NulFree(r.0) && r.1 <= U64_MAX && (r.0 == room ==> r.1 < t.rooms[room].nextHistoryIdx)
    {
      assert RowOk(w, t.events, t.rooms, r, tr.hist[r]);
    }
  }

  /** All events of a history import; `None` when some body does not parse. */
  method IndexAll(t: Tables, room: Room, ps: seq<Pdu>, prevsOf: Bytes -> Option<seq<Id>>, ghost w: World,
                  ghost tr: Trace)
    returns (b: Option<Batch>, ghost hist: map<RowId, Id>)
    requires Sound(w, t, tr) && room in t.rooms && NulFree(room) && AllGenuine(w, room, ps)
    requires w.prevsOf == prevsOf && t.rooms[room].nextHistoryIdx + |ps| <= U64_MAX
    ensures b == None ==> exists i :: 0 <= i < |ps| && !Readable(w, t.events, ps[i].id)
    ensures b.Some? ==> Indexed(w, t, tr, room, ps, b.value, hist)
  {
    IndexingStarts(w, t, tr, room);
    var so := Batch(t.events, t.history, t.rooms[room].nextHistoryIdx, {}, []);
    hist := tr.hist;
    for i := 0 to |ps|
      invariant Indexed(w, t, tr, room, ps[..i], so, hist)
    {
      var next, hist' := IndexOne(t, room, ps, i, so, prevsOf, w, tr, hist);
      if next == None {
        return None, hist;
      }
      so, hist := next.value, hist';
    }
    assert ps[..|ps|] == ps;
    b := Some(so);
  }

  predicate Missing(b: Batch, id: Id) {
    id !in b.ids && !Visible(b.events, id)
  }

  method FilterMissing(edge: seq<Id>, b: Batch) returns (missing: seq<Id>)
    ensures forall id :: id in missing <==> id in edge && Missing(b, id)
  {
    missing := [];
    for i := 0 to |edge|
      invariant forall id :: id in missing <==> id in edge[..i] && Missing(b, id)
    {
      assert edge[..i + 1] == edge[..i] + [edge[i]];
      if Missing(b, edge[i]) {
        missing := missing + [edge[i]];
      }
    }
    assert edge[..|edge|] == edge;
  }

  /** What is still missing at the historical edge. */
  method Remaining(frontier: seq<Id>, b: Batch) returns (missing: seq<Id>)
    ensures forall id :: id in missing <==> (id in frontier || id in b.prevs) && Missing(b, id)
  {
    var edge := SortedIds((set id | id in frontier) + (set id | id in b.prevs));
    missing := FilterMissing(edge, b);
  }

  /** The frontier after an import: the edge, as far as it is not visible. */
  ghost predicate Edge(w: World, t: Tables, events': map<Id, Stored>, room: Room, ps: seq<Pdu>, frontier': seq<Id>)
    requires room in t.rooms
  {
    forall id :: id in frontier' <==>
                 (id in t.rooms[room].frontier || Referenced(w, t.events, ps, id)) && !Visible(events', id)
  }

  lemma OldRowStays(w: World, t: Tables, tr: Trace, room: Room, ps: seq<Pdu>, b: Batch, m': RoomMeta, r: RowId, id: Id)
    requires room in t.rooms && BatchEvents(w, t.events, tr.log, ps, b) && Edge(w, t, b.events, room, ps, m'.frontier)
    requires RowOk(w, t.events, t.rooms, r, id) && t.rooms[room].nextHistoryIdx <= m'.nextHistoryIdx
    ensures RowOk(w, b.events, t.rooms[room := m'], r, id)
  {
  }

  lemma NewRowStands(w: World, t: Tables, tr: Trace, room: Room, ps: seq<Pdu>, b: Batch, m': RoomMeta, lo: nat,
                     r: RowId, id: Id)
    requires room in t.rooms && NulFree(room) && BatchEvents(w, t.events, tr.log, ps, b)
    requires Edge(w, t, b.events, room, ps, m'.frontier)
    requires NewRow(w, t.events, room, lo, ps, m'.nextHistoryIdx, r, id)
    ensures RowOk(w, b.events, t.rooms[room := m'], r, id)
  {
  }

  /** The import keeps the history closed. */
  lemma BatchHistory(w: World, t: Tables, tr: Trace, room: Room, ps: seq<Pdu>, b: Batch, hist: map<RowId, Id>,
                     m': RoomMeta)
    requires Sound(w, t, tr) && room in t.rooms && NulFree(room) && Indexed(w, t, tr, room, ps, b, hist)
    requires Edge(w, t, b.events, room, ps, m'.frontier) && m'.nextHistoryIdx == b.idx <= U64_MAX
    ensures HistoryOk(w, b.events, t.rooms[room := m'], hist)
  {
    forall r | r in hist ensures RowOk(w, b.events, t.rooms[room := m'], r, hist[r]) {
      if r in tr.hist {
        OldRowStays(w, t, tr, room, ps, b, m', r, hist[r]);
      } else {
        NewRowStands(w, t, tr, room, ps, b, m', t.rooms[room].nextHistoryIdx, r, hist[r]);
      }
    }
  }

  /** What a history import does: errors change nothing, else exactly the batch is indexed. */
  ghost predicate HistoryTaken(w: World, t: Tables, cmd: HistoryCmd, r: Result<Response, Error>, t': Tables) {
    if cmd.room !in t.rooms then r == Err(UnknownRoom) && t' == t
    else if exists i :: 0 <= i < |cmd.events| && !Readable(w, t.events, cmd.events[i].id)
    then r == Err(BadBody) && t' == t
    else r.Ok? && Imported(w, t, cmd, r.value, t')
  }

  /** Nothing is logged, and history rows are only added. */
  ghost predicate HistoryLogged(r: Result<Response, Error>, tr: Trace, tr': Trace) {
    && (r.Err? ==> tr' == tr) && tr'.log == tr.log && tr'.emitted == tr.emitted
    && forall q :: q in tr.hist ==> q in tr'.hist && tr'.hist[q] == tr.hist[q]
  }

  method ApplyHistory(t: Tables, cmd: HistoryCmd, prevsOf: Bytes -> Option<seq<Id>>, ghost w: World, ghost tr: Trace)
    returns (r: Result<Response, Error>, t': Tables, ghost tr': Trace)
    requires Sound(w, t, tr) && NulFree(cmd.room) && AllGenuine(w, cmd.room, cmd.events) && w.prevsOf == prevsOf
    requires cmd.room in t.rooms ==> t.rooms[cmd.room].nextHistoryIdx + |cmd.events| <= U64_MAX
    ensures HistoryTaken(w, t, cmd, r, t')
    ensures Sound(w, t', tr') && HistoryLogged(r, tr, tr')
  {
    t', tr' := t, tr;
    if cmd.room !in t.rooms {
      return Err(UnknownRoom), t, tr;
    }
    var m := t.rooms[cmd.room];
    var b, hist := IndexAll(t, cmd.room, cmd.events, prevsOf, w, tr);
    if b == None {
      return Err(BadBody), t, tr;
    }
    var missing := Remaining(m.frontier, b.value);
    var m' := m.(frontier := missing, nextHistoryIdx := b.value.idx);
    t' := Tables(b.value.events, t.journal, t.roomSeq, b.value.history, t.rooms[cmd.room := m'], t.receipts, t.seqNo);
    tr' := tr.(hist := hist);
    var done := History(b.value.idx - m.nextHistoryIdx, missing == []);
    HistoryImported(w, t, tr, cmd, b.value, hist, m', t', tr', done);
    NoBadBody(w, t, tr, cmd, b.value, hist);
    r := Ok(done);
  }

  /** The event is on the timeline or has a history index. */
  ghost predicate Shown(events: map<Id, Stored>, id: Id) {
    id in events && (events[id].seqNo > 0 || events[id].historyIdx.Some?)
  }

  /** Exactly the batch became visible, and the frontier is exactly what is missing behind it. */
  ghost predicate Imported(w: World, t: Tables, cmd: HistoryCmd, r: Response, t': Tables) {
    && cmd.room in t.rooms && cmd.room in t'.rooms && r.History? && t'.receipts == t.receipts
    && BatchStored(t.events, t'.events, cmd.events)
    && (forall id :: Visible(t'.events, id) <==> Visible(t.events, id) || Listed(cmd.events, id))
    && (forall id :: Listed(cmd.events, id) ==> Shown(t'.events, id))
    && Edge(w, t, t'.events, cmd.room, cmd.events, t'.rooms[cmd.room].frontier)
    && t'.rooms == t.rooms[cmd.room :=
         t.rooms[cmd.room].(frontier := t'.rooms[cmd.room].frontier,
                            nextHistoryIdx := t.rooms[cmd.room].nextHistoryIdx + r.indexed)]
    && (r.complete <==> t'.rooms[cmd.room].frontier == [])
  }

  lemma HistoryImported(w: World, t: Tables, tr: Trace, cmd: HistoryCmd, b: Batch, hist: map<RowId, Id>, m': RoomMeta,
                        t': Tables, tr': Trace, done: Response)
    requires Sound(w, t, tr) && cmd.room in t.rooms && NulFree(cmd.room)
    requires t.rooms[cmd.room].nextHistoryIdx + |cmd.events| <= U64_MAX
    requires Indexed(w, t, tr, cmd.room, cmd.events, b, hist) && m'.nextHistoryIdx == b.idx
    requires forall id :: id in m'.frontier <==>
                          (id in t.rooms[cmd.room].frontier || id in b.prevs) && Missing(b, id)
    requires t' == Tables(b.events, t.journal, t.roomSeq, b.history, t.rooms[cmd.room := m'], t.receipts, t.seqNo)
    requires m' == t.rooms[cmd.room].(frontier := m'.frontier, nextHistoryIdx := b.idx)
    requires done.History? && done.indexed == b.idx - t.rooms[cmd.room].nextHistoryIdx
    requires done.complete <==> m'.frontier == []
    requires tr' == tr.(hist := hist)
    ensures Sound(w, t', tr') && Imported(w, t, cmd, done, t') && HistoryLogged(Ok(done), tr, tr')
  {
    EdgeExact(w, t, tr, cmd.room, cmd.events, b, m'.frontier);
    HistorySound(w, t, tr, cmd, b, hist, m', t', tr');
    ListedShown(w, t, tr, cmd.events, b);
  }

  lemma ListedShown(w: World, t: Tables, tr: Trace, ps: seq<Pdu>, b: Batch)
    requires BatchEvents(w, t.events, tr.log, ps, b)
    ensures forall id :: Listed(ps, id) ==> Shown(b.events, id)
  {
    forall id | Listed(ps, id) ensures Shown(b.events, id) {
      assert Visible(b.events, id);
    }
  }

  lemma HistorySound(w: World, t: Tables, tr: Trace, cmd: HistoryCmd, b: Batch, hist: map<RowId, Id>, m': RoomMeta,
                     t': Tables, tr': Trace)
    requires Sound(w, t, tr) && cmd.room in t.rooms && NulFree(cmd.room)
    requires t.rooms[cmd.room].nextHistoryIdx + |cmd.events| <= U64_MAX
    requires Indexed(w, t, tr, cmd.room, cmd.events, b, hist) && m'.nextHistoryIdx == b.idx
    requires Edge(w, t, b.events, cmd.room, cmd.events, m'.frontier)
    requires t' == Tables(b.events, t.journal, t.roomSeq, b.history, t.rooms[cmd.room := m'], t.receipts, t.seqNo)
    requires tr' == tr.(hist := hist)
    ensures Sound(w, t', tr')
  {
    BatchHistory(w, t, tr, cmd.room, cmd.events, b, hist, m');
  }

  lemma NoBadBody(w: World, t: Tables, tr: Trace, cmd: HistoryCmd, b: Batch, hist: map<RowId, Id>)
    requires cmd.room in t.rooms && Indexed(w, t, tr, cmd.room, cmd.events, b, hist)
    ensures !exists i :: 0 <= i < |cmd.events| && !Readable(w, t.events, cmd.events[i].id)
  {
  }

  lemma EdgeExact(w: World, t: Tables, tr: Trace, room: Room, ps: seq<Pdu>, b: Batch, frontier': seq<Id>)
    requires room in t.rooms && BatchEvents(w, t.events, tr.log, ps, b)
    requires forall id :: id in frontier' <==>
                          (id in t.rooms[room].frontier || id in b.prevs) && Missing(b, id)
    ensures Edge(w, t, b.events, room, ps, frontier')
  {
  }

  /** With an empty frontier, a room's indexed history is closed under prev events. */
  lemma CompleteIsClosed(w: World, t: Tables, tr: Trace, r: RowId, p: Id)
    requires Sound(w, t, tr) && r in tr.hist && r.0 in t.rooms && t.rooms[r.0].frontier == []
    requires w.prevsOf(w.bodyOf(tr.hist[r])).Some? && p in w.prevsOf(w.bodyOf(tr.hist[r])).value
    ensures Shown(t.events, p)
  {
  }

  /** An event with a history index is in its room's history under that index. */
  lemma IndexedIsListed(w: World, t: Tables, tr: Trace, id: Id)
    requires Sound(w, t, tr) && id in t.events && t.events[id].historyIdx.Some?
    ensures var r := (w.roomOf(id), t.events[id].historyIdx.value); r in tr.hist && tr.hist[r] == id
  {
  }

  // ---------------------------------------------------------------- the shard

  datatype Command =
    | DoAppend(append: Append)
    | DoReceipt(receipt: ReceiptCmd)
    | DoImport(imported: Import)
    | DoSegment(segment: SegmentCmd)
    | DoHistory(history: HistoryCmd)

  /**
   * Ids determine rooms and bodies, rooms have no NUL, creates are not for rooms with backfilled
   * history, and counters have room.
   */
  ghost predicate Admissible(w: World, t: Tables, tr: Trace, c: Command) {
    match c
    case DoAppend(a) => Appendable(w, t, tr, a) && t.seqNo + 1 < U64_MAX
    case DoReceipt(_) => t.seqNo + 1 < U64_MAX
    case DoImport(i) =>
      && NulFree(i.room) && Genuine(w, i.room, i.join) && AllGenuine(w, i.room, i.events) && t.seqNo + 1 < U64_MAX
    case DoSegment(s) =>
      && NulFree(s.room) && AllGenuine(w, s.room, s.events) && AllGenuine(w, s.room, s.timeline)
      && t.seqNo + |s.timeline| < U64_MAX
    case DoHistory(h) =>
      && NulFree(h.room) && AllGenuine(w, h.room, h.events)
      && (h.room in t.rooms ==> t.rooms[h.room].nextHistoryIdx + |h.events| <= U64_MAX)
  }

  ghost predicate Done(w: World, t: Tables, c: Command, r: Result<Response, Error>, t': Tables) {
    match c
    case DoAppend(a) => Appended(t, a, r, t')
    case DoReceipt(a) => r.Ok? && ReceiptTaken(t, a, r.value, t')
    case DoImport(a) => r.Ok? && Joined(w, t, a, r.value, t')
    case DoSegment(a) => SegmentTaken(t, a, r, t')
    case DoHistory(a) => HistoryTaken(w, t, a, r, t')
  }

  ghost predicate Logged(t: Tables, c: Command, r: Result<Response, Error>, tr: Trace, tr': Trace) {
    match c
    case DoAppend(a) => AppendLogged(a, r, tr, tr')
    case DoReceipt(a) => r.Ok? && ReceiptLogged(a, r.value, tr, tr')
    case DoImport(a) => r.Ok? && JoinLogged(a, r.value, tr, tr')
    case DoSegment(a) => SegmentLogged(t, a, r, tr, tr')
    case DoHistory(a) => HistoryLogged(r, tr, tr')
  }

  lemma LoggedGrows(w: World, t: Tables, c: Command, r: Result<Response, Error>, t': Tables, tr: Trace, tr': Trace)
    requires Done(w, t, c, r, t') && Logged(t, c, r, tr, tr')
    ensures tr.log <= tr'.log && forall q :: q in tr.hist ==> q in tr'.hist && tr'.hist[q] == tr.hist[q]
    ensures r.Err? ==> t' == t && tr' == tr
  {
  }

  lemma EmittedGrows(w: World, t: Tables, tr: Trace, t': Tables, tr': Trace)
    requires TimelineOk(w, t, tr) && TimelineOk(w, t', tr') && tr.log <= tr'.log
    requires forall r :: r in tr.hist ==> r in tr'.hist && tr'.hist[r] == tr.hist[r]
    ensures Grows(tr, tr')
  {
  }

  // ---------------------------------------------------------------- extremities over runs

  /** A command that starts a room's record over, or sets its extremities. */
  predicate Replaces(c: Command, room: Room) {
    (c.DoAppend? && c.append.room == room) || (c.DoImport? && c.imported.room == room)
  }

  /** What a command that took effect names as an extremity of a room. */
  ghost predicate NamesExtremity(t: Tables, c: Command, r: Result<Response, Error>, room: Room, id: Id) {
    match c
    case DoAppend(a) => r.Ok? && r.value.Accepted? && a.room == room && id in a.extremities
    case DoImport(i) => r.Ok? && r.value.Accepted? && i.room == room && id == i.join.id
    case DoSegment(s) => r.Ok? && s.room == room && LastOf(Recovered(t.events, room, s.timeline)) == Some(id)
    case _ => false
  }

  lemma NamedIsExtremity(w: World, t: Tables, c: Command, r: Result<Response, Error>, t': Tables, room: Room, id: Id)
    requires Done(w, t, c, r, t') && NamesExtremity(t, c, r, room, id)
    ensures room in t'.rooms && id in t'.rooms[room].extremities
  {
  }

  /** Other commands keep a room's extremities, and what kind of room it is. */
  lemma ExtremitiesStay(w: World, t: Tables, c: Command, r: Result<Response, Error>, t': Tables, room: Room)
    requires Done(w, t, c, r, t') && room in t.rooms && !Replaces(c, room)
    ensures room in t'.rooms && t.rooms[room].extremities <= t'.rooms[room].extremities
    ensures t'.rooms[room].version == t.rooms[room].version && t'.rooms[room].createId == t.rooms[room].createId
  {
  }

  /** A run of commands, state by state. */
  ghost predicate Course(w: World, states: seq<Tables>, cs: seq<Command>, rs: seq<Result<Response, Error>>) {
    && |states| == |cs| + 1 && |rs| == |cs|
    && forall k :: 0 <= k < |cs| ==> Done(w, states[k], cs[k], rs[k], states[k + 1])
  }

  /**
   * What a command has named an extremity is one at the end of every run in which no later append or
   * import is for that room.
   */
  lemma {:induction false} NamedStays(w: World, states: seq<Tables>, cs: seq<Command>,
                                      rs: seq<Result<Response, Error>>, i: nat, j: nat, room: Room, id: Id)
    requires Course(w, states, cs, rs) && i < j <= |cs| && NamesExtremity(states[i], cs[i], rs[i], room, id)
    requires forall k :: i < k < j ==> !Replaces(cs[k], room)
    ensures room in states[j].rooms && id in states[j].rooms[room].extremities
    decreases j
  {
    assert Done(w, states[j - 1], cs[j - 1], rs[j - 1], states[j - 1 + 1]);
    if j == i + 1 {
      NamedIsExtremity(w, states[i], cs[i], rs[i], states[j], room, id);
    } else {
      NamedStays(w, states, cs, rs, i, j - 1, room, id);
      ExtremitiesStay(w, states[j - 1], cs[j - 1], rs[j - 1], states[j], room);
    }
  }

  method ApplyCommand(t: Tables, c: Command, prevsOf: Bytes -> Option<seq<Id>>, ghost w: World, ghost tr: Trace)
    returns (r: Result<Response, Error>, t': Tables, ghost tr': Trace)
    requires Sound(w, t, tr) && Admissible(w, t, tr, c) && w.prevsOf == prevsOf
    ensures Done(w, t, c, r, t')
    ensures Sound(w, t', tr') && Logged(t, c, r, tr, tr')
  {
    match c
    case DoAppend(a) =>
      r, t', tr' := ApplyAppend(t, a, w, tr);
    case DoReceipt(a) =>
      var x;
      x, t', tr' := ApplyReceipt(t, a, w, tr);
      r := Ok(x);
    case DoImport(a) =>
      var x;
      x, t', tr' := ApplyImport(t, a, w, tr);
      r := Ok(x);
    case DoSegment(a) =>
      r, t', tr' := ApplySegment(t, a, w, tr);
    case DoHistory(a) =>
      r, t', tr' := ApplyHistory(t, a, prevsOf, w, tr);
  }

  /** The room shard: its applied tables, and in ghost state everything it ever emitted. */
  class Shard {
    const prevsOf: Bytes -> Option<seq<Id>>
    ghost const world: World
    var tables: Tables
    ghost var trace: Trace

    ghost predicate Valid()
      reads this
    {
      world.prevsOf == prevsOf && Sound(world, tables, trace)
    }

    constructor (world: World)
      ensures Valid() && this.world == world && trace.log == [] && trace.emitted == [] && tables.events == map[]
    {
      this.world, prevsOf := world, world.prevsOf;
      tables := Tables(map[], map[], map[], map[], map[], map[], 0);
      trace := Trace([], [], map[], map[]);
    }

    /** Apply one command; an error leaves everything as it was. */
    method Apply(c: Command) returns (r: Result<Response, Error>)
      requires Valid() && Admissible(world, tables, trace, c)
      modifies this`tables, this`trace
      ensures Valid() && Grows(old(trace), trace)
      ensures Done(world, old(tables), c, r, tables) && Logged(old(tables), c, r, old(trace), trace)
      ensures r.Err? ==> tables == old(tables) && trace == old(trace)
    {
      var t;
      ghost var tr;
      r, t, tr := ApplyCommand(tables, c, prevsOf, world, trace);
      LoggedGrows(world, tables, c, r, t, trace, tr);
      EmittedGrows(world, tables, trace, t, tr);
      tables, trace := t, tr;
    }

    /** A page of a room's timeline is the shard's timeline, filtered. */
    method RoomPage(room: Room, after: nat, until: Option<nat>, limit: nat, newestFirst: bool)
      returns (out: seq<(nat, Id)>)
      requires Valid() && NulFree(room) && after <= U64_MAX && (until.Some? ==> until.value <= U64_MAX)
      ensures var window := Window(trace.log, room, after, until);
              out == Take(if newestFirst then Reversed(window) else window, limit)
    {
      out := RoomTimeline(tables.roomSeq, room, after, until, limit, newestFirst, trace.log, trace.roomRows);
    }

    method TimelinePage(from: nat, limit: nat) returns (out: seq<(nat, SeqEntry)>)
      requires Valid() && from <= U64_MAX
      ensures out == Take(Entries(trace.log, Successor(from)), limit)
    {
      out := ReadTimeline(tables.journal, from, limit, trace.log, trace.emitted);
    }

    /** Replay tells a subscriber exactly what was emitted. */
    method ReplayPage(from: nat, limit: nat) returns (out: seq<(nat, Payload)>)
      requires Valid() && from <= U64_MAX
      ensures out == Take(Entries(trace.emitted, Successor(from)), limit)
    {
      out := Replay(tables.journal, from, limit, trace.log, trace.emitted);
    }
  }
}
