/**
 * Outbound event delivery: a worker scans a room shard's timeline from a floor, sends every
 * destination its events in order, and keeps a durable cursor per destination. Sends, cursor
 * writes and every read may fail at any point, destinations may be backing off, and who an event
 * must go to is looked up afresh in every pass.
 */
module Delivery {
  import opened Wrappers

  type Destination = string

  /** Who an event must go to, by its seq; receipts and imported events go to no one. */
  type Fanout = nat -> Servers

  type Cursors = map<Destination, nat>

  ghost predicate NoRepeats(ds: seq<Destination>) {
    forall i, j :: 0 <= i < j < |ds| ==> ds[i] != ds[j]
  }

  /** The servers of a room, each once. */
  type Servers = ds: seq<Destination> | NoRepeats(ds)

  type Ack = (Destination, nat)

  const SCAN_BATCH: nat := 256
  const MAX_PDUS_PER_TXN: nat := 50

  /**
   * What a pass meets. An event must go to the other servers in its room and, when it invites or
   * removes somebody, to that user's server. Any read and any send may fail.
   */
  datatype Outcome = Outcome(
    members: nat -> Servers,
    target: nat -> Option<Destination>,
    timelineRead: bool,
    eventRead: nat -> bool,
    membersRead: nat -> bool,
    cursorRead: Destination -> bool,
    ready: Destination -> bool,
    answered: (Destination, nat) -> bool,
    advanced: (Destination, nat) -> bool)

  ghost predicate AllWell(o: Outcome) {
    o.timelineRead && (forall d :: o.ready(d)) && (forall d, s :: o.answered(d, s))
  }

  function WithTarget(ds: Servers, target: Option<Destination>): Servers {
    if target.Some? && target.value !in ds then ds + [target.value] else ds
  }

  /** Who events must go to. */
  function Owners(o: Outcome): Fanout {
    (s: nat) => WithTarget(o.members(s), o.target(s))
  }

  /** Who the pass takes an event to be for: nobody if it cannot be looked up, and no members if they cannot. */
  function Listed(o: Outcome, s: nat): Servers {
    if !o.eventRead(s) then [] else WithTarget(if o.membersRead(s) then o.members(s) else [], o.target(s))
  }

  predicate Found(o: Outcome, d: Destination, s: nat) {
    d in Listed(o, s)
  }

  /** The servers in the room, and the one of whoever is invited or removed. */
  lemma OwnersMean(o: Outcome, d: Destination, s: nat)
    ensures d in Owners(o)(s) <==> d in o.members(s) || o.target(s) == Some(d)
  {
  }

  /** Only whom an event must go to, and exactly them if the reads they depend on succeed. */
  lemma FoundMeans(o: Outcome, d: Destination, s: nat)
    ensures Found(o, d, s) <==>
            d in Owners(o)(s) && o.eventRead(s) && (o.membersRead(s) || o.target(s) == Some(d))
  {
  }

  /** The destination's durable cursor was read and is already at or past the event. */
  predicate Overtaken(o: Outcome, cursors: Cursors, d: Destination, s: nat) {
    d in cursors && o.cursorRead(d) && s <= cursors[d]
  }

  /** What a pass has to send: an event found to be the destination's, above the cursor that was read. */
  predicate Sendable(o: Outcome, cursors: Cursors, d: Destination, s: nat) {
    Found(o, d, s) && !Overtaken(o, cursors, d, s)
  }

  // ---------------------------------------------------------------- one destination

  ghost predicate Ascending(q: seq<nat>) {
    forall i, j :: 0 <= i < j < |q| ==> q[i] < q[j]
  }

  /** A destination's cursor is as it was, or has moved up to one of the first events of a queue. */
  ghost predicate CursorMoves(was: Cursors, now: Cursors, d: Destination, queue: seq<nat>, count: nat)
    requires count <= |queue|
  {
    || ((d in now <==> d in was) && (d in was ==> now[d] == was[d]))
    || (d in now && now[d] in queue[..count] && (d in was ==> was[d] <= now[d]))
  }

  ghost predicate OthersStay(was: Cursors, now: Cursors, d: Destination) {
    forall e :: e != d ==> (e in now <==> e in was) && (e in was ==> now[e] == was[e])
  }

  /** A cursor advance: no cursor ever moves down, and the destination is at or past the mark. */
  method Advance(cursors: Cursors, d: Destination, upTo: nat) returns (cursors': Cursors)
    ensures OthersStay(cursors, cursors', d) && CursorMoves(cursors, cursors', d, [upTo], 1)
    ensures upTo > 0 ==> d in cursors' && cursors'[d] >= upTo
  {
    var current := if d in cursors then cursors[d] else 0;
    cursors' := if upTo > current then cursors[d := upTo] else cursors;
    assert [upTo][..1] == [upTo];
  }

  /**
   * Advances in whatever order they arrive, repeated or stale: the cursor ends at the highest of
   * where it was and all the marks.
   */
  method AdvanceAll(cursors: Cursors, d: Destination, marks: seq<nat>) returns (cursors': Cursors)
    ensures OthersStay(cursors, cursors', d)
    ensures d in cursors ==> d in cursors' && cursors[d] <= cursors'[d]
    ensures forall i :: 0 <= i < |marks| && marks[i] > 0 ==> d in cursors' && marks[i] <= cursors'[d]
    ensures d in cursors' ==> (d in cursors && cursors'[d] == cursors[d]) || cursors'[d] in marks
  {
    cursors' := cursors;
    for i := 0 to |marks|
      invariant OthersStay(cursors, cursors', d)
      invariant d in cursors ==> d in cursors' && cursors[d] <= cursors'[d]
      invariant forall j :: 0 <= j < i && marks[j] > 0 ==> d in cursors' && marks[j] <= cursors'[d]
      invariant d in cursors' ==> (d in cursors && cursors'[d] == cursors[d]) || cursors'[d] in marks
    {
      cursors' := Advance(cursors', d, marks[i]);
    }
  }

  /** The transaction that carries a place of the queue was answered. */
  ghost predicate Answered(o: Outcome, d: Destination, queue: seq<nat>, i: nat)
    requires i < |queue|
  {
    o.answered(d, queue[i / MAX_PDUS_PER_TXN * MAX_PDUS_PER_TXN])
  }

  /** If the last write succeeded, the cursor is at or past what was delivered. */
  ghost predicate Durable(o: Outcome, d: Destination, queue: seq<nat>, count: nat, now: Cursors)
    requires count <= |queue|
  {
    count > 0 && queue[count - 1] > 0 && o.advanced(d, queue[count - 1]) ==> d in now && queue[count - 1] <= now[d]
  }

  /**
   * Chunks strictly in order, up to the first that fails. `acked` is where the queue starts; the
   * result is where delivery stopped short, if it did.
   */
  method DeliverTo(d: Destination, queue: seq<nat>, acked: nat, cursors: Cursors, o: Outcome)
    returns (pull: Option<nat>, cursors': Cursors, ghost count: nat)
    requires Ascending(queue)
    ensures count <= |queue| && OthersStay(cursors, cursors', d) && CursorMoves(cursors, cursors', d, queue, count)
    ensures Stops(o, d, queue, count) && (pull == None <==> o.ready(d) && count == |queue|)
    ensures pull.Some? ==> pull.value == (if count == 0 then acked else queue[count - 1])
    ensures AllWell(o) ==> pull == None
    ensures Durable(o, d, queue, count, cursors')
  {
    cursors', count := cursors, 0;
    if !o.ready(d) {
      return Some(acked), cursors, 0;
    }
    var i, last := 0, acked;
    while i < |queue|
      invariant count == i <= |queue|
      invariant OthersStay(cursors, cursors', d) && CursorMoves(cursors, cursors', d, queue, count)
      invariant i % MAX_PDUS_PER_TXN == 0 || i == |queue|
      invariant Durable(o, d, queue, count, cursors')
      invariant forall j :: 0 <= j < count ==> Answered(o, d, queue, j)
      invariant last == (if i == 0 then acked else queue[i - 1])
    {
      var next := if i + MAX_PDUS_PER_TXN < |queue| then i + MAX_PDUS_PER_TXN else |queue|;
      if !o.answered(d, queue[i]) {
        return Some(last), cursors', count;
      }
      last := queue[next - 1];
      ghost var before := cursors';
      if o.advanced(d, last) {
        cursors' := Advance(cursors', d, last);
      }
      CursorSteps(d, queue, count, next, cursors, before, cursors');
      forall j | i <= j < next ensures Answered(o, d, queue, j) {
        assert j / MAX_PDUS_PER_TXN * MAX_PDUS_PER_TXN == i;
      }
      i, count := next, next;
    }
    pull := None;
  }

  lemma CursorSteps(d: Destination, queue: seq<nat>, count: nat, next: nat, was: Cursors, before: Cursors, now: Cursors)
    requires count < next <= |queue| && Ascending(queue) && CursorMoves(was, before, d, queue, count)
    requires CursorMoves(before, now, d, [queue[next - 1]], 1)
    ensures CursorMoves(was, now, d, queue, next)
  {
    assert queue[..next][next - 1] == queue[next - 1];
    assert queue[..count] <= queue[..next];
  }

  // ---------------------------------------------------------------- scanning a batch

  /** What a scan has gathered: a starting cursor and a queue per destination. */
  datatype Scan = Scan(cursors: Cursors, queues: map<Destination, seq<nat>>)

  predicate InQueue(c: Scan, d: Destination, s: nat) {
    d in c.queues && s in c.queues[d]
  }

  /** Where a queue starts: at the durable cursor where it was read, else one before the first event found. */
  ghost predicate StartsFrom(o: Outcome, floor: nat, cursors: Cursors, d: Destination, start: nat) {
    if d in cursors && o.cursorRead(d) then start == cursors[d]
    else floor <= start && Found(o, d, start + 1) && forall s: nat :: floor < s <= start ==> !Found(o, d, s)
  }

  /** The starting cursors of everybody an event before m was found for. */
  ghost predicate CursorsOk(o: Outcome, floor: nat, m: nat, cursors: Cursors, c: Scan) {
    && Starts(o, floor, cursors, c)
    && (forall d :: d in c.cursors && !(d in cursors && o.cursorRead(d)) ==> c.cursors[d] < m)
    && (forall d, s: nat :: floor < s < m && Found(o, d, s) ==> d in c.cursors)
  }

  ghost predicate QueuesOk(c: Scan) {
    forall d :: d in c.queues ==> d in c.cursors && QueueOk(c.cursors[d], c.queues[d])
  }

  ghost predicate QueueOk(cursor: nat, queue: seq<nat>) {
    queue != [] && Ascending(queue) && forall i :: 0 <= i < |queue| ==> cursor < queue[i]
  }

  /** What is in the queues: everything to be sent up to m, and of m itself only to some. */
  ghost predicate Queued(o: Outcome, floor: nat, m: nat, cursors: Cursors, c: Scan, some: seq<Destination>) {
    forall d, s: nat :: InQueue(c, d, s) <==>
      Sendable(o, cursors, d, s) && floor < s <= m && (s == m ==> d in some)
  }

  ghost predicate Scanning(o: Outcome, floor: nat, m: nat, cursors: Cursors, c: Scan, some: seq<Destination>) {
    && CursorsOk(o, floor, m, cursors, c) && (forall d :: d in some ==> d in c.cursors)
    && QueuesOk(c) && Queued(o, floor, m, cursors, c, some) && UpTo(c, m)
  }

  ghost predicate UpTo(c: Scan, m: nat) {
    forall d :: d in c.queues ==> forall i :: 0 <= i < |c.queues[d]| ==> c.queues[d][i] <= m
  }

  /** A batch was scanned: the queues hold, in order, exactly what is to be sent of it. */
  ghost predicate Scanned(o: Outcome, floor: nat, last: nat, cursors: Cursors, c: Scan) {
    && floor <= last && QueuesOk(c)
    && forall d, s: nat :: InQueue(c, d, s) <==> Sendable(o, cursors, d, s) && floor < s <= last
  }

  ghost predicate Starts(o: Outcome, floor: nat, cursors: Cursors, c: Scan) {
    forall d :: d in c.cursors ==> StartsFrom(o, floor, cursors, d, c.cursors[d])
  }

  /** The cursor a destination's queue starts from. */
  function StartingCursor(s: nat, d: Destination, cursors: Cursors, o: Outcome, c: Scan): nat
    requires s > 0
  {
    if d in c.cursors then c.cursors[d] else if d in cursors && o.cursorRead(d) then cursors[d] else s - 1
  }

  lemma StartingCursorStarts(floor: nat, s: nat, d: Destination, cursors: Cursors, o: Outcome, c: Scan)
    requires floor < s && Found(o, d, s) && CursorsOk(o, floor, s, cursors, c)
    ensures var start := StartingCursor(s, d, cursors, o, c);
            && StartsFrom(o, floor, cursors, d, start)
            && (d in cursors && o.cursorRead(d) ==> start == cursors[d])
            && (!(d in cursors && o.cursorRead(d)) ==> start < s)
  {
  }

  lemma StartingCursorDecides(floor: nat, s: nat, d: Destination, cursors: Cursors, o: Outcome, c: Scan)
    requires floor < s && Found(o, d, s) && CursorsOk(o, floor, s, cursors, c)
    ensures Sendable(o, cursors, d, s) <==> s > StartingCursor(s, d, cursors, o, c)
    ensures CursorsOk(o, floor, s, cursors, c.(cursors := c.cursors[d := StartingCursor(s, d, cursors, o, c)]))
  {
    var start := StartingCursor(s, d, cursors, o, c);
    StartingCursorStarts(floor, s, d, cursors, o, c);
    var c' := c.(cursors := c.cursors[d := start]);
    forall e | e in c'.cursors ensures StartsFrom(o, floor, cursors, e, c'.cursors[e]) {
      assert e != d ==> StartsFrom(o, floor, cursors, e, c.cursors[e]);
    }
  }

  /** The destination's queue with the event appended. */
  function Enqueued(c: Scan, d: Destination, s: nat): map<Destination, seq<nat>> {
    c.queues[d := (if d in c.queues then c.queues[d] else []) + [s]]
  }

  lemma QueuedNext(o: Outcome, floor: nat, s: nat, cursors: Cursors, c: Scan, c': Scan, some: seq<Destination>,
                   d: Destination)
    requires floor < s && Found(o, d, s) && Queued(o, floor, s, cursors, c, some)
    requires c'.queues == (if Sendable(o, cursors, d, s) then Enqueued(c, d, s) else c.queues)
    ensures Queued(o, floor, s, cursors, c', some + [d])
  {
    var q := if d in c.queues then c.queues[d] else [];
    assert forall t :: t in q + [s] <==> t in q || t == s;
    forall e, t: nat
      ensures InQueue(c', e, t) <==> InQueue(c, e, t) || (e == d && t == s && Sendable(o, cursors, d, s))
    {
    }
  }

  lemma QueuesNext(c: Scan, d: Destination, cursor: nat, s: nat)
    requires QueuesOk(c) && UpTo(c, s) && (d in c.cursors ==> c.cursors[d] == cursor) && cursor < s && !InQueue(c, d, s)
    ensures var c' := Scan(c.cursors[d := cursor], Enqueued(c, d, s)); QueuesOk(c') && UpTo(c', s)
  {
  }

  /** One destination of one event. */
  method ScanOne(s: nat, d: Destination, cursors: Cursors, o: Outcome, c: Scan,
                 ghost floor: nat, ghost some: seq<Destination>)
    returns (c': Scan)
    requires floor < s && Found(o, d, s) && Scanning(o, floor, s, cursors, c, some) && d !in some
    ensures Scanning(o, floor, s, cursors, c', some + [d])
  {
    var cursor := StartingCursor(s, d, cursors, o, c);
    StartingCursorDecides(floor, s, d, cursors, o, c);
    c' := Scan(c.cursors[d := cursor], if s > cursor then Enqueued(c, d, s) else c.queues);
    QueuedNext(o, floor, s, cursors, c, c', some, d);
    if s > cursor {
      QueuesNext(c, d, cursor, s);
    }
  }

  /** Every destination of one event. */
  method ScanEvent(s: nat, cursors: Cursors, o: Outcome, c: Scan, ghost floor: nat) returns (c': Scan)
    requires floor < s && Scanning(o, floor, s, cursors, c, [])
    ensures Scanning(o, floor, s + 1, cursors, c', [])
  {
    c' := c;
    var ds := Listed(o, s);
    ghost var some := [];
    for i := 0 to |ds|
      invariant some == ds[..i] && Scanning(o, floor, s, cursors, c', some)
    {
      NotYet(ds, some, i);
      c' := ScanOne(s, ds[i], cursors, o, c', floor, some);
      some := some + [ds[i]];
    }
    assert some == ds;
    ScanNext(o, floor, s, cursors, c');
  }

  lemma NotYet(ds: Servers, some: seq<Destination>, i: nat)
    requires i < |ds| && some == ds[..i]
    ensures ds[i] !in some && some + [ds[i]] == ds[..i + 1]
  {
    assert forall j :: 0 <= j < i ==> some[j] == ds[j];
  }

  lemma ScanNext(o: Outcome, floor: nat, s: nat, cursors: Cursors, c: Scan)
    requires floor < s && Scanning(o, floor, s, cursors, c, Listed(o, s))
    ensures Scanning(o, floor, s + 1, cursors, c, [])
  {
    CursorsNext(o, floor, s, cursors, c);
    QueuedAll(o, floor, s, cursors, c);
  }

  lemma CursorsNext(o: Outcome, floor: nat, s: nat, cursors: Cursors, c: Scan)
    requires CursorsOk(o, floor, s, cursors, c) && forall d :: d in Listed(o, s) ==> d in c.cursors
    ensures CursorsOk(o, floor, s + 1, cursors, c)
  {
    forall d, t: nat | floor < t < s + 1 && Found(o, d, t) ensures d in c.cursors {
      assert t == s ==> d in Listed(o, s);
    }
  }

  lemma QueuedAll(o: Outcome, floor: nat, s: nat, cursors: Cursors, c: Scan)
    requires floor < s && Queued(o, floor, s, cursors, c, Listed(o, s))
    ensures Queued(o, floor, s + 1, cursors, c, [])
  {
  }

  /** The whole batch. */
  method ScanBatch(floor: nat, last: nat, cursors: Cursors, o: Outcome) returns (c: Scan)
    requires floor <= last
    ensures Scanned(o, floor, last, cursors, c) && Starts(o, floor, cursors, c)
  {
    c := Scan(map[], map[]);
    for s := floor + 1 to last + 1
      invariant Scanning(o, floor, s, cursors, c, [])
    {
      c := ScanEvent(s, cursors, o, c, floor);
    }
  }

  // ---------------------------------------------------------------- the fan-out

  /** Delivery stops exactly there: nothing is sent to who is backing off, else all up to the first unanswered. */
  ghost predicate Stops(o: Outcome, d: Destination, queue: seq<nat>, count: nat)
    requires count <= |queue|
  {
    if !o.ready(d) then count == 0
    else (forall i :: 0 <= i < count ==> Answered(o, d, queue, i)) &&
         (count < |queue| ==> !Answered(o, d, queue, count))
  }

  /** Where delivery to a destination got to. */
  ghost function Stop(c: Scan, d: Destination, count: nat): nat
    requires d in c.queues && d in c.cursors && count <= |c.queues[d]|
  {
    if count == 0 then c.cursors[d] else c.queues[d][count - 1]
  }

  ghost predicate FellShort(c: Scan, counts: map<Destination, nat>, d: Destination) {
    d in counts && d in c.queues && d in c.cursors && counts[d] < |c.queues[d]|
  }

  /** The floor is the end of the batch, or where some destination that fell short got to. */
  ghost predicate FloorAt(c: Scan, counts: map<Destination, nat>, last: nat, newFloor: nat) {
    newFloor == last || exists d :: FellShort(c, counts, d) && newFloor == Stop(c, d, counts[d])
  }

  /** A destination was served: how much of its queue was answered, and how far the floor may go. */
  ghost predicate Served(o: Outcome, c: Scan, was: Cursors, now: Cursors, d: Destination, count: nat, newFloor: nat) {
    && d in c.queues && d in c.cursors && count <= |c.queues[d]|
    && CursorMoves(was, now, d, c.queues[d], count) && Durable(o, d, c.queues[d], count, now)
    && Stops(o, d, c.queues[d], count)
    && (newFloor <= c.cursors[d] || count == |c.queues[d]| || (count > 0 && newFloor <= c.queues[d][count - 1]))
  }

  ghost predicate CursorStays(was: Cursors, now: Cursors, d: Destination) {
    (d in now <==> d in was) && (d in was ==> now[d] == was[d])
  }

  /** Everyone counted was served, and nobody else's cursor has moved. */
  ghost predicate FannedOut(o: Outcome, c: Scan, was: Cursors, now: Cursors, counts: map<Destination, nat>,
                            newFloor: nat)
  {
    && (forall d :: d in counts ==> Served(o, c, was, now, d, counts[d], newFloor))
    && (forall d :: d !in counts ==> CursorStays(was, now, d))
  }

  lemma FannedOutNext(o: Outcome, c: Scan, was: Cursors, mid: Cursors, now: Cursors, counts: map<Destination, nat>,
                      floor: nat, d: Destination, count: nat, newFloor: nat)
    requires FannedOut(o, c, was, mid, counts, floor) && d !in counts && newFloor <= floor
    requires OthersStay(mid, now, d) && Served(o, c, mid, now, d, count, newFloor)
    ensures FannedOut(o, c, was, now, counts[d := count], newFloor)
  {
    forall e | e in counts ensures Served(o, c, was, now, e, counts[e], newFloor) {
      assert Served(o, c, was, mid, e, counts[e], floor);
    }
  }

  lemma FloorNext(c: Scan, counts: map<Destination, nat>, last: nat, floor: nat, d: Destination, count: nat,
                  pull: Option<nat>, pulled: nat)
    requires FloorAt(c, counts, last, floor) && d !in counts && d in c.queues && d in c.cursors
    requires count <= |c.queues[d]|
    requires pull.Some? ==> count < |c.queues[d]| && pull.value == Stop(c, d, count)
    requires pulled == if pull.Some? && pull.value < floor then pull.value else floor
    ensures FloorAt(c, counts[d := count], last, pulled)
  {
    if pulled == floor && floor != last {
      var e :| FellShort(c, counts, e) && floor == Stop(c, e, counts[e]);
      assert FellShort(c, counts[d := count], e);
    } else if pulled != floor {
      assert FellShort(c, counts[d := count], d);
    }
  }

  /** Serve the destinations one after the other and pull the floor back to the slowest. */
  method FanOut(c: Scan, last: nat, cursors: Cursors, o: Outcome)
    returns (newFloor: nat, cursors': Cursors, ghost counts: map<Destination, nat>)
    requires QueuesOk(c)
    ensures newFloor <= last && counts.Keys == c.queues.Keys
    ensures FannedOut(o, c, cursors, cursors', counts, newFloor) && FloorAt(c, counts, last, newFloor)
    ensures AllWell(o) ==> newFloor == last
  {
    newFloor, cursors', counts := last, cursors, map[];
    var todo := c.queues.Keys;
    while todo != {}
      invariant todo <= c.queues.Keys && counts.Keys == c.queues.Keys - todo && newFloor <= last
      invariant FannedOut(o, c, cursors, cursors', counts, newFloor) && FloorAt(c, counts, last, newFloor)
      invariant AllWell(o) ==> newFloor == last
      decreases todo
    {
      var d :| d in todo;
      var pull, now, count := DeliverTo(d, c.queues[d], c.cursors[d], cursors', o);
      var pulled := if pull.Some? && pull.value < newFloor then pull.value else newFloor;
      FannedOutNext(o, c, cursors, cursors', now, counts, newFloor, d, count, pulled);
      FloorNext(c, counts, last, newFloor, d, count, pull, pulled);
      todo, cursors', newFloor, counts := todo - {d}, now, pulled, counts[d := count];
    }
  }

  // ---------------------------------------------------------------- what a pass does

  /** The floor or the destination's durable cursor moves past the event in this pass. */
  predicate MovedPast(floor': nat, was: Cursors, now: Cursors, d: Destination, s: nat) {
    s <= floor' || (d in now && s <= now[d] && !(d in was && s <= was[d]))
  }

  /** The destination acknowledges a later event in this pass. */
  ghost predicate AckedPast(acked: set<Ack>, acked': set<Ack>, d: Destination, s: nat) {
    exists t :: t > s && (d, t) in acked' && (d, t) !in acked
  }

  /** A scanned event that the floor, the destination's cursor or a later acknowledgement passes. */
  ghost predicate PassedOver(floor: nat, last: nat, floor': nat, was: Cursors, now: Cursors,
                             acked: set<Ack>, acked': set<Ack>, d: Destination, s: nat)
  {
    floor < s <= last && (MovedPast(floor', was, now, d, s) || AckedPast(acked, acked', d, s))
  }

  /** A new acknowledgement: an event that was to be sent, in a transaction that was answered. */
  ghost predicate Granted(o: Outcome, floor: nat, last: nat, cursors: Cursors, a: Ack) {
    && floor < a.1 <= last && Sendable(o, cursors, a.0, a.1) && o.ready(a.0)
    && exists t :: floor < t <= a.1 && o.answered(a.0, t)
  }

  /**
   * A pass from a floor: only answered transactions are acknowledged, whatever was to be sent and
   * is passed by the floor, a cursor or a later acknowledgement is acknowledged, and cursors move
   * up to acknowledged events only.
   */
  ghost predicate Passed(o: Outcome, floor: nat, last: nat, floor': nat, was: Cursors, now: Cursors,
                         acked: set<Ack>, acked': set<Ack>)
  {
    && floor <= floor' <= last && acked <= acked'
    && (forall a :: a in acked' && a !in acked ==> Granted(o, floor, last, was, a))
    && (forall d, s: nat :: PassedOver(floor, last, floor', was, now, acked, acked', d, s) && Sendable(o, was, d, s) ==>
          (d, s) in acked')
    && (forall d :: d in was ==> d in now && was[d] <= now[d])
    && (forall d :: d in now ==>
          CursorStays(was, now, d) || ((d, now[d]) in acked' && floor < now[d] <= last))
    && (forall a :: a in acked' && a !in acked && Writable(o, a.0) ==> a.0 in now && a.1 <= now[a.0])
  }

  /** Every cursor write for the destination succeeds. */
  ghost predicate Writable(o: Outcome, d: Destination) {
    forall s: nat :: o.advanced(d, s)
  }

  ghost predicate Sent(c: Scan, counts: map<Destination, nat>, d: Destination, s: nat) {
    d in counts && d in c.queues && counts[d] <= |c.queues[d]| && s in c.queues[d][..counts[d]]
  }

  ghost function Acks(c: Scan, counts: map<Destination, nat>): set<Ack> {
    set d, s | d in c.queues && s in c.queues[d] && Sent(c, counts, d, s) :: (d, s)
  }

  lemma PlaceAnswered(o: Outcome, d: Destination, q: seq<nat>, count: nat, i: nat) returns (h: nat)
    requires count <= |q| && Stops(o, d, q, count) && i < count
    ensures o.ready(d) && h <= i && o.answered(d, q[h])
  {
    assert Answered(o, d, q, i);
    h := i / MAX_PDUS_PER_TXN * MAX_PDUS_PER_TXN;
  }

  lemma AnsweredGranted(o: Outcome, floor: nat, last: nat, was: Cursors, c: Scan, d: Destination, count: nat, i: nat)
    requires Scanned(o, floor, last, was, c) && d in c.queues && count <= |c.queues[d]| && i < count
    requires Stops(o, d, c.queues[d], count)
    ensures Granted(o, floor, last, was, (d, c.queues[d][i]))
  {
    var q := c.queues[d];
    var h := PlaceAnswered(o, d, q, count, i);
    assert InQueue(c, d, q[i]) && InQueue(c, d, q[h]);
    assert QueueOk(c.cursors[d], q);
    assert floor < q[h] <= q[i];
  }

  lemma AnsweredDurable(o: Outcome, d: Destination, q: seq<nat>, count: nat, now: Cursors, i: nat)
    requires count <= |q| && Ascending(q) && i < count && q[i] > 0 && Durable(o, d, q, count, now) && Writable(o, d)
    ensures d in now && q[i] <= now[d]
  {
    assert q[i] <= q[count - 1];
  }

  lemma SentGranted(o: Outcome, floor: nat, last: nat, was: Cursors, now: Cursors, c: Scan,
                    counts: map<Destination, nat>, newFloor: nat, d: Destination, s: nat)
    requires Scanned(o, floor, last, was, c) && FannedOut(o, c, was, now, counts, newFloor) && Sent(c, counts, d, s)
    ensures Granted(o, floor, last, was, (d, s)) && (Writable(o, d) ==> d in now && s <= now[d])
  {
    var q := c.queues[d];
    assert Served(o, c, was, now, d, counts[d], newFloor) && QueueOk(c.cursors[d], q);
    var i: nat :| i < counts[d] && q[i] == s;
    AnsweredGranted(o, floor, last, was, c, d, counts[d], i);
    if Writable(o, d) {
      AnsweredDurable(o, d, q, counts[d], now, i);
    }
  }

  /** Of an ascending queue, what is not above a member of its first part is in that part by value. */
  lemma FirstPart(q: seq<nat>, count: nat, s: nat, t: nat)
    requires Ascending(q) && count <= |q| && s in q && t in q[..count] && s <= t
    ensures s in q[..count]
  {
    var j :| 0 <= j < count && q[..count][j] == t;
    var i :| 0 <= i < |q| && q[i] == s;
    assert i <= j;
    assert q[..count][i] == s;
  }

  /** What the floor or the cursor has moved past, or a later answer, was answered. */
  lemma BehindStop(q: seq<nat>, count: nat, cursor: nat, s: nat, mark: nat)
    requires QueueOk(cursor, q) && count <= |q| && s in q && s <= mark
    requires mark <= cursor || count == |q| || (count > 0 && mark <= q[count - 1])
    ensures s in q[..count]
  {
    if count == |q| {
      assert q[..count] == q;
    } else {
      assert count > 0 && q[..count][count - 1] == q[count - 1];
      FirstPart(q, count, s, q[count - 1]);
    }
  }

  lemma BehindIsSent(q: seq<nat>, count: nat, cursor: nat, was: Cursors, now: Cursors, d: Destination, newFloor: nat,
                     s: nat)
    requires QueueOk(cursor, q) && count <= |q| && s in q && CursorMoves(was, now, d, q, count)
    requires newFloor <= cursor || count == |q| || (count > 0 && newFloor <= q[count - 1])
    requires MovedPast(newFloor, was, now, d, s) || exists t :: t > s && t in q[..count]
    ensures s in q[..count]
  {
    if t :| t > s && t in q[..count] {
      FirstPart(q, count, s, t);
    } else if s <= newFloor {
      BehindStop(q, count, cursor, s, newFloor);
    } else {
      FirstPart(q, count, s, now[d]);
    }
  }

  lemma ServedSoFar(o: Outcome, c: Scan, was: Cursors, now: Cursors, counts: map<Destination, nat>, newFloor: nat,
                    d: Destination)
    requires QueuesOk(c) && FannedOut(o, c, was, now, counts, newFloor) && d in counts
    ensures d in c.queues && d in c.cursors && counts[d] <= |c.queues[d]| && QueueOk(c.cursors[d], c.queues[d])
    ensures CursorMoves(was, now, d, c.queues[d], counts[d])
    ensures newFloor <= c.cursors[d] || counts[d] == |c.queues[d]| ||
            (counts[d] > 0 && newFloor <= c.queues[d][counts[d] - 1])
    ensures forall t :: Sent(c, counts, d, t) ==> t in c.queues[d][..counts[d]]
  {
    assert Served(o, c, was, now, d, counts[d], newFloor);
  }

  lemma PassedAreSent(o: Outcome, floor: nat, last: nat, was: Cursors, now: Cursors, c: Scan,
                      counts: map<Destination, nat>, newFloor: nat, d: Destination, s: nat)
    requires Scanned(o, floor, last, was, c) && FannedOut(o, c, was, now, counts, newFloor)
    requires counts.Keys == c.queues.Keys && floor < s <= last && Sendable(o, was, d, s)
    requires MovedPast(newFloor, was, now, d, s) || exists t :: t > s && Sent(c, counts, d, t)
    ensures Sent(c, counts, d, s)
  {
    assert InQueue(c, d, s);
    ServedSoFar(o, c, was, now, counts, newFloor, d);
    BehindIsSent(c.queues[d], counts[d], c.cursors[d], was, now, d, newFloor, s);
  }

  lemma AcksGranted(o: Outcome, floor: nat, last: nat, newFloor: nat, was: Cursors, now: Cursors, c: Scan,
                    counts: map<Destination, nat>)
    requires Scanned(o, floor, last, was, c) && FannedOut(o, c, was, now, counts, newFloor)
    ensures AllGranted(o, floor, last, was, now, Acks(c, counts))
  {
    forall a | a in Acks(c, counts)
      ensures Granted(o, floor, last, was, a) && (Writable(o, a.0) ==> a.0 in now && a.1 <= now[a.0])
    {
      SentGranted(o, floor, last, was, now, c, counts, newFloor, a.0, a.1);
    }
  }

  lemma PassedAreAcked(o: Outcome, floor: nat, last: nat, newFloor: nat, was: Cursors, now: Cursors, c: Scan,
                       counts: map<Destination, nat>, acked: set<Ack>, d: Destination, s: nat)
    requires Scanned(o, floor, last, was, c) && FannedOut(o, c, was, now, counts, newFloor)
    requires counts.Keys == c.queues.Keys && Sendable(o, was, d, s)
    requires PassedOver(floor, last, if newFloor > floor then newFloor else floor, was, now, acked,
                        acked + Acks(c, counts), d, s)
    ensures (d, s) in Acks(c, counts)
  {
    PassedAreSent(o, floor, last, was, now, c, counts, newFloor, d, s);
  }

  /** New acknowledgements are granted, and durable where cursor writes succeed. */
  ghost predicate AllGranted(o: Outcome, floor: nat, last: nat, was: Cursors, now: Cursors, acks: set<Ack>) {
    forall a :: a in acks ==>
      Granted(o, floor, last, was, a) && (Writable(o, a.0) ==> a.0 in now && a.1 <= now[a.0])
  }

  ghost predicate AllSent(o: Outcome, floor: nat, last: nat, floor': nat, was: Cursors, now: Cursors,
                          acked: set<Ack>, acks: set<Ack>)
  {
    forall d, s: nat ::
      PassedOver(floor, last, floor', was, now, acked, acked + acks, d, s) && Sendable(o, was, d, s) ==> (d, s) in acks
  }

  ghost predicate CursorsAt(floor: nat, last: nat, was: Cursors, now: Cursors, acks: set<Ack>) {
    && (forall d :: d in was ==> d in now && was[d] <= now[d])
    && (forall d :: d in now ==> CursorStays(was, now, d) || ((d, now[d]) in acks && floor < now[d] <= last))
  }

  lemma PassedBy(o: Outcome, floor: nat, last: nat, floor': nat, was: Cursors, now: Cursors, acked: set<Ack>,
                 acks: set<Ack>)
    requires floor <= floor' <= last && AllGranted(o, floor, last, was, now, acks)
    requires AllSent(o, floor, last, floor', was, now, acked, acks) && CursorsAt(floor, last, was, now, acks)
    ensures Passed(o, floor, last, floor', was, now, acked, acked + acks)
  {
  }

  lemma PassDone(o: Outcome, floor: nat, last: nat, newFloor: nat, was: Cursors, now: Cursors, c: Scan,
                 counts: map<Destination, nat>, acked: set<Ack>)
    requires Scanned(o, floor, last, was, c) && FannedOut(o, c, was, now, counts, newFloor)
    requires counts.Keys == c.queues.Keys && newFloor <= last && floor <= last
    ensures Passed(o, floor, last, if newFloor > floor then newFloor else floor, was, now, acked,
                   acked + Acks(c, counts))
  {
    var acks, floor' := Acks(c, counts), if newFloor > floor then newFloor else floor;
    assert AllGranted(o, floor, last, was, now, acks) by {
      AcksGranted(o, floor, last, newFloor, was, now, c, counts);
    }
    assert AllSent(o, floor, last, floor', was, now, acked, acks) by {
      forall d, s: nat | PassedOver(floor, last, floor', was, now, acked, acked + acks, d, s) && Sendable(o, was, d, s)
        ensures (d, s) in acks
      {
        PassedAreAcked(o, floor, last, newFloor, was, now, c, counts, acked, d, s);
      }
    }
    assert CursorsAt(floor, last, was, now, acks) by {
      forall d ensures d in was ==> d in now && was[d] <= now[d]
               ensures d in now ==> CursorStays(was, now, d) || ((d, now[d]) in acks && floor < now[d] <= last)
      {
        CursorAtSent(o, floor, last, newFloor, was, now, c, counts, d);
      }
    }
    PassedBy(o, floor, last, floor', was, now, acked, acks);
  }

  /** What a pass has to send to a destination, in order. */
  ghost predicate QueueOf(o: Outcome, floor: nat, last: nat, was: Cursors, d: Destination, q: seq<nat>) {
    Ascending(q) && forall s: nat :: s in q <==> Sendable(o, was, d, s) && floor < s <= last
  }

  /**
   * A destination is served by itself, whatever the others do: it acknowledges exactly its queue up
   * to the first transaction it does not answer, and nothing if it is backing off.
   */
  ghost predicate ServedAlone(o: Outcome, floor: nat, last: nat, was: Cursors, acked: set<Ack>, acked': set<Ack>,
                              d: Destination)
  {
    exists q, count: nat :: QueueOf(o, floor, last, was, d, q) && Answers(o, acked, acked', d, q, count)
  }

  ghost predicate Answers(o: Outcome, acked: set<Ack>, acked': set<Ack>, d: Destination, q: seq<nat>, count: nat) {
    && count <= |q| && Stops(o, d, q, count)
    && forall s: nat :: (d, s) in acked' <==> (d, s) in acked || s in q[..count]
  }

  /** A destination fell short, and got to a stop: its last acknowledged event, or where its queue starts. */
  ghost predicate StopsAt(o: Outcome, floor: nat, last: nat, was: Cursors, d: Destination, stop: nat) {
    exists q, count: nat ::
      && QueueOf(o, floor, last, was, d, q) && count < |q| && Stops(o, d, q, count)
      && if count == 0 then StartsFrom(o, floor, was, d, stop) else stop == q[count - 1]
  }

  /** The floor goes to the end of the batch, or to the stop of a destination that fell short; it never goes back. */
  ghost predicate FloorGoes(o: Outcome, floor: nat, last: nat, floor': nat, was: Cursors) {
    || floor' == last
    || exists d, stop: nat :: StopsAt(o, floor, last, was, d, stop) && floor' == if stop > floor then stop else floor
  }

  ghost predicate Exactly(o: Outcome, floor: nat, last: nat, floor': nat, was: Cursors, acked: set<Ack>,
                          acked': set<Ack>)
  {
    (forall d :: ServedAlone(o, floor, last, was, acked, acked', d)) && FloorGoes(o, floor, last, floor', was)
  }

  ghost function QueueFor(c: Scan, d: Destination): seq<nat> {
    if d in c.queues then c.queues[d] else []
  }

  lemma QueueIs(o: Outcome, floor: nat, last: nat, was: Cursors, c: Scan, d: Destination)
    requires Scanned(o, floor, last, was, c)
    ensures QueueOf(o, floor, last, was, d, QueueFor(c, d))
  {
    assert d in c.queues ==> QueueOk(c.cursors[d], c.queues[d]);
    forall s: nat ensures s in QueueFor(c, d) <==> Sendable(o, was, d, s) && floor < s <= last {
      assert InQueue(c, d, s) <==> Sendable(o, was, d, s) && floor < s <= last;
    }
  }

  lemma PassServes(o: Outcome, floor: nat, last: nat, newFloor: nat, was: Cursors, now: Cursors, c: Scan,
                   counts: map<Destination, nat>, acked: set<Ack>, d: Destination)
    requires Scanned(o, floor, last, was, c) && FannedOut(o, c, was, now, counts, newFloor)
    requires counts.Keys == c.queues.Keys
    ensures ServedAlone(o, floor, last, was, acked, acked + Acks(c, counts), d)
  {
    QueueIs(o, floor, last, was, c, d);
    var q, count := QueueFor(c, d), if d in counts then counts[d] else 0;
    assert d in counts ==> Served(o, c, was, now, d, counts[d], newFloor);
    forall s: nat ensures (d, s) in Acks(c, counts) <==> s in q[..count] {
      assert Sent(c, counts, d, s) <==> d in counts && s in q[..count];
    }
    assert Answers(o, acked, acked + Acks(c, counts), d, q, count);
  }

  lemma PassFloor(o: Outcome, floor: nat, last: nat, newFloor: nat, was: Cursors, now: Cursors, c: Scan,
                  counts: map<Destination, nat>)
    requires Scanned(o, floor, last, was, c) && Starts(o, floor, was, c) && FannedOut(o, c, was, now, counts, newFloor)
    requires FloorAt(c, counts, last, newFloor)
    ensures FloorGoes(o, floor, last, if newFloor > floor then newFloor else floor, was)
  {
    if newFloor != last {
      var d :| FellShort(c, counts, d) && newFloor == Stop(c, d, counts[d]);
      QueueIs(o, floor, last, was, c, d);
      assert Served(o, c, was, now, d, counts[d], newFloor);
      assert StopsAt(o, floor, last, was, d, newFloor);
    }
  }

  /** Whoever is ready and answers gets everything of the batch, whatever becomes of the others. */
  lemma HealthyIsServed(o: Outcome, floor: nat, last: nat, floor': nat, was: Cursors, acked: set<Ack>, acked': set<Ack>,
                        d: Destination, s: nat)
    requires Exactly(o, floor, last, floor', was, acked, acked')
    requires o.ready(d) && (forall t: nat :: o.answered(d, t)) && floor < s <= last && Sendable(o, was, d, s)
    ensures (d, s) in acked'
  {
    assert ServedAlone(o, floor, last, was, acked, acked', d);
    var q, count: nat :| QueueOf(o, floor, last, was, d, q) && Answers(o, acked, acked', d, q, count);
    assert count < |q| ==> Answered(o, d, q, count);
    assert q[..|q|] == q;
  }

  lemma CursorAtSent(o: Outcome, floor: nat, last: nat, newFloor: nat, was: Cursors, now: Cursors, c: Scan,
                     counts: map<Destination, nat>, d: Destination)
    requires Scanned(o, floor, last, was, c) && FannedOut(o, c, was, now, counts, newFloor)
    ensures d in was ==> d in now && was[d] <= now[d]
    ensures d in now && !CursorStays(was, now, d) ==> (d, now[d]) in Acks(c, counts) && floor < now[d] <= last
  {
    if d in counts {
      assert Served(o, c, was, now, d, counts[d], newFloor);
      if d in now && !CursorStays(was, now, d) {
        assert Sent(c, counts, d, now[d]) && InQueue(c, d, now[d]);
      }
    } else {
      assert CursorStays(was, now, d);
    }
  }

  /**
   * Exactly what a pass delivers. Nothing at or below the floor; of what the floor passes, what
   * was acknowledged before, and whatever was found and had not been overtaken.
   */
  lemma PassExact(o: Outcome, floor: nat, last: nat, floor': nat, was: Cursors, now: Cursors,
                  acked: set<Ack>, acked': set<Ack>, d: Destination, s: nat)
    requires Passed(o, floor, last, floor', was, now, acked, acked')
    ensures s <= floor ==> ((d, s) in acked' <==> (d, s) in acked)
    ensures floor < s <= last && MovedPast(floor', was, now, d, s) ==>
              ((d, s) in acked' <==> (d, s) in acked || (Found(o, d, s) && !Overtaken(o, was, d, s)))
  {
  }

  // ---------------------------------------------------------------- the accounts

  /**
   * The accounts of all deliveries. A pair of destination and event comes due when the floor or
   * the destination's cursor moves past the event while the event is the destination's. It came
   * due unread if the pass did not find it to be the destination's, late if the cursor had passed the
   * event before, and was forgotten if a change of leadership moved the floor past it. Jumped are
   * the pairs that were not found while the destination acknowledged a later event.
   * Resolved are the destinations an event had when the floor last moved past it.
   */
  datatype Record = Record(acked: set<Ack>, due: set<Ack>, unread: set<Ack>, late: set<Ack>, forgotten: set<Ack>,
                           jumped: set<Ack>, resolved: map<nat, seq<Destination>>)

  const NOTHING := Record({}, {}, {}, {}, {}, {}, map[])

  ghost function CameDue(o: Outcome, floor: nat, last: nat, floor': nat, was: Cursors, now: Cursors): set<Ack> {
    set s: nat, d | floor < s <= last && d in Owners(o)(s) && MovedPast(floor', was, now, d, s) :: (d, s)
  }

  ghost function Jumps(o: Outcome, floor: nat, last: nat, acked: set<Ack>, acked': set<Ack>): set<Ack> {
    set s: nat, d | floor < s <= last && d in Owners(o)(s) && !Found(o, d, s) && (d, s) !in acked' &&
                    AckedPast(acked, acked', d, s) :: (d, s)
  }

  /** The accounts after a pass. */
  ghost function AfterPass(r: Record, o: Outcome, floor: nat, last: nat, floor': nat, was: Cursors, now: Cursors,
                           acked': set<Ack>): Record
  {
    var passed := CameDue(o, floor, last, floor', was, now);
    var missed := passed - r.due - acked';
    Record(acked', r.due + passed,
           r.unread + (set a | a in missed && !Found(o, a.0, a.1)),
           r.late + (set a | a in missed && Found(o, a.0, a.1)),
           r.forgotten,
           r.jumped + Jumps(o, floor, last, r.acked, acked'),
           r.resolved + map s: nat | floor < s <= floor' :: Owners(o)(s))
  }

  /** All pairs up to a floor. */
  ghost function Owed(f: Fanout, floor: nat): set<Ack> {
    set s: nat, d | 1 <= s <= floor && d in f(s) :: (d, s)
  }

  /** The accounts after a new leader starts at a floor: everything below it comes due. */
  ghost function AfterLead(r: Record, f: Fanout, floor: nat): Record {
    r.(due := r.due + Owed(f, floor), forgotten := r.forgotten + (Owed(f, floor) - r.due - r.acked),
       resolved := map s: nat | 1 <= s <= floor :: f(s))
  }

  /** Every pair that came due was acknowledged, or was unread, late or forgotten when it did. */
  ghost predicate Accounted(r: Record) {
    r.due <= r.acked + r.unread + r.late + r.forgotten && r.unread + r.late + r.forgotten <= r.due
  }

  /** Every event up to the floor has come due for all destinations it had. */
  ghost predicate Floored(r: Record, floor: nat) {
    forall s: nat :: 1 <= s <= floor ==> s in r.resolved && forall d :: d in r.resolved[s] ==> (d, s) in r.due
  }

  lemma PassAccounts(r: Record, o: Outcome, floor: nat, last: nat, floor': nat, was: Cursors, now: Cursors,
                     acked': set<Ack>)
    requires Accounted(r) && Floored(r, floor) && Passed(o, floor, last, floor', was, now, r.acked, acked')
    ensures var r' := AfterPass(r, o, floor, last, floor', was, now, acked'); Accounted(r') && Floored(r', floor')
  {
    var r' := AfterPass(r, o, floor, last, floor', was, now, acked');
    forall s: nat, d | 1 <= s <= floor' && s in r'.resolved && d in r'.resolved[s] ensures (d, s) in r'.due {
      if s > floor {
        assert (d, s) in CameDue(o, floor, last, floor', was, now);
      }
    }
  }

  lemma LeadAccounts(r: Record, f: Fanout, floor: nat)
    requires Accounted(r)
    ensures Accounted(AfterLead(r, f, floor)) && Floored(AfterLead(r, f, floor), floor)
  {
  }

  // ---------------------------------------------------------------- while destinations do not change

  /** Everything a destination is owed up to a mark has come due. */
  ghost predicate DueUpTo(f: Fanout, r: Record, d: Destination, mark: nat) {
    forall s :: 1 <= s <= mark && d in f(s) ==> (d, s) in r.due
  }

  /** What precedes an acknowledged event has come due, was acknowledged or was jumped. */
  ghost predicate InTurn(f: Fanout, r: Record, d: Destination, s: nat) {
    forall t :: 1 <= t < s && d in f(t) ==> (d, t) in r.acked || (d, t) in r.due || (d, t) in r.jumped
  }

  /** The destination is owed the same events. */
  ghost predicate Agrees(g: Fanout, f: Fanout, d: Destination) {
    forall s :: d in g(s) <==> d in f(s)
  }

  /** Nothing comes due late, the cursor stands where all before it has come due, and acks come in turn. */
  ghost predicate Steady(f: Fanout, r: Record, cursors: Cursors, d: Destination) {
    && (d in cursors ==> DueUpTo(f, r, d, cursors[d]))
    && (forall s :: (d, s) !in r.late)
    && (forall s :: (d, s) in r.acked ==> d in f(s) && InTurn(f, r, d, s))
  }

  lemma SteadyPassCursor(f: Fanout, r: Record, o: Outcome, floor: nat, last: nat, floor': nat, was: Cursors,
                         now: Cursors, acked': set<Ack>, d: Destination)
    requires Agrees(Owners(o), f, d) && Steady(f, r, was, d) && DueUpTo(f, r, d, floor)
    requires Passed(o, floor, last, floor', was, now, r.acked, acked')
    ensures var r' := AfterPass(r, o, floor, last, floor', was, now, acked');
            DueUpTo(f, r', d, floor') && (d in now ==> DueUpTo(f, r', d, now[d]))
  {
    var r' := AfterPass(r, o, floor, last, floor', was, now, acked');
    forall s | 1 <= s && d in f(s) && (s <= floor' || (d in now && s <= now[d])) ensures (d, s) in r'.due {
      if s > floor && !(d in was && s <= was[d]) {
        assert d in now && !CursorStays(was, now, d) ==> now[d] <= last;
        assert s <= last;
        assert (d, s) in CameDue(o, floor, last, floor', was, now);
      } else if s > floor && s <= floor' {
        assert (d, s) in CameDue(o, floor, last, floor', was, now);
      }
    }
  }

  lemma SteadyPassTurn(f: Fanout, r: Record, o: Outcome, floor: nat, last: nat, floor': nat, was: Cursors,
                       now: Cursors, acked': set<Ack>, d: Destination, s: nat)
    requires Agrees(Owners(o), f, d) && Steady(f, r, was, d) && DueUpTo(f, r, d, floor)
    requires Passed(o, floor, last, floor', was, now, r.acked, acked') && (d, s) in acked'
    ensures d in f(s) && InTurn(f, AfterPass(r, o, floor, last, floor', was, now, acked'), d, s)
  {
    var r' := AfterPass(r, o, floor, last, floor', was, now, acked');
    if (d, s) in r.acked {
      assert InTurn(f, r, d, s);
    } else {
      assert Granted(o, floor, last, was, (d, s));
      FoundMeans(o, d, s);
      forall t | 1 <= t < s && d in f(t) ensures (d, t) in r'.acked || (d, t) in r'.due || (d, t) in r'.jumped {
        if t > floor && !Found(o, d, t) {
          assert AckedPast(r.acked, acked', d, t);
          assert (d, t) in acked' || (d, t) in Jumps(o, floor, last, r.acked, acked');
        } else if t > floor && !Overtaken(o, was, d, t) {
          assert AckedPast(r.acked, acked', d, t);
          assert PassedOver(floor, last, floor', was, now, r.acked, acked', d, t);
        }
      }
    }
  }

  lemma SteadyPassLate(f: Fanout, r: Record, o: Outcome, floor: nat, last: nat, floor': nat, was: Cursors,
                       now: Cursors, acked': set<Ack>, d: Destination, s: nat)
    requires Agrees(Owners(o), f, d) && Steady(f, r, was, d)
    requires Passed(o, floor, last, floor', was, now, r.acked, acked')
    ensures (d, s) !in AfterPass(r, o, floor, last, floor', was, now, acked').late
  {
    PassExact(o, floor, last, floor', was, now, r.acked, acked', d, s);
  }

  lemma SteadyPass(f: Fanout, r: Record, o: Outcome, floor: nat, last: nat, floor': nat, was: Cursors, now: Cursors,
                   acked': set<Ack>, d: Destination)
    requires Agrees(Owners(o), f, d) && Steady(f, r, was, d) && DueUpTo(f, r, d, floor)
    requires Passed(o, floor, last, floor', was, now, r.acked, acked')
    ensures var r' := AfterPass(r, o, floor, last, floor', was, now, acked');
            Steady(f, r', now, d) && DueUpTo(f, r', d, floor')
  {
    var r' := AfterPass(r, o, floor, last, floor', was, now, acked');
    SteadyPassCursor(f, r, o, floor, last, floor', was, now, acked', d);
    forall s ensures (d, s) !in r'.late {
      if s >= 0 {
        SteadyPassLate(f, r, o, floor, last, floor', was, now, acked', d, s);
      }
    }
    forall s | (d, s) in acked' ensures d in f(s) && InTurn(f, r', d, s) {
      SteadyPassTurn(f, r, o, floor, last, floor', was, now, acked', d, s);
    }
  }

  /** Of what the floor passes for the first time, exactly what the pass finds is acknowledged. */
  lemma SteadyPassExact(f: Fanout, r: Record, o: Outcome, floor: nat, last: nat, floor': nat, was: Cursors,
                        now: Cursors, acked': set<Ack>, d: Destination, s: nat)
    requires Agrees(Owners(o), f, d) && Steady(f, r, was, d)
    requires Passed(o, floor, last, floor', was, now, r.acked, acked')
    requires floor < s <= floor' && d in f(s) && (d, s) !in r.due
    ensures (d, s) in acked' <==>
            (d, s) in r.acked || (o.eventRead(s) && (o.membersRead(s) || o.target(s) == Some(d)))
  {
    PassExact(o, floor, last, floor', was, now, r.acked, acked', d, s);
    FoundMeans(o, d, s);
  }

  // ---------------------------------------------------------------- a new leader

  /** Where a leader starts: at the least cursor of the table, or at the tip if it shows none. */
  ghost predicate StartsAt(cursors: Cursors, cursorsRead: bool, tip: Option<nat>, floor: nat) {
    if cursorsRead && cursors != map[]
    then (exists d :: d in cursors && cursors[d] == floor) && forall d :: d in cursors ==> floor <= cursors[d]
    else floor == if tip.Some? then tip.value else 0
  }

  method InitialScanPos(cursors: Cursors, cursorsRead: bool, tip: Option<nat>) returns (floor: nat)
    ensures StartsAt(cursors, cursorsRead, tip, floor)
  {
    var listed := if cursorsRead then cursors else map[];
    var left, least: Option<nat> := listed.Keys, None;
    while left != {}
      invariant left <= listed.Keys
      invariant forall d :: d in listed && d !in left ==> least.Some? && least.value <= listed[d]
      invariant least.Some? ==> exists d :: d in listed && listed[d] == least.value
      decreases left
    {
      var d :| d in left;
      if least == None || listed[d] < least.value {
        least := Some(listed[d]);
      }
      left := left - {d};
    }
    floor := if least.Some? then least.value else if tip.Some? then tip.value else 0;
  }

  lemma SteadyLead(f: Fanout, g: Fanout, r: Record, cursors: Cursors, floor: nat, d: Destination)
    requires Agrees(g, f, d) && Steady(f, r, cursors, d)
    ensures Steady(f, AfterLead(r, g, floor), cursors, d) && DueUpTo(f, AfterLead(r, g, floor), d, floor)
  {
    var r' := AfterLead(r, g, floor);
    forall s | (d, s) in r'.acked ensures d in f(s) && InTurn(f, r', d, s) {
      assert InTurn(f, r, d, s);
    }
    forall s | 1 <= s <= floor && d in f(s) ensures (d, s) in r'.due {
      assert (d, s) in Owed(g, floor);
    }
  }

  /** The pairs that a new leader's floor leaves behind. */
  ghost predicate LeftBehind(r: Record, f: Fanout, floor: nat, d: Destination, s: nat) {
    1 <= s <= floor && d in f(s) && (d, s) !in r.acked && (d, s) !in r.due
  }

  /** Exactly those are forgotten; where the cursor table was read they belong to destinations without a cursor. */
  lemma LeadForgets(r: Record, f: Fanout, cursors: Cursors, cursorsRead: bool, tip: Option<nat>, floor: nat,
                    d: Destination, s: nat)
    requires StartsAt(cursors, cursorsRead, tip, floor) && Steady(f, r, cursors, d)
    ensures (d, s) in AfterLead(r, f, floor).forgotten <==> (d, s) in r.forgotten || LeftBehind(r, f, floor, d, s)
    ensures LeftBehind(r, f, floor, d, s) && d in cursors ==> !cursorsRead && s > cursors[d]
  {
  }

  /**
   * A change of leadership leaves nothing behind for a destination with a cursor if and only if
   * the cursor table was read, or nothing is open between the cursor and the new floor.
   */
  lemma PromiseSurvives(r: Record, f: Fanout, cursors: Cursors, cursorsRead: bool, tip: Option<nat>, floor: nat,
                        d: Destination)
    requires StartsAt(cursors, cursorsRead, tip, floor) && Steady(f, r, cursors, d) && d in cursors
    ensures (forall s: nat :: !LeftBehind(r, f, floor, d, s)) <==>
            cursorsRead || forall s :: cursors[d] < s <= floor && d in f(s) ==> (d, s) in r.acked || (d, s) in r.due
  {
    if !cursorsRead && forall s: nat :: !LeftBehind(r, f, floor, d, s) {
      forall s | cursors[d] < s <= floor && d in f(s) ensures (d, s) in r.acked || (d, s) in r.due {
        assert !LeftBehind(r, f, floor, d, s);
      }
    }
  }

  // ---------------------------------------------------------------- the worker

  /** Where a batch above a floor ends. */
  function BatchEnd(floor: nat, end: nat, o: Outcome): nat {
    if !o.timelineRead || end <= floor then floor else if end - floor <= SCAN_BATCH then end else floor + SCAN_BATCH
  }

  /** A batch is what there is above the floor, up to 256 events of it, if the timeline could be read. */
  lemma BatchMeans(floor: nat, end: nat, o: Outcome, s: nat)
    ensures floor < s <= BatchEnd(floor, end, o) <==> o.timelineRead && floor < s <= end && s <= floor + 256
    ensures floor <= BatchEnd(floor, end, o)
  {
  }

  lemma IdleServes(o: Outcome, floor: nat, was: Cursors, acked: set<Ack>)
    ensures Exactly(o, floor, floor, floor, was, acked, acked)
  {
    forall d ensures ServedAlone(o, floor, floor, was, acked, acked, d) {
      var q: seq<nat> := [];
      assert QueueOf(o, floor, floor, was, d, q) && Answers(o, acked, acked, d, q, 0);
    }
  }

  /** One pass over a batch. */
  method DeliverBatch(floor: nat, last: nat, cursors: Cursors, o: Outcome, ghost acked: set<Ack>)
    returns (floor': nat, cursors': Cursors, ghost acked': set<Ack>)
    requires floor < last
    ensures Passed(o, floor, last, floor', cursors, cursors', acked, acked')
    ensures Exactly(o, floor, last, floor', cursors, acked, acked') && (AllWell(o) ==> floor' == last)
  {
    var c := ScanBatch(floor, last, cursors, o);
    var newFloor, moved, counts := FanOut(c, last, cursors, o);
    PassDone(o, floor, last, newFloor, cursors, moved, c, counts, acked);
    PassFloor(o, floor, last, newFloor, cursors, moved, c, counts);
    acked' := acked + Acks(c, counts);
    forall d ensures ServedAlone(o, floor, last, cursors, acked, acked', d) {
      PassServes(o, floor, last, newFloor, cursors, moved, c, counts, acked, d);
    }
    floor', cursors' := if newFloor > floor then newFloor else floor, moved;
  }

  lemma IdlePass(r: Record, o: Outcome, floor: nat, cursors: Cursors)
    ensures AfterPass(r, o, floor, floor, floor, cursors, cursors, r.acked) == r
    ensures Passed(o, floor, floor, floor, cursors, cursors, r.acked, r.acked)
  {
    assert CameDue(o, floor, floor, floor, cursors, cursors) == {};
    assert Jumps(o, floor, floor, r.acked, r.acked) == {};
  }

  /** Who is owed different events than usual. */
  ghost function Differing(g: Fanout, f: Fanout): iset<Destination> {
    iset d | !Agrees(g, f, d)
  }

  /** Steady for everybody whose events have not changed. */
  ghost predicate SteadyAll(f: Fanout, r: Record, cursors: Cursors, pos: Option<nat>, changed: iset<Destination>) {
    forall d :: d !in changed ==> Steady(f, r, cursors, d) && (pos.Some? ==> DueUpTo(f, r, d, pos.value))
  }

  lemma SteadyAllLead(f: Fanout, g: Fanout, r: Record, cursors: Cursors, pos: Option<nat>, changed: iset<Destination>,
                      floor: nat)
    requires SteadyAll(f, r, cursors, pos, changed)
    ensures SteadyAll(f, AfterLead(r, g, floor), cursors, Some(floor), changed + Differing(g, f))
  {
    forall d | d !in changed + Differing(g, f)
      ensures Steady(f, AfterLead(r, g, floor), cursors, d) && DueUpTo(f, AfterLead(r, g, floor), d, floor)
    {
      SteadyLead(f, g, r, cursors, floor, d);
    }
  }

  lemma SteadyAllPass(f: Fanout, r: Record, o: Outcome, floor: nat, last: nat, floor': nat, was: Cursors, now: Cursors,
                      acked': set<Ack>, changed: iset<Destination>)
    requires SteadyAll(f, r, was, Some(floor), changed)
    requires Passed(o, floor, last, floor', was, now, r.acked, acked')
    ensures SteadyAll(f, AfterPass(r, o, floor, last, floor', was, now, acked'), now, Some(floor'),
                      changed + Differing(Owners(o), f))
  {
    var r' := AfterPass(r, o, floor, last, floor', was, now, acked');
    forall d | d !in changed + Differing(Owners(o), f) ensures Steady(f, r', now, d) && DueUpTo(f, r', d, floor') {
      SteadyPass(f, r, o, floor, last, floor', was, now, acked', d);
    }
  }

  // ---------------------------------------------------------------- why an event may be missing

  /** What a worker has been through: starts of tenures and passes, with the cursors as they were. */
  datatype Step =
    | Began(cursors: Cursors, cursorsRead: bool, floor: nat, fanout: Fanout)
    | Went(cursors: Cursors, outcome: Outcome)

  /** Who events had to go to at a step. */
  function OwnersAt(step: Step): Fanout {
    if step.Began? then step.fanout else Owners(step.outcome)
  }

  /** A pass did not find an event of the destination's: a read had failed. */
  ghost predicate Unfound(step: Step, a: Ack) {
    step.Went? && a.0 in OwnersAt(step)(a.1) && !Found(step.outcome, a.0, a.1)
  }

  /** A pass found an event that the destination's cursor had already passed. */
  ghost predicate TooLate(step: Step, a: Ack) {
    step.Went? && a.0 in OwnersAt(step)(a.1) && Overtaken(step.outcome, step.cursors, a.0, a.1)
  }

  /**
   * A tenure began above an event of the destination's: one without a cursor, or with a cursor
   * below the event in a table that could not be read, unless its events had changed.
   */
  ghost predicate Left(step: Step, a: Ack, changed: iset<Destination>) {
    && step.Began? && a.1 <= step.floor && a.0 in OwnersAt(step)(a.1)
    && (a.0 in changed || a.0 !in step.cursors || (!step.cursorsRead && step.cursors[a.0] < a.1))
  }

  ghost predicate WasUnfound(steps: seq<Step>, a: Ack) {
    exists k :: 0 <= k < |steps| && Unfound(steps[k], a)
  }

  ghost predicate WasLate(steps: seq<Step>, a: Ack) {
    exists k :: 0 <= k < |steps| && TooLate(steps[k], a)
  }

  ghost predicate WasLeft(steps: seq<Step>, a: Ack, changed: iset<Destination>) {
    exists k :: 0 <= k < |steps| && Left(steps[k], a, changed)
  }

  ghost predicate WasOwned(steps: seq<Step>, s: nat, ds: seq<Destination>) {
    exists k :: 0 <= k < |steps| && OwnersAt(steps[k])(s) == ds
  }

  /** Whatever the steps have added to a record has its cause among them. */
  ghost predicate Caused(r: Record, r': Record, steps: seq<Step>, changed: iset<Destination>) {
    && (forall a :: a in r'.unread ==> a in r.unread || WasUnfound(steps, a))
    && (forall a :: a in r'.jumped ==> a in r.jumped || WasUnfound(steps, a))
    && (forall a :: a in r'.late ==> a in r.late || WasLate(steps, a))
    && (forall a :: a in r'.forgotten ==> a in r.forgotten || WasLeft(steps, a, changed))
    && (forall s :: s in r'.resolved ==>
          (s in r.resolved && r.resolved[s] == r'.resolved[s]) || WasOwned(steps, s, r'.resolved[s]))
  }

  lemma CausesLast(one: seq<Step>, two: seq<Step>, a: Ack, changed: iset<Destination>, changed': iset<Destination>)
    requires changed <= changed'
    ensures WasUnfound(one, a) || WasUnfound(two, a) ==> WasUnfound(one + two, a)
    ensures WasLate(one, a) || WasLate(two, a) ==> WasLate(one + two, a)
    ensures WasLeft(one, a, changed) || WasLeft(two, a, changed') ==> WasLeft(one + two, a, changed')
  {
    var steps := one + two;
    assert forall k :: 0 <= k < |one| ==> steps[k] == one[k];
    assert forall k :: 0 <= k < |two| ==> steps[|one| + k] == two[k];
  }

  lemma OwnedLast(one: seq<Step>, two: seq<Step>, s: nat, ds: seq<Destination>)
    ensures WasOwned(one, s, ds) || WasOwned(two, s, ds) ==> WasOwned(one + two, s, ds)
  {
    var steps := one + two;
    assert forall k :: 0 <= k < |one| ==> steps[k] == one[k];
    assert forall k :: 0 <= k < |two| ==> steps[|one| + k] == two[k];
  }

  lemma CausedThen(r: Record, mid: Record, r': Record, one: seq<Step>, two: seq<Step>, changed: iset<Destination>,
                   changed': iset<Destination>)
    requires Caused(r, mid, one, changed) && Caused(mid, r', two, changed') && changed <= changed'
    ensures Caused(r, r', one + two, changed')
  {
    forall a: Ack {
      CausesLast(one, two, a, changed, changed');
    }
    forall s: nat, ds {
      OwnedLast(one, two, s, ds);
    }
  }

  lemma LeadCaused(f: Fanout, g: Fanout, r: Record, cursors: Cursors, cursorsRead: bool, tip: Option<nat>,
                   pos: Option<nat>, changed: iset<Destination>, floor: nat)
    requires SteadyAll(f, r, cursors, pos, changed) && StartsAt(cursors, cursorsRead, tip, floor)
    ensures Caused(r, AfterLead(r, g, floor), [Began(cursors, cursorsRead, floor, g)], changed + Differing(g, f))
  {
    var step, changed' := Began(cursors, cursorsRead, floor, g), changed + Differing(g, f);
    assert [step][0] == step;
    forall a: Ack | a in AfterLead(r, g, floor).forgotten && a !in r.forgotten ensures Left(step, a, changed') {
      if a.0 !in changed' {
        assert Steady(f, r, cursors, a.0) && Agrees(g, f, a.0);
      }
    }
  }

  lemma MissedCaused(r: Record, o: Outcome, floor: nat, last: nat, floor': nat, was: Cursors, now: Cursors,
                     acked': set<Ack>, a: Ack)
    requires Passed(o, floor, last, floor', was, now, r.acked, acked')
    ensures var r' := AfterPass(r, o, floor, last, floor', was, now, acked');
            && (a in r'.unread ==> a in r.unread || Unfound(Went(was, o), a))
            && (a in r'.late ==> a in r.late || TooLate(Went(was, o), a))
  {
    PassExact(o, floor, last, floor', was, now, r.acked, acked', a.0, a.1);
  }

  lemma JumpedCaused(r: Record, o: Outcome, floor: nat, last: nat, was: Cursors, acked': set<Ack>, a: Ack)
    requires a in Jumps(o, floor, last, r.acked, acked')
    ensures Unfound(Went(was, o), a)
  {
  }

  lemma OneStep(step: Step, a: Ack)
    ensures Unfound(step, a) ==> WasUnfound([step], a)
    ensures TooLate(step, a) ==> WasLate([step], a)
  {
    assert [step][0] == step;
  }

  lemma OneStepOwns(step: Step, s: nat)
    ensures WasOwned([step], s, OwnersAt(step)(s))
  {
    assert [step][0] == step;
  }

  lemma PassCaused(r: Record, o: Outcome, floor: nat, last: nat, floor': nat, was: Cursors, now: Cursors,
                   acked': set<Ack>, changed: iset<Destination>)
    requires Passed(o, floor, last, floor', was, now, r.acked, acked')
    ensures Caused(r, AfterPass(r, o, floor, last, floor', was, now, acked'), [Went(was, o)], changed)
  {
    var r', step := AfterPass(r, o, floor, last, floor', was, now, acked'), Went(was, o);
    forall a: Ack ensures a in r'.unread ==> a in r.unread || WasUnfound([step], a)
                  ensures a in r'.late ==> a in r.late || WasLate([step], a)
    {
      MissedCaused(r, o, floor, last, floor', was, now, acked', a);
      OneStep(step, a);
    }
    forall a: Ack | a in r'.jumped && a !in r.jumped ensures WasUnfound([step], a) {
      JumpedCaused(r, o, floor, last, was, acked', a);
      OneStep(step, a);
    }
    forall s: nat ensures WasOwned([step], s, Owners(o)(s)) {
      OneStepOwns(step, s);
    }
  }

  // ---------------------------------------------------------------- the worker's books

  /** The destinations events usually have, the durable cursors, the floor of a leader, and the accounts. */
  datatype Account = Account(usual: Fanout, cursors: Cursors, pos: Option<nat>, record: Record,
                             changed: iset<Destination>)

  ghost predicate Balanced(b: Account) {
    && Accounted(b.record) && (b.pos.Some? ==> Floored(b.record, b.pos.value))
    && SteadyAll(b.usual, b.record, b.cursors, b.pos, b.changed)
  }

  ghost function Opening(usual: Fanout): Account {
    Account(usual, map[], None, NOTHING, iset{})
  }

  type Books = b: Account | Balanced(b) ghost witness Opening((s: nat) => [])

  /** The start of a tenure. */
  ghost function Led(b: Account, floor: nat, f: Fanout): Account {
    b.(pos := Some(floor), record := AfterLead(b.record, f, floor), changed := b.changed + Differing(f, b.usual))
  }

  lemma LedBalances(b: Books, floor: nat, f: Fanout)
    ensures Balanced(Led(b, floor, f))
  {
    LeadAccounts(b.record, f, floor);
    SteadyAllLead(b.usual, f, b.record, b.cursors, b.pos, b.changed, floor);
  }

  /** A pass. */
  ghost function Gone(b: Account, o: Outcome, last: nat, floor': nat, now: Cursors, acked': set<Ack>): Account
    requires b.pos.Some?
  {
    b.(cursors := now, pos := Some(floor'),
       record := AfterPass(b.record, o, b.pos.value, last, floor', b.cursors, now, acked'),
       changed := b.changed + Differing(Owners(o), b.usual))
  }

  lemma GoneBalances(b: Books, o: Outcome, last: nat, floor': nat, now: Cursors, acked': set<Ack>)
    requires b.pos.Some? && Passed(o, b.pos.value, last, floor', b.cursors, now, b.record.acked, acked')
    ensures Balanced(Gone(b, o, last, floor', now, acked'))
  {
    var floor := b.pos.value;
    PassAccounts(b.record, o, floor, last, floor', b.cursors, now, acked');
    SteadyAllPass(b.usual, b.record, o, floor, last, floor', b.cursors, now, acked', b.changed);
  }

  lemma StoppedBalances(b: Books)
    ensures Balanced(b.(pos := None))
  {
  }

  /** A pass from the floor of the books, and what it makes of them. */
  ghost predicate GoneBy(b: Account, o: Outcome, end: nat, b': Account) {
    && b.pos.Some? && b'.pos.Some?
    && var last := BatchEnd(b.pos.value, end, o);
       && Passed(o, b.pos.value, last, b'.pos.value, b.cursors, b'.cursors, b.record.acked, b'.record.acked)
       && Exactly(o, b.pos.value, last, b'.pos.value, b.cursors, b.record.acked, b'.record.acked)
       && b' == Gone(b, o, last, b'.pos.value, b'.cursors, b'.record.acked)
  }

  class Worker {
    var cursors: Cursors
    var scanPos: Option<nat>
    ghost var books: Books

    ghost predicate Valid()
      reads this
    {
      cursors == books.cursors && scanPos == books.pos
    }

    constructor (ghost usual: Fanout)
      ensures Valid() && books == Opening(usual)
    {
      cursors, scanPos, books := map[], None, Opening(usual);
    }

    /** Leadership gained. */
    method Lead(tip: Option<nat>, cursorsRead: bool, ghost f: Fanout)
      requires Valid() && scanPos == None
      modifies this`scanPos, this`books
      ensures Valid() && scanPos.Some? && StartsAt(cursors, cursorsRead, tip, scanPos.value)
      ensures books == Led(old(books), scanPos.value, f)
    {
      var floor := InitialScanPos(cursors, cursorsRead, tip);
      LedBalances(books, floor, f);
      scanPos, books := Some(floor), Led(books, floor, f);
    }

    /** One pass: scan a batch above the floor, fan out, and move the floor as far as all allow. */
    method DeliverPdus(end: nat, o: Outcome)
      requires Valid() && scanPos.Some?
      modifies this`cursors, this`scanPos, this`books
      ensures Valid() && scanPos.Some? && GoneBy(old(books), o, end, books)
      ensures AllWell(o) ==> scanPos.value == BatchEnd(old(scanPos).value, end, o)
    {
      var floor := scanPos.value;
      var last := BatchEnd(floor, end, o);
      var floor', cursors' := floor, cursors;
      ghost var acked' := books.record.acked;
      if last == floor {
        IdlePass(books.record, o, floor, cursors);
        IdleServes(o, floor, cursors, acked');
      } else {
        floor', cursors', acked' := DeliverBatch(floor, last, cursors, o, acked');
      }
      GoneBalances(books, o, last, floor', cursors', acked');
      scanPos, cursors, books := Some(floor'), cursors', Gone(books, o, last, floor', cursors', acked');
    }

    /** One turn of the worker's loop. */
    method Turn(m: Moment)
      requires Valid()
      modifies this`cursors, this`scanPos, this`books
      ensures Valid() && Turned(m, old(books), books)
    {
      if m.leader {
        if scanPos == None {
          Lead(m.tip, m.cursorsRead, Owners(m.outcome));
        }
        ghost var mid := books;
        DeliverPdus(m.end, m.outcome);
        assert Started(m, old(books), mid) && GoneBy(mid, m.outcome, m.end, books);
      } else {
        StoppedBalances(books);
        scanPos, books := None, books.(pos := None);
      }
    }
  }

  /**
   * What one turn meets: whether this node leads; the tip and the cursor table as a new leader
   * reads them; how far the timeline goes; and the world.
   */
  datatype Moment = Moment(leader: bool, tip: Option<nat>, cursorsRead: bool, end: nat, outcome: Outcome)

  /** A leader's turn starts from its floor, or from where a new leader starts. */
  ghost predicate Started(m: Moment, b: Account, mid: Account) {
    if b.pos.Some? then mid == b
    else && mid.pos.Some? && StartsAt(b.cursors, m.cursorsRead, m.tip, mid.pos.value)
         && mid == Led(b, mid.pos.value, Owners(m.outcome))
  }

  /** And is one pass from there; who does not lead does nothing. */
  ghost predicate Turned(m: Moment, b: Account, b': Account) {
    if m.leader then exists mid :: Started(m, b, mid) && GoneBy(mid, m.outcome, m.end, b')
    else b' == b.(pos := None)
  }

  // ---------------------------------------------------------------- whole runs

  /** Cursors only move up, and accounts only grow. */
  ghost predicate Forward(r: Record, r': Record, was: Cursors, now: Cursors) {
    && Raised(was, now)
    && r.acked <= r'.acked && r.due <= r'.due && r.unread <= r'.unread && r.late <= r'.late
    && r.forgotten <= r'.forgotten && r.jumped <= r'.jumped
  }

  ghost predicate Raised(was: Cursors, now: Cursors) {
    forall d :: d in was ==> d in now && was[d] <= now[d]
  }

  /** Within a tenure nothing at or below the floor is sent any more, and nothing more is forgotten. */
  ghost predicate SameTenure(r: Record, r': Record, floor: nat, floor': nat) {
    && floor <= floor' && r'.forgotten == r.forgotten
    && forall a: Ack :: a.1 <= floor ==> (a in r'.acked <==> a in r.acked)
  }

  /** An event that came due late had been overtaken by the cursor that was read. */
  lemma LateIsOvertaken(r: Record, o: Outcome, floor: nat, last: nat, floor': nat, was: Cursors, now: Cursors,
                        acked': set<Ack>, a: Ack)
    requires Passed(o, floor, last, floor', was, now, r.acked, acked')
    requires a in AfterPass(r, o, floor, last, floor', was, now, acked').late && a !in r.late
    ensures Overtaken(o, was, a.0, a.1) && a !in r.due
  {
    PassExact(o, floor, last, floor', was, now, r.acked, acked', a.0, a.1);
  }

  /** A destination's events are those of a fanout at every moment. */
  ghost predicate Unchanged(moments: seq<Moment>, f: Fanout, d: Destination) {
    forall i :: 0 <= i < |moments| ==> Agrees(Owners(moments[i].outcome), f, d)
  }

  /** What a moment makes of a step. */
  ghost predicate StepOf(step: Step, m: Moment) {
    && m.leader && OwnersAt(step) == Owners(m.outcome)
    && (if step.Went? then step.outcome == m.outcome else step.cursorsRead == m.cursorsRead)
  }

  /** Steps that some moments made, from cursors no lower than they were. */
  ghost predicate StepsOf(steps: seq<Step>, moments: seq<Moment>, was: Cursors) {
    forall k :: 0 <= k < |steps| ==> StepFrom(steps[k], moments, was)
  }

  ghost predicate StepFrom(step: Step, moments: seq<Moment>, was: Cursors) {
    Raised(was, step.cursors) && exists i :: 0 <= i < |moments| && StepOf(step, moments[i])
  }

  /**
   * What any moments make of the books: cursors and accounts move on; nobody's events change unless
   * some moment changes them; every step comes from a moment, and whatever was added to the record
   * has its cause among these steps; and as long as the node leads, it is one tenure.
   */
  ghost predicate Ran(moments: seq<Moment>, b: Account, b': Account) {
    exists news :: RanBy(moments, b, b', news)
  }

  ghost predicate RanBy(moments: seq<Moment>, b: Account, b': Account, news: seq<Step>) {
    && Forward(b.record, b'.record, b.cursors, b'.cursors) && b'.usual == b.usual && b.changed <= b'.changed
    && (forall d :: d !in b.changed && Unchanged(moments, b.usual, d) ==> d !in b'.changed)
    && StepsOf(news, moments, b.cursors) && Caused(b.record, b'.record, news, b'.changed)
    && (b.pos.Some? && (forall i :: 0 <= i < |moments| ==> moments[i].leader) ==>
          b'.pos.Some? && SameTenure(b.record, b'.record, b.pos.value, b'.pos.value))
  }

  lemma StartBalances(m: Moment, b: Books, mid: Account)
    requires Started(m, b, mid)
    ensures Balanced(mid)
  {
    if b.pos == None {
      LedBalances(b, mid.pos.value, Owners(m.outcome));
    }
  }

  lemma MomentRuns(m: Moment, b: Account, b': Account, news: seq<Step>)
    requires m.leader && Forward(b.record, b'.record, b.cursors, b'.cursors) && b'.usual == b.usual
    requires b'.changed == b.changed || b'.changed == b.changed + Differing(Owners(m.outcome), b.usual)
    requires Caused(b.record, b'.record, news, b'.changed)
    requires forall k :: 0 <= k < |news| ==> news[k].cursors == b.cursors && StepOf(news[k], m)
    requires b.pos.Some? ==> b'.pos.Some? && SameTenure(b.record, b'.record, b.pos.value, b'.pos.value)
    ensures Ran([m], b, b')
  {
    assert [m][0] == m;
    assert forall d :: Unchanged([m], b.usual, d) ==> Agrees(Owners([m][0].outcome), b.usual, d);
    assert StepsOf(news, [m], b.cursors);
    assert RanBy([m], b, b', news);
  }

  lemma StartRuns(m: Moment, b: Books, mid: Account)
    requires m.leader && Started(m, b, mid)
    ensures Ran([m], b, mid)
  {
    if b.pos == None {
      LeadCaused(b.usual, Owners(m.outcome), b.record, b.cursors, m.cursorsRead, m.tip, b.pos, b.changed,
                 mid.pos.value);
      MomentRuns(m, b, mid, [Began(b.cursors, m.cursorsRead, mid.pos.value, Owners(m.outcome))]);
    } else {
      MomentRuns(m, b, mid, []);
    }
  }

  lemma PassForward(o: Outcome, end: nat, b: Account, b': Account)
    requires GoneBy(b, o, end, b')
    ensures Forward(b.record, b'.record, b.cursors, b'.cursors)
    ensures SameTenure(b.record, b'.record, b.pos.value, b'.pos.value)
  {
  }

  lemma PassRuns(m: Moment, b: Account, b': Account)
    requires m.leader && GoneBy(b, m.outcome, m.end, b')
    ensures Ran([m], b, b')
  {
    PassForward(m.outcome, m.end, b, b');
    PassCaused(b.record, m.outcome, b.pos.value, BatchEnd(b.pos.value, m.end, m.outcome), b'.pos.value, b.cursors,
               b'.cursors, b'.record.acked, b'.changed);
    MomentRuns(m, b, b', [Went(b.cursors, m.outcome)]);
  }

  lemma StepsOfMore(one: seq<Step>, two: seq<Step>, some: seq<Moment>, more: seq<Moment>, all: seq<Moment>,
                    was: Cursors, mid: Cursors)
    requires StepsOf(one, some, was) && StepsOf(two, more, mid) && Raised(was, mid)
    requires forall m :: m in some || m in more ==> m in all
    ensures StepsOf(one + two, all, was)
  {
    forall k | 0 <= k < |one + two| ensures StepFrom((one + two)[k], all, was) {
      var step := (one + two)[k];
      if k < |one| {
        assert StepFrom(one[k], some, was);
        var i :| 0 <= i < |some| && StepOf(step, some[i]);
        assert some[i] in all;
      } else {
        assert StepFrom(two[k - |one|], more, mid);
        var i :| 0 <= i < |more| && StepOf(step, more[i]);
        assert more[i] in all;
      }
    }
  }

  /** One run after the other, of moments that are all among others. */
  lemma RanThen(some: seq<Moment>, more: seq<Moment>, all: seq<Moment>, b: Account, mid: Account, b': Account)
    requires Ran(some, b, mid) && Ran(more, mid, b')
    requires forall m :: m in all <==> m in some || m in more
    ensures Ran(all, b, b')
  {
    var one :| RanBy(some, b, mid, one);
    var two :| RanBy(more, mid, b', two);
    RanByThen(some, more, all, b, mid, b', one, two);
  }

  lemma RanByThen(some: seq<Moment>, more: seq<Moment>, all: seq<Moment>, b: Account, mid: Account, b': Account,
                  one: seq<Step>, two: seq<Step>)
    requires RanBy(some, b, mid, one) && RanBy(more, mid, b', two)
    requires forall m :: m in all <==> m in some || m in more
    ensures RanBy(all, b, b', one + two)
  {
    StepsOfMore(one, two, some, more, all, b.cursors, mid.cursors);
    CausedThen(b.record, mid.record, b'.record, one, two, mid.changed, b'.changed);
    forall d | d !in b.changed && Unchanged(all, b.usual, d) ensures d !in b'.changed {
      UnchangedAmong(all, some, b.usual, d);
      UnchangedAmong(all, more, b.usual, d);
    }
    if forall i :: 0 <= i < |all| ==> all[i].leader {
      assert forall m :: m in all ==> m.leader;
    }
  }

  lemma UnchangedAmong(all: seq<Moment>, some: seq<Moment>, f: Fanout, d: Destination)
    requires Unchanged(all, f, d) && forall m :: m in some ==> m in all
    ensures Unchanged(some, f, d)
  {
    forall i | 0 <= i < |some| ensures Agrees(Owners(some[i].outcome), f, d) {
      assert some[i] in all;
    }
  }

  lemma TurnBalances(m: Moment, b: Books, b': Account)
    requires Turned(m, b, b')
    ensures Balanced(b')
  {
    if m.leader {
      var mid :| Started(m, b, mid) && GoneBy(mid, m.outcome, m.end, b');
      StartBalances(m, b, mid);
      GoneBalances(mid, m.outcome, BatchEnd(mid.pos.value, m.end, m.outcome), b'.pos.value, b'.cursors,
                   b'.record.acked);
    } else {
      StoppedBalances(b);
    }
  }

  lemma TurnRuns(m: Moment, b: Books, b': Account)
    requires Turned(m, b, b')
    ensures Ran([m], b, b')
  {
    if m.leader {
      var mid :| Started(m, b, mid) && GoneBy(mid, m.outcome, m.end, b');
      StartRuns(m, b, mid);
      PassRuns(m, mid, b');
      RanThen([m], [m], [m], b, mid, b');
    } else {
      assert !([m][0]).leader;
      assert RanBy([m], b, b', []);
    }
  }

  type Relation = (Account, Moment, Account) -> bool

  ghost function Turning(): Relation {
    (b, m, b') => Turned(m, b, b')
  }

  /** Any number of turns, one after the other. */
  ghost predicate Runs(moments: seq<Moment>, b: Account, b': Account) {
    RunsTo(Turning(), moments, |moments|, b, b')
  }

  ghost predicate RunsTo(turn: Relation, moments: seq<Moment>, n: nat, b: Account, b': Account)
    requires n <= |moments|
  {
    if n == 0 then b' == b
    else
      var k, m := n - 1, moments[n - 1];
      exists mid :: RunsTo(turn, moments, k, b, mid) && turn(mid, m, b')
  }

  lemma RunsNext(turn: Relation, moments: seq<Moment>, n: nat, b: Account, mid: Account, b': Account)
    requires n < |moments| && RunsTo(turn, moments, n, b, mid) && turn(mid, moments[n], b')
    ensures RunsTo(turn, moments, n + 1, b, b')
  {
  }

  /** Turns with any failures, leadership coming and going and destinations changing. */
  method Run(w: Worker, moments: seq<Moment>)
    requires w.Valid()
    modifies w`cursors, w`scanPos, w`books
    ensures w.Valid() && Runs(moments, old(w.books), w.books)
  {
    RunAll(w, moments, Turning());
  }

  method RunAll(w: Worker, moments: seq<Moment>, ghost turn: Relation)
    requires w.Valid() && forall m, b, b' :: Turned(m, b, b') ==> turn(b, m, b')
    modifies w`cursors, w`scanPos, w`books
    ensures w.Valid() && RunsTo(turn, moments, |moments|, old(w.books), w.books)
  {
    for i := 0 to |moments|
      invariant w.Valid() && RunsTo(turn, moments, i, old(w.books), w.books)
    {
      ghost var mid := w.books;
      RunOne(w, moments[i], turn);
      RunsNext(turn, moments, i, old(w.books), mid, w.books);
    }
  }

  method RunOne(w: Worker, m: Moment, ghost turn: Relation)
    requires w.Valid() && forall m, b, b' :: Turned(m, b, b') ==> turn(b, m, b')
    modifies w`cursors, w`scanPos, w`books
    ensures w.Valid() && turn(old(w.books), m, w.books)
  {
    w.Turn(m);
  }

  lemma RanNext(some: seq<Moment>, m: Moment, b: Books, mid: Account, b': Account)
    requires Balanced(mid) && Ran(some, b, mid) && Turned(m, mid, b')
    ensures Balanced(b') && Ran(some + [m], b, b')
  {
    TurnBalances(m, mid, b');
    TurnRuns(m, mid, b');
    RanThen(some, [m], some + [m], b, mid, b');
  }

  /** What holds before any turn and is kept by every turn holds after a run. */
  lemma {:induction false} RunInduction(turn: Relation, keeps: (seq<Moment>, Account) -> bool, moments: seq<Moment>,
                                        n: nat, b: Account, b': Account)
    requires keeps([], b)
    requires forall some, m, mid, b' :: keeps(some, mid) && turn(mid, m, b') ==> keeps(some + [m], b')
    requires n <= |moments| && RunsTo(turn, moments, n, b, b')
    ensures keeps(moments[..n], b')
  {
    if n > 0 {
      var mid :| RunsTo(turn, moments, n - 1, b, mid) && turn(mid, moments[n - 1], b');
      RunInduction(turn, keeps, moments, n - 1, b, mid);
      assert moments[..n] == moments[..n - 1] + [moments[n - 1]];
    }
  }

  lemma RunsKeep(moments: seq<Moment>, b: Books, b': Account)
    requires Runs(moments, b, b')
    ensures Balanced(b') && Ran(moments, b, b')
  {
    ghost var keeps := (some, mid) => Balanced(mid) && Ran(some, b, mid);
    assert RanBy([], b, b, []);
    forall some, m, mid, b' | keeps(some, mid) && Turning()(mid, m, b') ensures keeps(some + [m], b') {
      RanNext(some, m, b, mid, b');
    }
    RunInduction(Turning(), keeps, moments, |moments|, b, b');
    assert moments[..|moments|] == moments;
  }

  // ---------------------------------------------------------------- nothing is skipped

  /**
   * Acknowledged, or one of the steps is to blame: a pass that could not read what it needed to
   * find the event, one that found it late, or the start of a tenure above it.
   */
  ghost predicate Answerable(b: Account, steps: seq<Step>, a: Ack) {
    a in b.record.acked || WasUnfound(steps, a) || WasLate(steps, a) || WasLeft(steps, a, b.changed)
  }

  /** The event is at or below the floor or the destination's cursor. */
  predicate Behind(b: Account, d: Destination, s: nat) {
    (b.pos.Some? && s <= b.pos.value) || (d in b.cursors && s <= b.cursors[d])
  }

  /** Or the destination has acknowledged a later one. */
  ghost predicate Reached(b: Account, d: Destination, s: nat) {
    Behind(b, d, s) || exists t :: t > s && (d, t) in b.record.acked
  }

  lemma ReachedIs(b: Books, d: Destination, s: nat)
    requires d !in b.changed && s >= 1 && d in b.usual(s) && Reached(b, d, s)
    ensures var r := b.record;
            (d, s) in r.acked || (d, s) in r.unread || (d, s) in r.forgotten ||
            ((d, s) in r.jumped && !Behind(b, d, s))
  {
    assert Steady(b.usual, b.record, b.cursors, d);
    if t :| t > s && (d, t) in b.record.acked {
      assert InTurn(b.usual, b.record, d, t);
    }
    assert (d, s) !in b.record.late;
  }

  /**
   * No event is skipped without a cause, in the whole life of a worker. Whatever is at or below the
   * floor is answerable for all the destinations it had; and of a destination whose events have not
   * changed every event that is reached was acknowledged, could not be found by some pass, or was
   * left by the start of a tenure.
   */
  lemma Promise(moments: seq<Moment>, b: Books, d: Destination, s: nat) returns (steps: seq<Step>)
    requires Runs(moments, Opening(b.usual), b) && s >= 1
    ensures StepsOf(steps, moments, map[])
    ensures b.pos.Some? && s <= b.pos.value ==>
              && s in b.record.resolved && WasOwned(steps, s, b.record.resolved[s])
              && (d in b.record.resolved[s] ==> Answerable(b, steps, (d, s)))
    ensures d !in b.changed && d in b.usual(s) && Reached(b, d, s) ==>
              (d, s) in b.record.acked || WasUnfound(steps, (d, s)) || WasLeft(steps, (d, s), b.changed)
  {
    RunsKeep(moments, Opening(b.usual), b);
    steps :| RanBy(moments, Opening(b.usual), b, steps);
    if d !in b.changed && d in b.usual(s) && Reached(b, d, s) {
      ReachedIs(b, d, s);
    }
  }

  /** The event could not be read, or the room's members could not and it does not name the destination. */
  predicate Unreadable(o: Outcome, d: Destination, s: nat) {
    d in Owners(o)(s) && !(o.eventRead(s) && (o.membersRead(s) || o.target(s) == Some(d)))
  }

  /** At some moment the node led and could not read the event. */
  ghost predicate Unread(moments: seq<Moment>, d: Destination, s: nat) {
    exists i :: 0 <= i < |moments| && moments[i].leader && Unreadable(moments[i].outcome, d, s)
  }

  lemma UnfoundIsUnread(steps: seq<Step>, moments: seq<Moment>, was: Cursors, d: Destination, s: nat)
    requires StepsOf(steps, moments, was) && WasUnfound(steps, (d, s))
    ensures Unread(moments, d, s)
  {
    var k :| 0 <= k < |steps| && Unfound(steps[k], (d, s));
    assert StepFrom(steps[k], moments, was);
    FoundMeans(steps[k].outcome, d, s);
  }

  /** With its cursor in every table and every table read, a destination is not left behind. */
  lemma KeptInTable(steps: seq<Step>, moments: seq<Moment>, was: Cursors, changed: iset<Destination>, d: Destination,
                    s: nat)
    requires StepsOf(steps, moments, was) && d in was && d !in changed
    requires forall i :: 0 <= i < |moments| ==> moments[i].cursorsRead
    ensures !WasLeft(steps, (d, s), changed)
  {
    forall k | 0 <= k < |steps| ensures !Left(steps[k], (d, s), changed) {
      assert StepFrom(steps[k], moments, was);
    }
  }

  /** The node leads all along, or the destination has a cursor and every new leader reads the table. */
  ghost predicate Remembered(moments: seq<Moment>, b: Account, d: Destination) {
    || (b.pos.Some? && forall i :: 0 <= i < |moments| ==> moments[i].leader)
    || (d in b.cursors && forall i :: 0 <= i < |moments| ==> moments[i].cursorsRead)
  }

  lemma NoneForgotten(moments: seq<Moment>, b: Account, b': Account, news: seq<Step>, d: Destination, s: nat)
    requires RanBy(moments, b, b', news) && Remembered(moments, b, d) && d !in b'.changed
    ensures (d, s) in b'.record.forgotten ==> (d, s) in b.record.forgotten
  {
    if d in b.cursors && forall i :: 0 <= i < |moments| ==> moments[i].cursorsRead {
      KeptInTable(news, moments, b.cursors, b'.changed, d, s);
    }
  }

  /**
   * Any number of turns and tenures: for a destination that is remembered and whose events do not
   * change, of what had not come due or been jumped before, whatever is reached is acknowledged, or
   * could not be read at some moment.
   */
  lemma NothingSkipped(moments: seq<Moment>, b: Books, b': Books, d: Destination, s: nat)
    requires Runs(moments, b, b') && Remembered(moments, b, d) && d !in b.changed && Unchanged(moments, b.usual, d)
    requires s >= 1 && d in b.usual(s) && (d, s) !in b.record.due && Reached(b', d, s)
    requires Behind(b', d, s) || (d, s) !in b.record.jumped
    ensures (d, s) in b'.record.acked || Unread(moments, d, s)
  {
    RunsKeep(moments, b, b');
    var news :| RanBy(moments, b, b', news);
    ReachedIs(b', d, s);
    NoneForgotten(moments, b, b', news, d, s);
    if (d, s) !in b'.record.acked {
      assert WasUnfound(news, (d, s));
      UnfoundIsUnread(news, moments, b.cursors, d, s);
    }
  }

  /** With all reads successful nothing is skipped at all, and acknowledged events leave no gap. */
  lemma AllDelivered(moments: seq<Moment>, b: Books, b': Books, d: Destination, s: nat, t: nat)
    requires Runs(moments, b, b') && Remembered(moments, b, d) && d !in b.changed && Unchanged(moments, b.usual, d)
    requires forall i :: 0 <= i < |moments| ==> !Unreadable(moments[i].outcome, d, s)
    requires s >= 1 && d in b.usual(s) && (d, s) !in b.record.due
    ensures Behind(b', d, s) ==> (d, s) in b'.record.acked
    ensures (d, s) !in b.record.jumped && s < t && (d, t) in b'.record.acked ==> (d, s) in b'.record.acked
  {
    if Behind(b', d, s) || ((d, s) !in b.record.jumped && s < t && (d, t) in b'.record.acked) {
      NothingSkipped(moments, b, b', d, s);
    }
  }

  /**
   * A tenure that starts from a floor: what lies at or below the floor is not sent, and of what
   * lies above and had not come due before, whatever the new floor passes is acknowledged, or could
   * not be read at some moment.
   */
  ghost predicate Fair(moments: seq<Moment>, b: Account, start: nat, f: Fanout, b': Account) {
    && b'.pos.Some?
    && (forall a: Ack :: a.1 <= start ==> (a in b'.record.acked <==> a in b.record.acked))
    && (forall d, s: nat ::
          d !in b.changed && Agrees(f, b.usual, d) && Unchanged(moments, b.usual, d) &&
          start < s <= b'.pos.value && d in b.usual(s) && (d, s) !in b.record.due ==>
            (d, s) in b'.record.acked || Unread(moments, d, s))
  }

  lemma TenureIsFair(moments: seq<Moment>, b: Books, start: nat, f: Fanout, mid: Books, b': Books)
    requires mid == Led(b, start, f) && Runs(moments, mid, b') && forall i :: 0 <= i < |moments| ==> moments[i].leader
    ensures Fair(moments, b, start, f, b')
  {
    RunsKeep(moments, mid, b');
    forall d, s: nat | d !in b.changed && Agrees(f, b.usual, d) && Unchanged(moments, b.usual, d) &&
                       start < s <= b'.pos.value && d in b.usual(s) && (d, s) !in b.record.due
      ensures (d, s) in b'.record.acked || Unread(moments, d, s)
    {
      NothingSkipped(moments, mid, b', d, s);
    }
  }

  /** A whole tenure from the change of leadership on. */
  method ServeTenure(w: Worker, tip: Option<nat>, cursorsRead: bool, ghost f: Fanout, moments: seq<Moment>)
    returns (start: nat)
    requires w.Valid() && w.scanPos == None && forall i :: 0 <= i < |moments| ==> moments[i].leader
    modifies w`cursors, w`scanPos, w`books
    ensures w.Valid() && StartsAt(old(w.cursors), cursorsRead, tip, start)
    ensures Fair(moments, old(w.books), start, f, w.books)
  {
    w.Lead(tip, cursorsRead, f);
    start := w.scanPos.value;
    ghost var mid := w.books;
    Run(w, moments);
    TenureIsFair(moments, old(w.books), start, f, mid, w.books);
  }

  // ---------------------------------------------------------------- how far others get

  /** An event the destination is owed and has not got; it is backing off, and its cursor is below the event. */
  ghost predicate Waits(b: Account, d: Destination, s: nat) {
    && b.pos.Some? && b.pos.value < s && (d, s) !in b.record.acked && (d in b.cursors ==> b.cursors[d] < s)
  }

  ghost predicate KeepsBackingOff(m: Moment, d: Destination, s: nat) {
    m.leader && !m.outcome.ready(d) && Found(m.outcome, d, s)
  }

  /** The floor stays below what somebody waits for, so nobody gets anything a batch further on. */
  ghost predicate Held(b: Account, b': Account, d: Destination, s: nat) {
    Waits(b', d, s) && forall a: Ack :: a in b'.record.acked ==> a in b.record.acked || a.1 < s + SCAN_BATCH
  }

  lemma PassHolds(o: Outcome, floor: nat, last: nat, floor': nat, was: Cursors, now: Cursors, acked: set<Ack>,
                  acked': set<Ack>, d: Destination, s: nat)
    requires Passed(o, floor, last, floor', was, now, acked, acked') && !o.ready(d) && Found(o, d, s)
    requires floor < s && (d, s) !in acked && (d in was ==> was[d] < s)
    ensures floor' < s && (d, s) !in acked' && (d in now ==> now[d] < s)
    ensures forall a: Ack :: a in acked' && a !in acked ==> a.1 <= last
  {
    assert forall t: nat :: (d, t) in acked' && (d, t) !in acked ==> Granted(o, floor, last, was, (d, t));
    assert PassedOver(floor, last, floor', was, now, acked, acked', d, s) || floor' < s;
    assert !MovedPast(floor', was, now, d, s);
  }

  lemma TurnHolds(m: Moment, b: Account, b': Account, d: Destination, s: nat)
    requires Turned(m, b, b') && Waits(b, d, s) && KeepsBackingOff(m, d, s)
    ensures Held(b, b', d, s)
  {
    var mid :| Started(m, b, mid) && GoneBy(mid, m.outcome, m.end, b');
    PassHolds(m.outcome, b.pos.value, BatchEnd(b.pos.value, m.end, m.outcome), b'.pos.value, b.cursors, b'.cursors,
              b.record.acked, b'.record.acked, d, s);
  }

  /** All of some moments keep the destination backing off. */
  ghost predicate AllBackOff(some: seq<Moment>, d: Destination, s: nat) {
    forall i :: 0 <= i < |some| ==> KeepsBackingOff(some[i], d, s)
  }

  lemma HeldNext(some: seq<Moment>, m: Moment, b: Account, mid: Account, b': Account, d: Destination, s: nat)
    requires AllBackOff(some, d, s) ==> Held(b, mid, d, s)
    requires Turned(m, mid, b')
    ensures AllBackOff(some + [m], d, s) ==> Held(b, b', d, s)
  {
    if AllBackOff(some + [m], d, s) {
      assert forall i :: 0 <= i < |some| ==> some[i] == (some + [m])[i];
      assert (some + [m])[|some|] == m;
      TurnHolds(m, mid, b', d, s);
    }
  }

  /**
   * One destination that keeps backing off does hold others back: as long as it waits for an event,
   * no event from a whole batch further on is sent to anybody.
   */
  lemma HeldBack(moments: seq<Moment>, b: Account, b': Account, d: Destination, s: nat)
    requires Runs(moments, b, b') && Waits(b, d, s) && AllBackOff(moments, d, s)
    ensures Held(b, b', d, s)
  {
    var keeps := (some: seq<Moment>, mid: Account) => AllBackOff(some, d, s) ==> Held(b, mid, d, s);
    forall some, m, mid, b' | keeps(some, mid) && Turning()(mid, m, b') ensures keeps(some + [m], b') {
      HeldNext(some, m, b, mid, b', d, s);
    }
    RunInduction(Turning(), keeps, moments, |moments|, b, b');
    assert moments[..|moments|] == moments;
  }

  // ---------------------------------------------------------------- where the promise ends

  function Fine(f: Fanout): Outcome {
    Outcome(f, (s: nat) => None, true, (s: nat) => true, (s: nat) => true, d => true, d => true,
            (d, s: nat) => true, (d, s: nat) => true)
  }

  /** The books of a first leader at the start of the timeline. */
  ghost predicate Blank(b: Account, f: Fanout) {
    && b.usual == f && b.cursors == map[] && b.pos == Some(0)
    && b.record.acked == {} && b.record.due == {} && b.changed == iset{}
  }

  method FirstLeader(f: Fanout) returns (w: Worker)
    ensures fresh(w) && w.Valid() && Blank(w.books, f)
  {
    w := new Worker(f);
    w.Lead(Some(0), true, f);
    assert Differing(f, f) == iset{} && Owed(f, 0) == {};
  }

  /** Leadership lost and gained again. */
  method ChangeLeader(w: Worker, tip: nat, cursorsRead: bool, f: Fanout)
    requires w.Valid()
    modifies w`scanPos, w`books, w`cursors
    ensures w.Valid() && w.cursors == old(w.cursors) && w.books.record.acked == old(w.books).record.acked
    ensures w.books.usual == old(w.books).usual
    ensures w.scanPos.Some? && StartsAt(w.cursors, cursorsRead, Some(tip), w.scanPos.value)
  {
    w.Turn(Moment(false, None, false, 0, Fine(f)));
    w.Lead(Some(tip), cursorsRead, f);
  }

  /** What a pass does not find and the floor passes is unread, and not the destination's doing. */
  lemma NotFoundIsUnread(b: Account, o: Outcome, end: nat, b': Account, d: Destination, s: nat)
    requires GoneBy(b, o, end, b') && d in Owners(o)(s) && !Found(o, d, s) && Agrees(Owners(o), b.usual, d)
    requires b.pos.value < s <= b'.pos.value && (d, s) !in b.record.acked && (d, s) !in b.record.due
    ensures (d, s) !in b'.record.acked && (d, s) in b'.record.unread
    ensures d !in b.changed ==> d !in b'.changed
  {
    assert (d, s) in CameDue(o, b.pos.value, BatchEnd(b.pos.value, end, o), b'.pos.value, b.cursors, b'.cursors);
  }

  /** The floor moves past an event that could not be looked up: it is not sent. */
  method LookupFailureLoses() returns (w: Worker)
    ensures w.Valid() && w.scanPos == Some(1) && "a" in w.books.usual(1) && ("a", 1) !in w.books.record.acked
    ensures ("a", 1) in w.books.record.unread && "a" !in w.books.changed
  {
    var f: Fanout := (s: nat) => ["a"];
    w := FirstLeader(f);
    ghost var b, o := w.books, Fine(f).(eventRead := (s: nat) => false);
    w.DeliverPdus(1, Fine(f).(eventRead := (s: nat) => false));
    NotFoundIsUnread(b, o, 1, w.books, "a", 1);
  }

  /** Nor is one whose room's members could not be read. */
  method MembersFailureLoses() returns (w: Worker)
    ensures w.Valid() && w.scanPos == Some(1) && "a" in w.books.usual(1) && ("a", 1) !in w.books.record.acked
    ensures ("a", 1) in w.books.record.unread && "a" !in w.books.changed
  {
    var f: Fanout := (s: nat) => ["a"];
    w := FirstLeader(f);
    ghost var b, o := w.books, Fine(f).(membersRead := (s: nat) => false);
    w.DeliverPdus(1, Fine(f).(membersRead := (s: nat) => false));
    NotFoundIsUnread(b, o, 1, w.books, "a", 1);
  }

  /** Two events, for "b" and for "a". */
  function BThenA(): Fanout {
    (s: nat) => if s == 1 then ["b"] else ["a"]
  }

  /** The second cannot be looked up, and "b" does not answer. */
  function FirstTry(): Outcome {
    Fine(BThenA()).(eventRead := (s: nat) => s == 1, answered := (d, s: nat) => d != "b")
  }

  lemma StuckBehind(floor: nat, now: Cursors, acked: set<Ack>)
    requires Passed(FirstTry(), 0, 2, floor, map[], now, {}, acked)
    ensures floor == 0 && now == map[] && acked == {}
  {
    var o := FirstTry();
    assert Listed(o, 1) == ["b"] && Listed(o, 2) == [];
    assert forall a: Ack :: !Granted(o, 0, 2, map[], a);
    assert Sendable(o, map[], "b", 1);
    assert !PassedOver(0, 2, floor, map[], now, {}, acked, "b", 1);
  }

  lemma BothDelivered(now: Cursors, acked: set<Ack>)
    requires Passed(Fine(BThenA()), 0, 2, 2, map[], now, {}, acked)
    ensures ("a", 2) in acked && ("b", 1) in acked
  {
    PassExact(Fine(BThenA()), 0, 2, 2, map[], now, {}, acked, "a", 2);
    PassExact(Fine(BThenA()), 0, 2, 2, map[], now, {}, acked, "b", 1);
  }

  /** But an event that is read again before the floor passes it is sent, though its first lookup failed. */
  method SecondLookupDelivers() returns (w: Worker)
    ensures w.Valid() && w.scanPos == Some(2)
    ensures ("a", 2) in w.books.record.acked && ("b", 1) in w.books.record.acked
  {
    w := FirstLeader(BThenA());
    Pass(w, 2, FirstTry());
    StuckBehind(w.scanPos.value, w.cursors, w.books.record.acked);
    Pass(w, 2, Fine(BThenA()));
    BothDelivered(w.cursors, w.books.record.acked);
  }

  /** A pass, as far as acknowledgements go. */
  method Pass(w: Worker, end: nat, o: Outcome)
    requires w.Valid() && w.scanPos.Some?
    modifies w`cursors, w`scanPos, w`books
    ensures w.Valid() && w.scanPos.Some? && w.books.usual == old(w.books).usual
    ensures var floor := old(w.scanPos).value;
            Passed(o, floor, BatchEnd(floor, end, o), w.scanPos.value, old(w.cursors), w.cursors,
                   old(w.books).record.acked, w.books.record.acked)
    ensures AllWell(o) ==> w.scanPos.value == BatchEnd(old(w.scanPos).value, end, o)
  {
    w.DeliverPdus(end, o);
  }

  lemma NobodyReady(o: Outcome, last: nat, floor: nat, now: Cursors, acked: set<Ack>)
    requires Passed(o, 0, last, floor, map[], now, {}, acked) && forall d :: !o.ready(d)
    ensures now == map[] && acked == {}
  {
    assert forall a: Ack :: !Granted(o, 0, last, map[], a);
  }

  /** A destination that has no cursor is not remembered by the next leader. */
  method NewLeaderForgets() returns (w: Worker)
    ensures w.Valid() && w.scanPos == Some(1) && "a" in w.books.usual(1) && ("a", 1) !in w.books.record.acked
    ensures "a" !in w.cursors
  {
    var f: Fanout := (s: nat) => ["a"];
    w := FirstLeader(f);
    var o := Fine(f).(ready := d => false);
    Pass(w, 1, o);
    NobodyReady(o, BatchEnd(0, 1, o), w.scanPos.value, w.cursors, w.books.record.acked);
    ChangeLeader(w, 1, true, f);
  }

  lemma OneDelivered(o: Outcome, now: Cursors, acked: set<Ack>)
    requires Passed(o, 0, 1, 1, map[], now, {}, acked)
    requires Listed(o, 1) == ["a"] && Writable(o, "a")
    ensures acked == {("a", 1)} && "a" in now && now["a"] == 1
  {
    PassExact(o, 0, 1, 1, map[], now, {}, acked, "a", 1);
    forall a | a in acked ensures a == ("a", 1) {
      assert Granted(o, 0, 1, map[], a);
    }
    assert ("a", 1) in acked;
  }

  /** Where the cursor table cannot be read, not even one with a cursor is. */
  method UnreadTableForgets() returns (w: Worker)
    ensures w.Valid() && w.scanPos == Some(2) && "a" in w.books.usual(2) && ("a", 2) !in w.books.record.acked
    ensures "a" in w.cursors && w.cursors["a"] == 1
  {
    var f: Fanout := (s: nat) => ["a"];
    w := FirstLeader(f);
    Pass(w, 1, Fine(f));
    OneDelivered(Fine(f), w.cursors, w.books.record.acked);
    ChangeLeader(w, 2, false, f);
  }

  /** An event for "a", and all others for "b". */
  function OneForA(): Fanout {
    (s: nat) => if s == 1 then ["a"] else ["b"]
  }

  /** However often the worker turns while "a" is down, "b" does not get event 300, though it is up and answers. */
  method SlowPeerStalls(turns: nat) returns (w: Worker)
    ensures w.Valid() && ("b", 300) !in w.books.record.acked
  {
    w := FirstLeader(OneForA());
    var o := Fine(OneForA()).(ready := d => d != "a");
    var moments := seq(turns, i => Moment(true, None, true, 1000, o));
    ghost var b := w.books;
    Run(w, moments);
    assert Found(o, "a", 1) && AllBackOff(moments, "a", 1);
    HeldBack(moments, b, w.books, "a", 1);
  }
}
