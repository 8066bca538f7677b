/**
 * Change-stream subscriptions end to end: a serving replica replays its journal and splices
 * into a lossy broadcast; the client resumes at any other replica, however far behind, after
 * the stream breaks. Every await point of the two loops is a step of its own.
 */
module Subscription {

  type Payload = string

  datatype Record = Record(number: nat, payload: Payload)

  const REPLAY_BATCH := 256

  // ---------------------------------------------------------------- the journal

  /** Record number n of the committed journal; numbers start at 1. */
  function RecordAt(journal: seq<Payload>, n: nat): Record
    requires 1 <= n <= |journal|
  {
    Record(n, journal[n - 1])
  }

  /** The journal records with numbers in (a, b]. */
  function Records(journal: seq<Payload>, a: nat, b: nat): seq<Record>
    requires a <= b && (a == b || b <= |journal|)
  {
    seq(b - a, i requires 0 <= i < b - a => RecordAt(journal, a + 1 + i))
  }

  /** `replay(from, limit)` on a replica that has applied a prefix of the journal. */
  function Replay(journal: seq<Payload>, applied: nat, from: nat, limit: nat): seq<Record>
    requires applied <= |journal|
  {
    if applied <= from then []
    else Records(journal, from, if from + limit < applied then from + limit else applied)
  }

  // ---------------------------------------------------------------- the system

  /** How far a replica has applied, and the numbers it has broadcast so far. */
  datatype Replica = Replica(applied: nat, channel: seq<nat>)

  datatype Phase =
    | Backfill                                       // about to read the next replay batch
    | Sending(batch: seq<Record>, final: bool)       // sending a replay batch
    | Live                                           // waiting on the broadcast
    | Filling(hole: seq<Record>, live: Record)       // sending a hole, then the live record

  /** The serving side of the current connection. */
  datatype Task = Closed | Serving(replica: nat, last: nat, position: nat, phase: Phase)

  datatype Client = Client(from: nat, last: nat, yielded: seq<Record>)

  datatype System = System(
    journal: seq<Payload>,
    replicas: seq<Replica>,
    task: Task,
    wire: seq<Record>,
    client: Client)

  datatype Step =
    | Commit(payload: Payload)
    | Apply(r: nat, upTo: nat)
    | Broadcast(r: nat, number: nat)
    | Connect(r: nat)
    | ReplayBatch
    | SendNext
    | BatchDone
    | Receive
    | FillNext
    | FillDone
    | Lag
    | Break
    | LoseFrames(kept: nat)
    | Deliver

  ghost predicate Initial(s: System, from: nat) {
    && s.task == Closed && s.wire == [] && s.client == Client(from, from, [])
    && forall r :: 0 <= r < |s.replicas| ==>
         s.replicas[r].applied <= |s.journal| && s.replicas[r].channel == []
  }

  predicate InPhase(s: System) {
    s.task.Serving? && s.task.replica < |s.replicas| &&
    s.replicas[s.task.replica].applied <= |s.journal|
  }

  predicate Enabled(s: System, step: Step) {
    match step
    case Commit(_) => true
    case Apply(r, upTo) => r < |s.replicas| && s.replicas[r].applied <= upTo <= |s.journal|
    // A row is in the journal before it is broadcast; order and omissions are left open.
    case Broadcast(r, n) => r < |s.replicas| && 1 <= n <= s.replicas[r].applied
    case Connect(r) => r < |s.replicas| && s.task.Closed? && s.wire == []
    case ReplayBatch => InPhase(s) && s.task.phase.Backfill?
    case SendNext => InPhase(s) && s.task.phase.Sending? && s.task.phase.batch != []
    case BatchDone => InPhase(s) && s.task.phase.Sending? && s.task.phase.batch == []
    case Receive =>
      && InPhase(s) && s.task.phase.Live? && s.task.position < |s.replicas[s.task.replica].channel|
      && 1 <= s.replicas[s.task.replica].channel[s.task.position] <= |s.journal|
    case FillNext => InPhase(s) && s.task.phase.Filling? && s.task.phase.hole != []
    case FillDone => InPhase(s) && s.task.phase.Filling? && s.task.phase.hole == []
    case Lag => InPhase(s) && s.task.phase.Live?
    case Break => s.task.Serving?
    case LoseFrames(kept) => s.task.Closed? && kept <= |s.wire|
    case Deliver => s.wire != []
  }

  function Take(s: System, step: Step): System
    requires Enabled(s, step)
  {
    match step
    case Commit(payload) => s.(journal := s.journal + [payload])
    case Apply(r, upTo) => s.(replicas := s.replicas[r := s.replicas[r].(applied := upTo)])
    case Broadcast(r, n) =>
      s.(replicas := s.replicas[r := s.replicas[r].(channel := s.replicas[r].channel + [n])])
    case Connect(r) =>
      s.(task := Serving(r, s.client.last, |s.replicas[r].channel|, Backfill))
    case ReplayBatch =>
      var batch := Replay(s.journal, s.replicas[s.task.replica].applied, s.task.last, REPLAY_BATCH);
      s.(task := s.task.(phase := Sending(batch, |batch| < REPLAY_BATCH)))
    case SendNext =>
      var x := s.task.phase.batch[0];
      s.(task := s.task.(last := x.number, phase := s.task.phase.(batch := s.task.phase.batch[1..])),
         wire := s.wire + [x])
    case BatchDone =>
      s.(task := s.task.(phase := if s.task.phase.final then Live else Backfill))
    case Receive =>
      var n := s.replicas[s.task.replica].channel[s.task.position];
      var next := s.task.(position := s.task.position + 1);
      if n <= s.task.last then s.(task := next)
      else if n > s.task.last + 1 then
        var hole := Replay(s.journal, s.replicas[s.task.replica].applied, s.task.last, n - s.task.last);
        s.(task := next.(phase := Filling(hole, RecordAt(s.journal, n))))
      else s.(task := next.(phase := Filling([], RecordAt(s.journal, n))))
    case FillNext =>
      var x := s.task.phase.hole[0];
      if x.number >= s.task.phase.live.number then s.(task := s.task.(phase := s.task.phase.(hole := [])))
      else s.(task := s.task.(phase := s.task.phase.(hole := s.task.phase.hole[1..])), wire := s.wire + [x])
    case FillDone =>
      s.(task := s.task.(last := s.task.phase.live.number, phase := Live), wire := s.wire + [s.task.phase.live])
    case Lag =>
      s.(task := s.task.(position := |s.replicas[s.task.replica].channel|, phase := Backfill))
    case Break => s.(task := Closed)
    case LoseFrames(kept) => s.(wire := s.wire[..kept])
    case Deliver =>
      var x := s.wire[0];
      if x.number <= s.client.last then s.(wire := s.wire[1..])
      else s.(wire := s.wire[1..],
              client := s.client.(last := x.number, yielded := s.client.yielded + [x]))
  }

  /** t is reached from s by a run of enabled steps. */
  ghost predicate Runs(s: System, steps: seq<Step>, t: System)
    decreases |steps|
  {
    if steps == [] then t == s
    else Enabled(s, steps[0]) && Runs(Take(s, steps[0]), steps[1..], t)
  }

  // ---------------------------------------------------------------- facts about stretches

  lemma RecordsLast(journal: seq<Payload>, a: nat, b: nat)
    requires a <= b < |journal|
    ensures Records(journal, a, b) + [RecordAt(journal, b + 1)] == Records(journal, a, b + 1)
  {
  }

  lemma RecordsStay(journal: seq<Payload>, more: seq<Payload>, a: nat, b: nat)
    requires a <= b && (a == b || b <= |journal|) && journal <= more
    ensures Records(more, a, b) == Records(journal, a, b)
  {
    forall i | 0 <= i < b - a ensures Records(more, a, b)[i] == Records(journal, a, b)[i] {
      assert Records(more, a, b)[i] == RecordAt(more, a + 1 + i);
      assert Records(journal, a, b)[i] == RecordAt(journal, a + 1 + i);
      assert more[..|journal|] == journal;
    }
  }

  // ---------------------------------------------------------------- the invariant

  /** q is the stretch of the journal that follows number a. */
  ghost predicate Follows(journal: seq<Payload>, a: nat, q: seq<Record>) {
    && (|q| > 0 ==> a + |q| <= |journal|)
    && q == Records(journal, a, a + |q|)
  }

  lemma FollowsPop(journal: seq<Payload>, a: nat, q: seq<Record>)
    requires Follows(journal, a, q) && q != []
    ensures a < |journal| && q[0] == RecordAt(journal, a + 1) && Follows(journal, a + 1, q[1..])
  {
  }

  lemma FollowsPush(journal: seq<Payload>, a: nat, q: seq<Record>, n: nat)
    requires Follows(journal, a, q) && n == a + |q| + 1 <= |journal|
    ensures Follows(journal, a, q + [RecordAt(journal, n)])
  {
  }

  lemma FollowsStays(journal: seq<Payload>, more: seq<Payload>, a: nat, q: seq<Record>)
    requires Follows(journal, a, q) && journal <= more
    ensures Follows(more, a, q)
  {
    RecordsStay(journal, more, a, a + |q|);
  }

  lemma FollowsReplay(journal: seq<Payload>, applied: nat, from: nat, limit: nat)
    requires applied <= |journal|
    ensures Follows(journal, from, Replay(journal, applied, from, limit))
    ensures from < applied ==>
            |Replay(journal, applied, from, limit)| == if from + limit < applied then limit else applied - from
  {
  }

  /** The number of the last frame sent: what the client will have once the wire is drained. */
  function Head(s: System): nat {
    s.client.last + |s.wire|
  }

  ghost predicate ReplicaOk(journal: seq<Payload>, r: Replica) {
    r.applied <= |journal| && forall n :: n in r.channel ==> 1 <= n <= r.applied
  }

  ghost predicate TaskOk(s: System) {
    s.task.Serving? ==>
      && s.task.replica < |s.replicas|
      && match s.task.phase
         case Backfill => s.task.last == Head(s)
         case Live => s.task.last == Head(s)
         case Sending(batch, _) => s.task.last == Head(s) && Follows(s.journal, Head(s), batch)
         case Filling(hole, live) => HoleOk(s.journal, Head(s), hole, live)
  }

  /** The hole to send after number a leads up to the live record. */
  ghost predicate HoleOk(journal: seq<Payload>, a: nat, hole: seq<Record>, live: Record) {
    && Follows(journal, a, hole)
    && a < live.number <= |journal| && live.number <= a + |hole| + 1
    && live == RecordAt(journal, live.number)
  }

  lemma HolePops(journal: seq<Payload>, a: nat, hole: seq<Record>, live: Record)
    requires HoleOk(journal, a, hole, live) && hole != []
    ensures a < |journal| && hole[0] == RecordAt(journal, a + 1)
    ensures if hole[0].number >= live.number then HoleOk(journal, a, [], live)
            else HoleOk(journal, a + 1, hole[1..], live)
  {
  }

  ghost predicate ClientOk(s: System) {
    && s.client.from <= s.client.last
    && (s.client.last > s.client.from ==> s.client.last <= |s.journal|)
    && s.client.yielded == Records(s.journal, s.client.from, s.client.last)
  }

  ghost predicate Invariant(s: System) {
    && (forall r :: 0 <= r < |s.replicas| ==> ReplicaOk(s.journal, s.replicas[r]))
    && Follows(s.journal, s.client.last, s.wire)
    && TaskOk(s) && ClientOk(s)
  }

  lemma CommitKeeps(s: System, payload: Payload)
    requires Invariant(s)
    ensures Invariant(Take(s, Commit(payload)))
  {
    var more := s.journal + [payload];
    var t := Take(s, Commit(payload));
    RecordsStay(s.journal, more, s.client.from, s.client.last);
    FollowsStays(s.journal, more, s.client.last, s.wire);
    assert forall r :: 0 <= r < |s.replicas| ==> ReplicaOk(s.journal, s.replicas[r]);
    assert TaskOk(t) by {
      TaskStays(s, t);
    }
  }

  lemma TaskStays(s: System, t: System)
    requires TaskOk(s) && s.journal <= t.journal && t == s.(journal := t.journal)
    ensures TaskOk(t)
  {
    if s.task.Serving? {
      match s.task.phase
      case Sending(batch, _) => FollowsStays(s.journal, t.journal, Head(s), batch);
      case Filling(hole, _) => FollowsStays(s.journal, t.journal, Head(s), hole);
      case _ =>
    }
  }

  lemma ReplayKeeps(s: System)
    requires Invariant(s) && Enabled(s, ReplayBatch)
    ensures Invariant(Take(s, ReplayBatch))
  {
  }

  lemma SendKeeps(s: System)
    requires Invariant(s) && Enabled(s, SendNext)
    ensures Invariant(Take(s, SendNext))
  {
    FollowsPop(s.journal, Head(s), s.task.phase.batch);
    FollowsPush(s.journal, s.client.last, s.wire, Head(s) + 1);
  }

  lemma ReceiveKeeps(s: System)
    requires Invariant(s) && Enabled(s, Receive)
    ensures Invariant(Take(s, Receive))
  {
    var replica := s.replicas[s.task.replica];
    var n := replica.channel[s.task.position];
    assert ReplicaOk(s.journal, replica) && n in replica.channel;
    if n > s.task.last + 1 {
      FollowsReplay(s.journal, replica.applied, s.task.last, n - s.task.last);
    }
    assert TaskOk(Take(s, Receive));
  }

  lemma FillNextKeeps(s: System)
    requires Invariant(s) && Enabled(s, FillNext)
    ensures Invariant(Take(s, FillNext))
  {
    HolePops(s.journal, Head(s), s.task.phase.hole, s.task.phase.live);
    if s.task.phase.hole[0].number < s.task.phase.live.number {
      FollowsPush(s.journal, s.client.last, s.wire, Head(s) + 1);
    }
  }

  lemma FillDoneKeeps(s: System)
    requires Invariant(s) && Enabled(s, FillDone)
    ensures Invariant(Take(s, FillDone))
  {
  }

  lemma DeliverKeeps(s: System)
    requires Invariant(s) && Enabled(s, Deliver)
    ensures Invariant(Take(s, Deliver))
  {
    FollowsPop(s.journal, s.client.last, s.wire);
    RecordsLast(s.journal, s.client.from, s.client.last);
  }

  lemma LoseKeeps(s: System, kept: nat)
    requires Invariant(s) && Enabled(s, LoseFrames(kept))
    ensures Invariant(Take(s, LoseFrames(kept)))
  {
  }

  lemma StepKeeps(s: System, step: Step)
    requires Invariant(s) && Enabled(s, step)
    ensures Invariant(Take(s, step)) && Take(s, step).client.from == s.client.from
  {
    match step
    case Commit(payload) => CommitKeeps(s, payload);
    case Apply(_, _) =>
    case Broadcast(_, _) =>
    case Connect(_) =>
    case ReplayBatch => ReplayKeeps(s);
    case SendNext => SendKeeps(s);
    case BatchDone =>
    case Lag =>
    case Break =>
    case Receive => ReceiveKeeps(s);
    case FillNext => FillNextKeeps(s);
    case FillDone => FillDoneKeeps(s);
    case LoseFrames(kept) => LoseKeeps(s, kept);
    case Deliver => DeliverKeeps(s);
  }

  lemma {:induction false} RunKeeps(s: System, steps: seq<Step>, t: System)
    requires Invariant(s) && Runs(s, steps, t)
    ensures Invariant(t) && t.client.from == s.client.from
    decreases |steps|
  {
    if steps != [] {
      StepKeeps(s, steps[0]);
      RunKeeps(Take(s, steps[0]), steps[1..], t);
    }
  }

  // ---------------------------------------------------------------- the theorems

  /**
   * Gap-free, in every interleaving: what the client has yielded is exactly the journal's
   * records with numbers in (from, last], in order, each once.
   */
  lemma GapFree(s: System, from: nat, steps: seq<Step>, t: System)
    requires Initial(s, from) && Runs(s, steps, t)
    ensures from <= t.client.last && (t.client.last > from ==> t.client.last <= |t.journal|)
    ensures t.client.yielded == Records(t.journal, from, t.client.last)
  {
    RunKeeps(s, steps, t);
  }

  /** The steps that carry a disconnected client over to replica r and to its next record. */
  function Recovery(r: nat): seq<Step> {
    [LoseFrames(0), Connect(r), ReplayBatch, SendNext, Deliver]
  }

  lemma RunsFive(s0: System, s1: System, s2: System, s3: System, s4: System, s5: System, r: nat)
    requires Enabled(s0, LoseFrames(0)) && Take(s0, LoseFrames(0)) == s1
    requires Enabled(s1, Connect(r)) && Take(s1, Connect(r)) == s2
    requires Enabled(s2, ReplayBatch) && Take(s2, ReplayBatch) == s3
    requires Enabled(s3, SendNext) && Take(s3, SendNext) == s4
    requires Enabled(s4, Deliver) && Take(s4, Deliver) == s5
    ensures Runs(s0, Recovery(r), s5)
  {
    assert Recovery(r)[1..] == [Connect(r), ReplayBatch, SendNext, Deliver];
    assert [Connect(r), ReplayBatch, SendNext, Deliver][1..] == [ReplayBatch, SendNext, Deliver];
    assert [ReplayBatch, SendNext, Deliver][1..] == [SendNext, Deliver];
    assert [SendNext, Deliver][1..] == [Deliver];
    assert Runs(s5, [], s5);
    assert Runs(s4, [Deliver], s5);
    assert Runs(s3, [SendNext, Deliver], s5);
    assert Runs(s2, [ReplayBatch, SendNext, Deliver], s5);
  }

  /** The batch a reconnected client is served starts with the record it needs next. */
  lemma NextIsServed(journal: seq<Payload>, applied: nat, last: nat)
    requires last < applied <= |journal|
    ensures var batch := Replay(journal, applied, last, REPLAY_BATCH);
            batch != [] && batch[0] == RecordAt(journal, last + 1)
  {
  }

  /** A loaded batch that starts with the client's next record takes it there. */
  lemma ServesNext(loaded: System) returns (sent: System, t: System)
    requires Enabled(loaded, SendNext) && loaded.wire == []
    requires loaded.task.phase.batch[0].number == loaded.client.last + 1
    ensures Take(loaded, SendNext) == sent
    ensures Enabled(sent, Deliver) && Take(sent, Deliver) == t && t.client.last == loaded.client.last + 1
  {
    sent := Take(loaded, SendNext);
    assert sent.wire == [loaded.task.phase.batch[0]];
    t := Take(sent, Deliver);
  }

  lemma RecoveryRuns(s: System, r: nat) returns (t: System)
    requires s.task.Closed? && r < |s.replicas|
    requires s.client.last < s.replicas[r].applied <= |s.journal|
    ensures Runs(s, Recovery(r), t) && t.client.last == s.client.last + 1
  {
    var cut := s.(wire := []);
    assert Take(s, LoseFrames(0)) == cut;
    var connected := cut.(task := Serving(r, s.client.last, |s.replicas[r].channel|, Backfill));
    var loaded := Take(connected, ReplayBatch);
    NextIsServed(s.journal, s.replicas[r].applied, s.client.last);
    var sent;
    sent, t := ServesNext(loaded);
    RunsFive(s, cut, connected, loaded, sent, t, r);
  }

  /**
   * Never stuck: wherever a run has got to, if some replica has applied more than the client
   * has yielded, reconnecting there brings the client its next record.
   */
  lemma CanAdvance(s: System, from: nat, steps: seq<Step>, t: System, r: nat)
    requires Initial(s, from) && Runs(s, steps, t)
    requires r < |t.replicas| && t.client.last < t.replicas[r].applied
    ensures exists u: System :: u.client.last == t.client.last + 1 &&
                        Runs(t, (if t.task.Serving? then [Break] else []) + Recovery(r), u)
  {
    RunKeeps(s, steps, t);
    assert ReplicaOk(t.journal, t.replicas[r]);
    if t.task.Serving? {
      var u := RecoveryRuns(t.(task := Closed), r);
      assert ([Break] + Recovery(r))[1..] == Recovery(r);
      assert Runs(t, [Break] + Recovery(r), u);
    } else {
      var u := RecoveryRuns(t, r);
      assert [] + Recovery(r) == Recovery(r);
    }
  }

  // ---------------------------------------------------------------- progress on one connection

  /** Steps of the server's own loops, and the client's reading. */
  predicate Own(step: Step) {
    step in {ReplayBatch, SendNext, BatchDone, Receive, FillNext, FillDone, Deliver}
  }

  /** Nothing is left to do by themselves. */
  ghost predicate Quiet(s: System) {
    forall step :: Own(step) ==> !Enabled(s, step)
  }

  /**
   * The connection is bound to bring the client up to a number: a replay has yet to read that far or
   * has read that far, or the number was broadcast and waits to be received.
   */
  ghost predicate Bound(s: System, n: nat) {
    && s.task.Serving? && s.task.replica < |s.replicas|
    && var replica := s.replicas[s.task.replica];
       || (match s.task.phase
           case Backfill => n <= s.task.last || n <= replica.applied
           case Sending(batch, final) => n <= s.task.last + |batch| || (!final && n <= replica.applied)
           case Live => n <= s.task.last
           case Filling(_, live) => n <= live.number)
       || exists p :: s.task.position <= p < |replica.channel| && n <= replica.channel[p]
  }

  /** A replay is bound to bring everything its replica has applied. */
  lemma ReplayBound(s: System)
    requires s.task.Serving? && s.task.replica < |s.replicas| && s.task.phase.Backfill?
    ensures Bound(s, s.replicas[s.task.replica].applied)
  {
  }

  lemma ReceiveBound(s: System, n: nat)
    requires Invariant(s) && Enabled(s, Receive) && Bound(s, n)
    ensures Bound(Take(s, Receive), n)
  {
    var channel, t := s.replicas[s.task.replica].channel, Take(s, Receive);
    if n > s.task.last {
      var p :| s.task.position <= p < |channel| && n <= channel[p];
      if p > s.task.position {
        assert t.task.position <= p < |t.replicas[t.task.replica].channel|;
      }
    }
  }

  lemma ReplayStaysBound(s: System, n: nat)
    requires Invariant(s) && Enabled(s, ReplayBatch) && Bound(s, n)
    ensures Bound(Take(s, ReplayBatch), n)
  {
    var replica := s.replicas[s.task.replica];
    FollowsReplay(s.journal, replica.applied, s.task.last, REPLAY_BATCH);
  }

  lemma LagBound(s: System, n: nat)
    requires Invariant(s) && Enabled(s, Lag) && Bound(s, n)
    ensures Bound(Take(s, Lag), n)
  {
    var replica := s.replicas[s.task.replica];
    assert ReplicaOk(s.journal, replica);
    if n > s.task.last {
      var p :| s.task.position <= p < |replica.channel| && n <= replica.channel[p];
      assert replica.channel[p] in replica.channel;
    }
  }

  lemma BroadcastBound(s: System, r: nat, k: nat, n: nat)
    requires Enabled(s, Broadcast(r, k)) && Bound(s, n)
    ensures Bound(Take(s, Broadcast(r, k)), n)
  {
    var t := Take(s, Broadcast(r, k));
    var channel := s.replicas[s.task.replica].channel;
    if p :| s.task.position <= p < |channel| && n <= channel[p] {
      assert t.replicas[t.task.replica].channel[p] == channel[p];
    }
  }

  lemma SendBound(s: System, n: nat)
    requires Invariant(s) && Enabled(s, SendNext) && Bound(s, n)
    ensures Bound(Take(s, SendNext), n)
  {
    FollowsPop(s.journal, Head(s), s.task.phase.batch);
  }

  /** Whatever happens, short of a break, the connection stays bound. */
  lemma StaysBound(s: System, step: Step, n: nat)
    requires Invariant(s) && Enabled(s, step) && Bound(s, n) && step != Break
    ensures Bound(Take(s, step), n)
  {
    match step
    case Broadcast(r, k) => BroadcastBound(s, r, k, n);
    case ReplayBatch => ReplayStaysBound(s, n);
    case SendNext => SendBound(s, n);
    case Receive => ReceiveBound(s, n);
    case Lag => LagBound(s, n);
    case _ => WaitingBound(s, step, n);
  }

  /** The other steps leave what waits to be received. */
  lemma WaitingBound(s: System, step: Step, n: nat)
    requires Invariant(s) && Enabled(s, step) && Bound(s, n)
    requires !step.Broadcast? && step !in {ReplayBatch, SendNext, Receive, Lag, Break}
    ensures Bound(Take(s, step), n)
  {
    var channel, t := s.replicas[s.task.replica].channel, Take(s, step);
    assert t.replicas[t.task.replica].channel == channel && t.task.position == s.task.position;
    if p :| s.task.position <= p < |channel| && n <= channel[p] {
      assert n <= t.replicas[t.task.replica].channel[p];
    }
  }

  lemma {:induction false} RunStaysBound(s: System, steps: seq<Step>, t: System, n: nat)
    requires Invariant(s) && Runs(s, steps, t) && Bound(s, n) && Break !in steps
    ensures Bound(t, n)
    decreases |steps|
  {
    if steps != [] {
      assert steps[0] in steps && forall x :: x in steps[1..] ==> x in steps;
      StaysBound(s, steps[0], n);
      StepKeeps(s, steps[0]);
      RunStaysBound(Take(s, steps[0]), steps[1..], t, n);
    }
  }

  lemma BroadcastIsCommitted(journal: seq<Payload>, r: Replica)
    requires ReplicaOk(journal, r)
    ensures forall p :: 0 <= p < |r.channel| ==> 1 <= r.channel[p] <= |journal|
  {
    assert forall p :: 0 <= p < |r.channel| ==> r.channel[p] in r.channel;
  }

  /** When there is nothing left to do, everything it was bound to bring has been yielded. */
  lemma QuietIsServed(s: System, n: nat)
    requires Invariant(s) && Bound(s, n) && Quiet(s)
    ensures s.task.phase.Live? && s.wire == [] && n <= s.client.last
  {
    BroadcastIsCommitted(s.journal, s.replicas[s.task.replica]);
    assert !Enabled(s, ReplayBatch) && !Enabled(s, SendNext) && !Enabled(s, BatchDone) && !Enabled(s, Receive);
    assert !Enabled(s, FillNext) && !Enabled(s, FillDone) && !Enabled(s, Deliver);
  }

  /**
   * In every interleaving with commits, applies, broadcasts and lag, as long as the connection does
   * not break: once it has nothing left to do, the client has yielded what it was bound to bring.
   */
  lemma BoundIsServed(s: System, from: nat, steps: seq<Step>, a: System, more: seq<Step>, t: System, n: nat)
    requires Initial(s, from) && Runs(s, steps, a) && Runs(a, more, t) && Break !in more && Quiet(t) && Bound(a, n)
    ensures t.task.Serving? && t.task.phase.Live? && t.wire == [] && n <= t.client.last
  {
    RunKeeps(s, steps, a);
    RunKeeps(a, more, t);
    RunStaysBound(a, more, t, n);
    QuietIsServed(t, n);
  }

  /**
   * That is all the replica had applied when a replay was about to read, be it the first one or one
   * after a lag; what has been read, while it is being sent; and what was broadcast since.
   */
  lemma WhatIsServed(s: System, from: nat, steps: seq<Step>, a: System, more: seq<Step>, t: System)
    requires Initial(s, from) && Runs(s, steps, a) && Runs(a, more, t) && Break !in more && Quiet(t)
    requires a.task.Serving?
    ensures a.task.replica < |a.replicas|
    ensures a.task.phase.Backfill? ==> a.replicas[a.task.replica].applied <= t.client.last
    ensures a.task.phase.Sending? ==> a.task.last + |a.task.phase.batch| <= t.client.last
    ensures a.task.phase.Sending? && !a.task.phase.final ==> a.replicas[a.task.replica].applied <= t.client.last
    ensures forall p :: a.task.position <= p < |a.replicas[a.task.replica].channel| ==>
              a.replicas[a.task.replica].channel[p] <= t.client.last
  {
    RunKeeps(s, steps, a);
    var replica := a.replicas[a.task.replica];
    forall n: nat | Bound(a, n) ensures n <= t.client.last {
      BoundIsServed(s, from, steps, a, more, t, n);
    }
    assert a.task.phase.Backfill? ==> Bound(a, replica.applied);
    assert a.task.phase.Sending? ==> Bound(a, a.task.last + |a.task.phase.batch|);
    assert a.task.phase.Sending? && !a.task.phase.final ==> Bound(a, replica.applied);
    assert forall p :: a.task.position <= p < |replica.channel| ==> Bound(a, replica.channel[p]);
  }

  // ---------------------------------------------------------------- and it gets there

  function Pending(s: System): nat
    requires s.task.Serving? && s.task.replica < |s.replicas|
  {
    var channel := s.replicas[s.task.replica].channel;
    if s.task.position <= |channel| then |channel| - s.task.position else 0
  }

  function Rest(applied: nat, last: nat): nat {
    if last < applied then applied - last else 0
  }

  /** An upper bound on how many steps the two sides can take by themselves. */
  ghost function Work(s: System): nat {
    |s.wire| +
    if s.task.Closed? || s.task.replica >= |s.replicas| then 0
    else
      var applied := s.replicas[s.task.replica].applied;
      Pending(s) * (2 * applied + 5) +
      match s.task.phase
      case Backfill => 4 * Rest(applied, s.task.last) + 3
      case Sending(batch, final) =>
        2 * |batch| + 1 + (if final then 0 else 4 * Rest(applied, s.task.last + |batch|) + 4)
      case Live => 0
      case Filling(hole, _) => 2 * |hole| + 2
  }

  lemma OneLess(p: nat, q: nat, c: nat)
    requires p == q + 1
    ensures p * c == q * c + c
  {
  }

  lemma ReceiveFalls(s: System)
    requires Invariant(s) && Enabled(s, Receive)
    ensures Work(Take(s, Receive)) < Work(s)
  {
    var replica, t := s.replicas[s.task.replica], Take(s, Receive);
    var n, c := replica.channel[s.task.position], 2 * replica.applied + 5;
    assert ReplicaOk(s.journal, replica) && n in replica.channel;
    OneLess(Pending(s), Pending(t), c);
    if n > s.task.last + 1 {
      FollowsReplay(s.journal, replica.applied, s.task.last, n - s.task.last);
    }
  }

  /** Every one of their steps brings them closer to having nothing left to do. */
  lemma WorkFalls(s: System, step: Step)
    requires Invariant(s) && Own(step) && Enabled(s, step)
    ensures Work(Take(s, step)) < Work(s)
  {
    match step
    case ReplayBatch =>
      FollowsReplay(s.journal, s.replicas[s.task.replica].applied, s.task.last, REPLAY_BATCH);
    case SendNext => FollowsPop(s.journal, Head(s), s.task.phase.batch);
    case Receive => ReceiveFalls(s);
    case _ =>
  }

  /** Left to themselves, they reach a state with nothing left to do. */
  lemma {:induction false} Finishes(s: System) returns (steps: seq<Step>, t: System)
    requires Invariant(s)
    ensures Runs(s, steps, t) && Quiet(t) && forall x :: x in steps ==> Own(x)
    decreases Work(s)
  {
    if step :| Own(step) && Enabled(s, step) {
      WorkFalls(s, step);
      StepKeeps(s, step);
      var rest;
      rest, t := Finishes(Take(s, step));
      steps := [step] + rest;
      assert steps[1..] == rest;
    } else {
      steps, t := [], s;
    }
  }

  /**
   * Progress without a break: wherever a run has got to, if a replay is about to read, the server's
   * own steps and the client's reading lead to a state in which the client has all the replica has.
   */
  lemma Serves(s: System, from: nat, steps: seq<Step>, a: System) returns (more: seq<Step>, t: System)
    requires Initial(s, from) && Runs(s, steps, a) && a.task.Serving? && a.task.phase.Backfill?
    ensures Runs(a, more, t) && forall x :: x in more ==> Own(x)
    ensures a.task.replica < |a.replicas| && t.task.Serving? && t.task.phase.Live?
    ensures a.replicas[a.task.replica].applied <= t.client.last
  {
    RunKeeps(s, steps, a);
    more, t := Finishes(a);
    assert Break !in more;
    ReplayBound(a);
    BoundIsServed(s, from, steps, a, more, t, a.replicas[a.task.replica].applied);
  }
}
