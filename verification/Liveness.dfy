/**
 * The metadata leader's failure detector: per-node hysteresis over a stream of pings. The
 * tracker keeps one start time and one counter per node; the log of everything it has been
 * told says when its verdicts are due.
 */
module Liveness {
  import opened Wrappers
  import opened Placement

  const RECOVERY_STREAK := 3

  datatype Verdict = MarkUnreachable | MarkReachable | NoVerdict

  datatype Observed = Observed(failingSince: Option<nat>, okStreak: nat)

  /** One call into the tracker together with what it returned. */
  datatype Entry =
    | Ping(node: NodeId, status: NodeStatus, ok: bool, now: nat, verdict: Verdict)
    | Reset
    | Retain(roster: set<NodeId>)

  // ---------------------------------------------------------------- runs in the log

  predicate Failing(e: Entry, n: NodeId) {
    e.Ping? && e.node == n && e.status.Active? && !e.ok && e.verdict == NoVerdict
  }

  predicate Answering(e: Entry, n: NodeId) {
    e.Ping? && e.node == n && e.status.Unreachable? && e.ok && e.verdict == NoVerdict
  }

  /** The entry says nothing about n: another node's ping, or a roster that keeps n. */
  predicate Silent(e: Entry, n: NodeId) {
    (e.Ping? && e.node != n) || (e.Retain? && n in e.roster)
  }

  /** From j on, everything said about n is one more failure of an active node. */
  ghost predicate FailureRun(log: seq<Entry>, n: NodeId, j: nat) {
    && j < |log| && Failing(log[j], n)
    && forall k :: j <= k < |log| ==> Failing(log[k], n) || Silent(log[k], n)
  }

  /** From j on, everything said about n is one more answer of an unreachable node. */
  ghost predicate AnswerRun(log: seq<Entry>, n: NodeId, j: nat) {
    && j < |log| && Answering(log[j], n)
    && forall k :: j <= k < |log| ==> Answering(log[k], n) || Silent(log[k], n)
  }

  /** An unbroken failure run, ending with a failure at `now`, that spans the grace period. */
  ghost predicate DueUnreachable(log: seq<Entry>, n: NodeId, now: nat, grace: nat) {
    grace == 0 || exists j: nat :: FailureRun(log, n, j) && now - log[j].now >= grace
  }

  /** The two answers before this one belong to the same unbroken run. */
  ghost predicate DueReachable(log: seq<Entry>, n: NodeId) {
    exists j: nat, k: nat :: j < k && AnswerRun(log, n, j) && k < |log| && Answering(log[k], n)
  }

  ghost predicate InTimeOrder(log: seq<Entry>) {
    forall i, j :: 0 <= i < j < |log| && log[i].Ping? && log[j].Ping? ==> log[i].now <= log[j].now
  }

  ghost predicate NotAfter(log: seq<Entry>, now: nat) {
    forall i :: 0 <= i < |log| && log[i].Ping? ==> log[i].now <= now
  }

  /** When the current failure run of n began. */
  function FailStart(log: seq<Entry>, n: NodeId): Option<nat> {
    if log == [] then None
    else
      var e, earlier := log[|log| - 1], log[..|log| - 1];
      if Silent(e, n) then FailStart(earlier, n)
      else if !Failing(e, n) then None
      else if FailStart(earlier, n).Some? then FailStart(earlier, n) else Some(e.now)
  }

  /** How many answers the current answer run of n holds. */
  function AnswerCount(log: seq<Entry>, n: NodeId): nat {
    if log == [] then 0
    else
      var e, earlier := log[|log| - 1], log[..|log| - 1];
      if Silent(e, n) then AnswerCount(earlier, n)
      else if !Answering(e, n) then 0
      else AnswerCount(earlier, n) + 1
  }

  function Summary(log: seq<Entry>, n: NodeId): Observed {
    Observed(FailStart(log, n), AnswerCount(log, n))
  }

  function Known(nodes: map<NodeId, Observed>, n: NodeId): Observed {
    if n in nodes then nodes[n] else Observed(None, 0)
  }

  ghost predicate Tracks(nodes: map<NodeId, Observed>, log: seq<Entry>) {
    forall n :: Known(nodes, n) == Summary(log, n)
  }

  /** The verdict of one ping and what is remembered of the node after it. */
  function Judge(seen: Observed, status: NodeStatus, ok: bool, now: nat, grace: nat)
    : (Verdict, Observed)
  {
    match status
    case Draining => (NoVerdict, Observed(None, 0))
    case Active =>
      var since := if seen.failingSince.Some? then seen.failingSince.value else now;
      if ok then (NoVerdict, Observed(None, 0))
      else if now - since >= grace then (Verdict.MarkUnreachable, Observed(None, 0))
      else (NoVerdict, Observed(Some(since), 0))
    case Unreachable =>
      if !ok then (NoVerdict, Observed(None, 0))
      else if seen.okStreak + 1 >= RECOVERY_STREAK then (Verdict.MarkReachable, Observed(None, 0))
      else (NoVerdict, Observed(None, seen.okStreak + 1))
  }

  // ---------------------------------------------------------------- the tracker

  class Tracker {
    const grace: nat
    var nodes: map<NodeId, Observed>
    ghost var log: seq<Entry>

    ghost predicate Valid()
      reads this
    {
      InTimeOrder(log) && Tracks(nodes, log)
    }

    constructor (grace: nat)
      ensures Valid() && log == [] && this.grace == grace
    {
      this.grace := grace;
      nodes := map[];
      log := [];
    }

    /** Every run is broken: nothing observed before counts. */
    method Forget()
      requires Valid()
      modifies this
      ensures Valid() && log == old(log) + [Reset] && nodes == map[]
    {
      nodes := map[];
      log := log + [Reset];
      assert log[..|log| - 1] == old(log);
    }

    /** Whoever left the roster is tracked no more. */
    method RetainRoster(roster: set<NodeId>)
      requires Valid()
      modifies this
      ensures Valid() && log == old(log) + [Retain(roster)]
      ensures nodes == map n | n in old(nodes) && n in roster :: old(nodes)[n]
    {
      nodes := map n | n in nodes && n in roster :: nodes[n];
      log := log + [Retain(roster)];
      assert log[..|log| - 1] == old(log);
      forall n ensures Known(nodes, n) == Summary(log, n) {
        assert Known(old(nodes), n) == Summary(old(log), n);
      }
    }

    /**
     * One ping result. A verdict is given exactly when it is due: a condemnation when the
     * unbroken failures span the grace period, a pardon on the third answer in a row.
     */
    method Observe(node: NodeId, status: NodeStatus, ok: bool, now: nat) returns (v: Verdict)
      requires Valid() && NotAfter(log, now)
      modifies this
      ensures Valid() && log == old(log) + [Ping(node, status, ok, now, v)]
      ensures v == Verdict.MarkUnreachable <==>
              status == Active && !ok && DueUnreachable(old(log), node, now, grace)
      ensures v == Verdict.MarkReachable <==>
              status == Unreachable && ok && DueReachable(old(log), node)
    {
      var seen := Known(nodes, node);
      assert seen == Summary(log, node);
      v := NoVerdict;
      match status {
        case Draining =>
          nodes := nodes - {node};
        case Active =>
          if ok {
            nodes := nodes - {node};
          } else {
            var since := if seen.failingSince.Some? then seen.failingSince.value else now;
            if now - since >= grace {
              nodes := nodes - {node};
              v := Verdict.MarkUnreachable;
            } else {
              nodes := nodes[node := Observed(Some(since), 0)];
            }
          }
        case Unreachable =>
          if !ok {
            nodes := nodes[node := Observed(None, 0)];
          } else if seen.okStreak + 1 >= RECOVERY_STREAK {
            nodes := nodes - {node};
            v := Verdict.MarkReachable;
          } else {
            nodes := nodes[node := Observed(None, seen.okStreak + 1)];
          }
      }
      assert (v, Known(nodes, node)) == Judge(seen, status, ok, now, grace);
      JudgedWhenDue(log, node, status, ok, now, grace);
      TracksAfterPing(old(nodes), nodes, log, Ping(node, status, ok, now, v), grace);
      log := log + [Ping(node, status, ok, now, v)];
    }
  }

  // ---------------------------------------------------------------- proofs

  /** The remembered state follows the log through one more ping. */
  lemma TracksAfterPing(nodes: map<NodeId, Observed>, nodes': map<NodeId, Observed>,
                        log: seq<Entry>, e: Entry, grace: nat)
    requires e.Ping? && InTimeOrder(log) && NotAfter(log, e.now) && Tracks(nodes, log)
    requires forall n :: n != e.node ==> Known(nodes', n) == Known(nodes, n)
    requires (e.verdict, Known(nodes', e.node)) ==
             Judge(Summary(log, e.node), e.status, e.ok, e.now, grace)
    ensures Tracks(nodes', log + [e]) && InTimeOrder(log + [e])
  {
    forall n ensures Known(nodes', n) == Summary(log + [e], n) {
      assert Known(nodes, n) == Summary(log, n);
      SummaryAfterPing(log, e, n, grace);
    }
  }

  lemma SummaryAfterPing(log: seq<Entry>, e: Entry, n: NodeId, grace: nat)
    requires e.Ping? && e.verdict == Judge(Summary(log, e.node), e.status, e.ok, e.now, grace).0
    ensures n != e.node ==> Summary(log + [e], n) == Summary(log, n)
    ensures n == e.node ==> Summary(log + [e], n) == Judge(Summary(log, n), e.status, e.ok, e.now, grace).1
  {
    assert (log + [e])[..|log|] == log;
  }

  /** The verdict comes exactly when the log says it is due. */
  lemma JudgedWhenDue(log: seq<Entry>, n: NodeId, status: NodeStatus, ok: bool, now: nat, grace: nat)
    requires InTimeOrder(log) && NotAfter(log, now)
    ensures var v := Judge(Summary(log, n), status, ok, now, grace).0;
            && (v == Verdict.MarkUnreachable <==>
                  status == Active && !ok && DueUnreachable(log, n, now, grace))
            && (v == Verdict.MarkReachable <==> status == Unreachable && ok && DueReachable(log, n))
  {
    DueMeaning(log, n, now, grace);
    AnswerCountMeaning(log, n);
  }

  /** The start time is that of the earliest entry of a failure run, when there is one. */
  lemma {:induction false} FailStartMeaning(log: seq<Entry>, n: NodeId)
    requires InTimeOrder(log)
    ensures FailStart(log, n).Some? ==>
            exists j: nat :: FailureRun(log, n, j) && log[j].now == FailStart(log, n).value
    ensures forall j: nat :: FailureRun(log, n, j) ==>
            FailStart(log, n).Some? && FailStart(log, n).value <= log[j].now
    decreases |log|
  {
    if log != [] {
      var m := |log| - 1;
      var e, earlier := log[m], log[..m];
      FailStartMeaning(earlier, n);
      forall j: nat | FailureRun(log, n, j)
        ensures FailStart(log, n).Some? && FailStart(log, n).value <= log[j].now
      {
        if j < m {
          assert FailureRun(earlier, n, j);
        }
        if Failing(e, n) && FailStart(earlier, n).Some? {
          var s: nat :| FailureRun(earlier, n, s) && earlier[s].now == FailStart(earlier, n).value;
          assert log[s] == earlier[s];
        }
      }
      if FailStart(log, n).Some? {
        if FailStart(earlier, n).Some? {
          var s: nat :| FailureRun(earlier, n, s) && earlier[s].now == FailStart(earlier, n).value;
          assert FailureRun(log, n, s) && log[s].now == FailStart(log, n).value;
        } else {
          assert FailureRun(log, n, m) && log[m].now == FailStart(log, n).value;
        }
      }
    }
  }

  /** The count is positive inside a run, and above one exactly with two answers in it. */
  lemma {:induction false} AnswerCountMeaning(log: seq<Entry>, n: NodeId)
    ensures AnswerCount(log, n) >= 1 <==> exists j: nat :: AnswerRun(log, n, j)
    ensures AnswerCount(log, n) >= 2 <==> DueReachable(log, n)
    decreases |log|
  {
    if log != [] {
      var m := |log| - 1;
      var e, earlier := log[m], log[..m];
      AnswerCountMeaning(earlier, n);
      assert forall j: nat :: j < m && AnswerRun(log, n, j) ==> AnswerRun(earlier, n, j);
      if Silent(e, n) || Answering(e, n) {
        assert forall j: nat :: AnswerRun(earlier, n, j) ==> AnswerRun(log, n, j);
        AnswerRunExtends(log, n, m);
      } else {
        assert forall j: nat :: !AnswerRun(log, n, j);
      }
    }
  }

  lemma AnswerRunExtends(log: seq<Entry>, n: NodeId, m: nat)
    requires m == |log| - 1 && (Silent(log[m], n) || Answering(log[m], n))
    ensures Silent(log[m], n) ==>
            ((exists j: nat :: AnswerRun(log, n, j)) <==> exists j: nat :: AnswerRun(log[..m], n, j))
    ensures Silent(log[m], n) ==> (DueReachable(log, n) <==> DueReachable(log[..m], n))
    ensures Answering(log[m], n) ==> AnswerRun(log, n, m)
    ensures Answering(log[m], n) ==>
            (DueReachable(log, n) <==> exists j: nat :: AnswerRun(log[..m], n, j))
  {
    var earlier := log[..m];
    assert forall k :: 0 <= k < m ==> earlier[k] == log[k];
    forall j: nat | j < m
      ensures AnswerRun(log, n, j) <==> AnswerRun(earlier, n, j)
    {
    }
    if Answering(log[m], n) {
      forall j: nat | AnswerRun(earlier, n, j) ensures DueReachable(log, n) {
        assert AnswerRun(log, n, j) && j < m && Answering(log[m], n);
      }
    }
    if Silent(log[m], n) {
      forall j: nat, k: nat | j < k < m && AnswerRun(earlier, n, j) && Answering(earlier[k], n)
        ensures DueReachable(log, n)
      {
        assert AnswerRun(log, n, j) && Answering(log[k], n);
      }
    }
  }

  /** The condemnation is due exactly when the recorded start lies a grace period back. */
  lemma DueMeaning(log: seq<Entry>, n: NodeId, now: nat, grace: nat)
    requires InTimeOrder(log) && NotAfter(log, now)
    ensures DueUnreachable(log, n, now, grace) <==>
            now - (if FailStart(log, n).Some? then FailStart(log, n).value else now) >= grace
  {
    FailStartMeaning(log, n);
  }
}
