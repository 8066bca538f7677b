/**
 * Kahn's algorithm under a total order: always emit the least ready element. The result is the
 * lexicographically least topological order, and there is only one of those.
 */
module Kahn {
  import opened Events
  import opened Orders

  /** For each element, what must come before it. */
  type Deps = map<EventId, set<EventId>>

  ghost predicate SelfContained(deps: Deps) {
    forall e :: e in deps ==> deps[e] <= deps.Keys
  }

  ghost predicate Acyclic(deps: Deps, rank: EventId -> nat) {
    forall e, d :: e in deps && d in deps[e] ==> rank(d) < rank(e)
  }

  ghost predicate Distinct(o: seq<EventId>) {
    forall i, j :: 0 <= i < j < |o| ==> o[i] != o[j]
  }

  /** Every element once, each after everything it depends on. */
  ghost predicate Topological(deps: Deps, o: seq<EventId>) {
    && Members(o) == deps.Keys && Distinct(o)
    && forall i :: 0 <= i < |o| ==> Ordered(deps, o, i)
  }

  ghost predicate Ordered(deps: Deps, o: seq<EventId>, i: nat)
    requires i < |o|
  {
    o[i] in deps && deps[o[i]] <= Members(o[..i])
  }

  /** Where two orders first differ, o has the lesser element. */
  ghost predicate Ahead(less: (EventId, EventId) -> bool, o: seq<EventId>, p: seq<EventId>, i: nat) {
    i < |o| && i < |p| && o[..i] == p[..i] && less(o[i], p[i])
  }

  ghost predicate LeastTopological(deps: Deps, less: (EventId, EventId) -> bool, o: seq<EventId>) {
    && Topological(deps, o)
    && forall p :: Topological(deps, p) && p != o ==> exists i: nat :: Ahead(less, o, p, i)
  }

  lemma AheadOneWay(less: (EventId, EventId) -> bool, s: set<EventId>, o: seq<EventId>, p: seq<EventId>, i: nat)
    requires TotalOn(less, s) && Members(o) == s && Members(p) == s && Ahead(less, o, p, i)
    ensures forall j: nat :: !Ahead(less, p, o, j)
  {
  }

  lemma LeastTopologicalUnique(deps: Deps, less: (EventId, EventId) -> bool, o: seq<EventId>, p: seq<EventId>)
    requires TotalOn(less, deps.Keys) && LeastTopological(deps, less, o) && LeastTopological(deps, less, p)
    ensures o == p
  {
    forall i: nat | Ahead(less, o, p, i) ensures forall j: nat :: !Ahead(less, p, o, j) {
      AheadOneWay(less, deps.Keys, o, p, i);
    }
  }

  // ---------------------------------------------------------------- greedy choice

  /** What may be emitted next. */
  ghost function Ready(deps: Deps, out: seq<EventId>): set<EventId> {
    set e | e in deps && e !in out && deps[e] <= Members(out)
  }

  /** Every element was the least one ready when it was emitted. */
  ghost predicate Greedy(deps: Deps, less: (EventId, EventId) -> bool, out: seq<EventId>) {
    forall i :: 0 <= i < |out| ==> IsLeast(less, Ready(deps, out[..i]), out[i])
  }

  lemma {:induction false} SomethingReady(deps: Deps, rank: EventId -> nat, out: seq<EventId>, e: EventId)
    requires SelfContained(deps) && Acyclic(deps, rank) && e in deps && e !in out
    ensures Ready(deps, out) != {}
    decreases rank(e)
  {
    if deps[e] <= Members(out) {
      assert e in Ready(deps, out);
    } else {
      var d :| d in deps[e] && d !in Members(out);
      SomethingReady(deps, rank, out, d);
    }
  }

  lemma GreedyTopological(deps: Deps, less: (EventId, EventId) -> bool, rank: EventId -> nat, out: seq<EventId>)
    requires SelfContained(deps) && Acyclic(deps, rank) && Greedy(deps, less, out) && Ready(deps, out) == {}
    ensures Topological(deps, out)
  {
    forall e | e in deps ensures e in out {
      if e !in out {
        SomethingReady(deps, rank, out, e);
      }
    }
    forall i | 0 <= i < |out| ensures Ordered(deps, out, i) {
      assert out[i] in Ready(deps, out[..i]);
    }
    assert forall e :: e in out ==> e in deps by {
      forall i | 0 <= i < |out| ensures out[i] in deps {
        assert Ordered(deps, out, i);
      }
    }
    assert Members(out) == deps.Keys;
    forall i, j | 0 <= i < j < |out| ensures out[i] != out[j] {
      assert out[j] in Ready(deps, out[..j]);
      assert out[..j][i] == out[i];
    }
  }

  /** The index of the first difference of two orders of the same elements. */
  lemma {:induction false} FirstDifference(o: seq<EventId>, p: seq<EventId>) returns (i: nat)
    requires o != p && |o| == |p|
    ensures i < |o| && o[..i] == p[..i] && o[i] != p[i]
    decreases |o|
  {
    if o[0] != p[0] {
      i := 0;
    } else {
      assert o == [o[0]] + o[1..] && p == [p[0]] + p[1..];
      var k := FirstDifference(o[1..], p[1..]);
      i := k + 1;
      assert o[..i] == [o[0]] + o[1..][..k] && p[..i] == [p[0]] + p[1..][..k];
    }
  }

  /** Greedy choices give the least of all topological orders. */
  lemma GreedyIsLeast(deps: Deps, less: (EventId, EventId) -> bool, out: seq<EventId>)
    requires TotalOn(less, deps.Keys) && Greedy(deps, less, out) && Topological(deps, out)
    ensures LeastTopological(deps, less, out)
  {
    forall p | Topological(deps, p) && p != out ensures exists i: nat :: Ahead(less, out, p, i) {
      DistinctCount(out);
      DistinctCount(p);
      var i := FirstDifference(out, p);
      assert Ordered(deps, p, i);
      assert p[i] !in p[..i];
      assert p[i] in Ready(deps, out[..i]);
      assert IsLeast(less, Ready(deps, out[..i]), out[i]);
      assert Ahead(less, out, p, i);
    }
  }

  // ---------------------------------------------------------------- the loop

  type Dependents = map<EventId, seq<EventId>>

  /** For every element not yet emitted, exactly those that depend on it. */
  ghost predicate Reversed(deps: Deps, dependents: Dependents, out: seq<EventId>) {
    forall d :: d in deps && d !in out ==> Members(Waiting(dependents, d)) == WaitingOn(deps, d)
  }

  function Waiting(dependents: Dependents, d: EventId): seq<EventId> {
    if d in dependents then dependents[d] else []
  }

  ghost function WaitingOn(deps: Deps, d: EventId): set<EventId> {
    set e | e in deps && d in deps[e]
  }

  /** What is still missing before each element. */
  ghost predicate Outstanding(deps: Deps, pending: Deps, out: seq<EventId>) {
    pending.Keys == deps.Keys && forall e :: e in deps ==> pending[e] == deps[e] - Members(out)
  }

  /** Those whose last missing element is x. */
  ghost function Freed(deps: Deps, out: seq<EventId>, x: EventId): set<EventId> {
    set e | e in WaitingOn(deps, x) && deps[e] <= Members(out) + {x}
  }

  method PopLeast(less: (EventId, EventId) -> bool, ready: set<EventId>) returns (x: EventId)
    requires TotalOn(less, ready) && ready != {}
    ensures IsLeast(less, ready, x)
  {
    x :| x in ready;
    var left := ready - {x};
    while left != {}
      invariant left <= ready && x in ready - left
      invariant forall y :: y in ready - left && y != x ==> less(x, y)
      decreases left
    {
      var y :| y in left;
      if less(y, x) {
        assert forall z :: z in ready - left && z != x ==> less(x, z) && less(y, z);
        x := y;
      }
      left := left - {y};
    }
  }

  /** Strike x off the lists of its dependents and collect those that become ready. */
  method Release(ghost deps: Deps, pending: Deps, waiting: seq<EventId>, x: EventId, ghost out: seq<EventId>)
    returns (pending': Deps, freed: set<EventId>)
    requires Outstanding(deps, pending, out) && x in deps && x !in out && x !in deps[x]
    requires Members(waiting) == WaitingOn(deps, x)
    ensures Outstanding(deps, pending', out + [x])
    ensures freed == Freed(deps, out, x)
  {
    pending', freed := pending, {};
    for i := 0 to |waiting|
      invariant pending'.Keys == deps.Keys
      invariant forall e :: e in deps ==>
                  pending'[e] == (if e in waiting[..i] then deps[e] - Members(out) - {x} else deps[e] - Members(out))
      invariant freed == set e | e in waiting[..i] && e in deps && deps[e] - Members(out) - {x} == {}
    {
      var e := waiting[i];
      assert e in Members(waiting);
      assert waiting[..i + 1] == waiting[..i] + [e];
      pending' := pending'[e := pending'[e] - {x}];
      if pending'[e] == {} {
        freed := freed + {e};
      }
    }
    assert waiting[..|waiting|] == waiting;
    assert Members(out + [x]) == Members(out) + {x};
    assert forall e :: e in waiting <==> e in Members(waiting);
  }

  lemma ReadyAfter(deps: Deps, out: seq<EventId>, x: EventId)
    requires x in Ready(deps, out)
    requires forall e :: e in out && e in deps ==> deps[e] <= Members(out)
    ensures Ready(deps, out + [x]) == Ready(deps, out) - {x} + Freed(deps, out, x)
  {
  }

  lemma GreedyExtends(deps: Deps, less: (EventId, EventId) -> bool, out: seq<EventId>, x: EventId)
    requires Greedy(deps, less, out) && IsLeast(less, Ready(deps, out), x)
    ensures Greedy(deps, less, out + [x])
  {
    var o := out + [x];
    forall i | 0 <= i < |o| ensures IsLeast(less, Ready(deps, o[..i]), o[i]) {
      if i < |out| {
        assert o[..i] == out[..i];
      } else {
        assert o[..i] == out;
      }
    }
  }

  lemma EmittedAreReady(deps: Deps, less: (EventId, EventId) -> bool, out: seq<EventId>)
    requires Greedy(deps, less, out)
    ensures forall e :: e in out && e in deps ==> deps[e] <= Members(out)
  {
  }

  /** The working variables after `out` has been emitted. */
  ghost predicate Working(deps: Deps, less: (EventId, EventId) -> bool, pending: Deps,
                          dependents: Dependents, ready: set<EventId>, out: seq<EventId>)
  {
    && Greedy(deps, less, out) && ready == Ready(deps, out)
    && Outstanding(deps, pending, out) && Reversed(deps, dependents, out)
  }

  method Emit(ghost deps: Deps, less: (EventId, EventId) -> bool, pending: Deps,
              dependents: Dependents, ready: set<EventId>, ghost out: seq<EventId>,
              ghost rank: EventId -> nat)
    returns (x: EventId, pending': Deps, dependents': Dependents, ready': set<EventId>)
    requires TotalOn(less, deps.Keys) && ready != {} && Acyclic(deps, rank)
    requires Working(deps, less, pending, dependents, ready, out)
    ensures x in deps && x !in out
    ensures Working(deps, less, pending', dependents', ready', out + [x])
  {
    TotalOnSubset(less, deps.Keys, ready);
    x := PopLeast(less, ready);
    dependents' := dependents - {x};
    assert Reversed(deps, dependents', out + [x]) by {
      forall d | d in deps && d !in out + [x]
        ensures Members(Waiting(dependents', d)) == WaitingOn(deps, d)
      {
        assert Waiting(dependents', d) == Waiting(dependents, d);
      }
    }
    var freed;
    pending', freed := Release(deps, pending, Waiting(dependents, x), x, out);
    EmittedAreReady(deps, less, out);
    ReadyAfter(deps, out, x);
    GreedyExtends(deps, less, out, x);
    ready' := ready - {x} + freed;
  }

  method Order(deps: Deps, dependents0: Dependents, less: (EventId, EventId) -> bool,
               ghost rank: EventId -> nat)
    returns (out: seq<EventId>)
    requires SelfContained(deps) && Acyclic(deps, rank) && TotalOn(less, deps.Keys)
    requires Reversed(deps, dependents0, [])
    ensures LeastTopological(deps, less, out)
  {
    var pending, dependents := deps, dependents0;
    var ready := set e | e in pending && pending[e] == {};
    out := [];
    while ready != {}
      invariant Working(deps, less, pending, dependents, ready, out)
      decreases deps.Keys - Members(out)
    {
      var x;
      x, pending, dependents, ready := Emit(deps, less, pending, dependents, ready, out, rank);
      assert Members(out + [x]) == Members(out) + {x};
      out := out + [x];
    }
    Finished(deps, less, rank, out);
  }

  lemma Finished(deps: Deps, less: (EventId, EventId) -> bool, rank: EventId -> nat, out: seq<EventId>)
    requires SelfContained(deps) && Acyclic(deps, rank) && TotalOn(less, deps.Keys)
    requires Greedy(deps, less, out) && Ready(deps, out) == {}
    ensures LeastTopological(deps, less, out)
  {
    GreedyTopological(deps, less, rank, out);
    GreedyIsLeast(deps, less, out);
  }

  lemma TotalOnSubset(less: (EventId, EventId) -> bool, s: set<EventId>, t: set<EventId>)
    requires TotalOn(less, s) && t <= s
    ensures TotalOn(less, t)
  {
  }
}
