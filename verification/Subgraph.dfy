/**
 * The conflicted state subgraph of state resolution v2.1: the events on some auth path between
 * two conflicted events, endpoints included.
 */
module Subgraph {
  import opened Wrappers
  import opened Events
  import opened AuthGraph

  type Edges = map<EventId, seq<EventId>>

  ghost predicate FromConflicted(fetch: Fetch, conflicted: set<EventId>, n: EventId) {
    exists c :: c in conflicted && Reaches(fetch, c, n)
  }

  ghost predicate ToConflicted(fetch: Fetch, conflicted: set<EventId>, n: EventId) {
    exists c :: c in conflicted && Reaches(fetch, n, c)
  }

  /** What the subgraph means. */
  ghost function Between(fetch: Fetch, conflicted: set<EventId>): set<EventId> {
    set n | n in fetch && FromConflicted(fetch, conflicted, n) && ToConflicted(fetch, conflicted, n)
  }

  // ---------------------------------------------------------------- forward reachability

  /** A set of events that auth edges never enter from outside. */
  ghost predicate ClosedBackward(fetch: Fetch, area: iset<EventId>) {
    forall a, b :: b in area && Edge(fetch, a, b) ==> a in area
  }

  /** What the conflicted events reach. */
  ghost function Forward(fetch: Fetch, conflicted: set<EventId>): iset<EventId> {
    iset n | FromConflicted(fetch, conflicted, n)
  }

  /** What reaches the conflicted events. */
  ghost function Backward(fetch: Fetch, conflicted: set<EventId>): iset<EventId> {
    iset n | ToConflicted(fetch, conflicted, n)
  }

  lemma ForwardCloses(fetch: Fetch, conflicted: set<EventId>)
    ensures ClosedForward(fetch, Forward(fetch, conflicted))
    ensures forall c :: c in conflicted ==> c in Forward(fetch, conflicted)
  {
    forall a, b | a in Forward(fetch, conflicted) && Edge(fetch, a, b)
      ensures b in Forward(fetch, conflicted)
    {
      var c :| c in conflicted && Reaches(fetch, c, a);
      ReachesEdge(fetch, c, a, b);
    }
    forall c | c in conflicted ensures FromConflicted(fetch, conflicted, c) {
      ReachesSelf(fetch, c);
    }
  }

  lemma BackwardCloses(fetch: Fetch, conflicted: set<EventId>)
    ensures ClosedBackward(fetch, Backward(fetch, conflicted))
    ensures forall c :: c in conflicted ==> c in Backward(fetch, conflicted)
  {
    forall a, b | b in Backward(fetch, conflicted) && Edge(fetch, a, b)
      ensures a in Backward(fetch, conflicted)
    {
      var c :| c in conflicted && Reaches(fetch, b, c);
      ReachesVia(fetch, a, b, c);
    }
    forall c | c in conflicted ensures ToConflicted(fetch, conflicted, c) {
      ReachesSelf(fetch, c);
    }
  }

  /** The recorded nodes carry their own auth events. */
  ghost predicate Recorded(fetch: Fetch, edges: Edges) {
    forall n :: n in edges ==> n in fetch && edges[n] == fetch[n].authEvents
  }

  ghost predicate Exploring(fetch: Fetch, conflicted: set<EventId>, area: iset<EventId>,
                            edges: Edges, stack: seq<EventId>)
  {
    && Recorded(fetch, edges)
    && (forall n :: n in edges || n in stack ==> n in area)
    && (forall c :: c in conflicted ==> c in edges || c in stack)
    && (forall n, a :: n in edges && a in edges[n] ==> a in edges || a in stack)
  }

  lemma ExploreNode(fetch: Fetch, conflicted: set<EventId>, area: iset<EventId>,
                    edges: Edges, stack: seq<EventId>, n: EventId, rest: seq<EventId>)
    requires ClosedForward(fetch, area) && Exploring(fetch, conflicted, area, edges, stack)
    requires stack == rest + [n] && n in fetch
    ensures Exploring(fetch, conflicted, area, edges[n := fetch[n].authEvents],
                      rest + fetch[n].authEvents)
  {
  }

  lemma {:induction false} ClosedUnderSteps(fetch: Fetch, edges: Edges, a: EventId, b: EventId, n: nat)
    requires Recorded(fetch, edges)
    requires forall x, y :: x in edges && y in edges[x] ==> y in edges
    requires a in edges && Steps(fetch, a, b, n)
    ensures b in edges
    decreases n
  {
    if n > 0 {
      var c :| Edge(fetch, a, c) && Steps(fetch, c, b, n - 1);
      ClosedUnderSteps(fetch, edges, c, b, n - 1);
    }
  }

  /** Everything the conflicted events reach, and nothing else, with its auth events. */
  method Explore(conflicted: set<EventId>, fetch: Fetch, ghost area: iset<EventId>)
    returns (r: Result<Edges, EventId>)
    requires ClosedForward(fetch, area) && forall c :: c in conflicted ==> c in area
    ensures r.Ok? ==> Exploring(fetch, conflicted, area, r.value, [])
    ensures r.Err? ==> r.error in area && r.error !in fetch
  {
    var edges: Edges := map[];
    var stack := Listed(conflicted);
    while stack != []
      invariant Exploring(fetch, conflicted, area, edges, stack)
      decreases fetch.Keys - edges.Keys, |stack|
    {
      var n, rest := stack[|stack| - 1], stack[..|stack| - 1];
      assert stack == rest + [n] && n in stack;
      if n in edges {
        stack := rest;
      } else if n !in fetch {
        return Err(n);
      } else {
        ExploreNode(fetch, conflicted, area, edges, stack, n, rest);
        assert n in fetch.Keys - edges.Keys;
        stack := rest + fetch[n].authEvents;
        edges := edges[n := fetch[n].authEvents];
      }
    }
    r := Ok(edges);
  }

  /** Some listing of a set. */
  method Listed(s: set<EventId>) returns (q: seq<EventId>)
    ensures forall x :: x in q <==> x in s
  {
    q := [];
    var left := s;
    while left != {}
      invariant left <= s && forall x :: x in q <==> x in s - left
      decreases left
    {
      var x :| x in left;
      q := q + [x];
      left := left - {x};
    }
  }

  lemma ExploredAll(fetch: Fetch, conflicted: set<EventId>, edges: Edges)
    requires Exploring(fetch, conflicted, Forward(fetch, conflicted), edges, [])
    ensures forall n :: n in edges <==> n in Forward(fetch, conflicted)
  {
    forall n | FromConflicted(fetch, conflicted, n) ensures n in edges {
      var c :| c in conflicted && Reaches(fetch, c, n);
      var k: nat :| Steps(fetch, c, n, k);
      ClosedUnderSteps(fetch, edges, c, n, k);
    }
  }

  // ---------------------------------------------------------------- backward reachability

  type Marks = map<EventId, bool>

  predicate AnyMarked(auth: seq<EventId>, marks: Marks) {
    exists a :: a in auth && a in marks && marks[a]
  }

  /** Only events of the area are marked, and the conflicted ones are. */
  ghost predicate Marking(conflicted: set<EventId>, area: iset<EventId>, edges: Edges, marks: Marks) {
    && marks.Keys == edges.Keys
    && (forall n :: n in marks && marks[n] ==> n in area)
    && (forall n :: n in marks && n in conflicted ==> marks[n])
  }

  /** No sweep would mark anything more. */
  ghost predicate Stable(edges: Edges, marks: Marks)
    requires marks.Keys == edges.Keys
  {
    forall n :: n in edges && AnyMarked(edges[n], marks) ==> marks[n]
  }

  lemma MarkNode(fetch: Fetch, area: iset<EventId>, edges: Edges, marks: Marks, n: EventId)
    requires ClosedBackward(fetch, area) && Recorded(fetch, edges) && n in edges
    requires forall a :: a in marks && marks[a] ==> a in area
    requires AnyMarked(edges[n], marks)
    ensures n in area
  {
  }

  ghost function Unmarked(marks: Marks): set<EventId> {
    set n | n in marks && !marks[n]
  }

  /** One sweep over all nodes, in any order. */
  method Sweep(ghost fetch: Fetch, ghost conflicted: set<EventId>, ghost area: iset<EventId>,
               edges: Edges, marks: Marks)
    returns (marks': Marks, changed: bool)
    requires ClosedBackward(fetch, area) && Recorded(fetch, edges)
    requires Marking(conflicted, area, edges, marks)
    ensures Marking(conflicted, area, edges, marks')
    ensures changed ==> Unmarked(marks') < Unmarked(marks)
    ensures !changed ==> marks' == marks && Stable(edges, marks)
  {
    marks', changed := marks, false;
    var left := edges.Keys;
    while left != {}
      invariant left <= edges.Keys
      invariant Marking(conflicted, area, edges, marks')
      invariant changed ==> Unmarked(marks') < Unmarked(marks)
      invariant !changed ==> marks' == marks
      invariant !changed ==> forall n :: n in edges.Keys - left && AnyMarked(edges[n], marks) ==> marks[n]
      decreases left
    {
      var n :| n in left;
      if !marks'[n] && AnyMarked(edges[n], marks') {
        MarkNode(fetch, area, edges, marks', n);
        assert n in Unmarked(marks') && Unmarked(marks'[n := true]) == Unmarked(marks') - {n};
        marks' := marks'[n := true];
        changed := true;
      }
      left := left - {n};
    }
  }

  /** A settled marking marks every event that reaches a conflicted one. */
  lemma {:induction false} SettledMarks(fetch: Fetch, conflicted: set<EventId>, area: iset<EventId>,
                                        edges: Edges, marks: Marks, a: EventId, c: EventId, n: nat)
    requires Recorded(fetch, edges) && Marking(conflicted, area, edges, marks) && Stable(edges, marks)
    requires forall x, y :: x in edges && y in edges[x] ==> y in edges
    requires a in edges && c in conflicted && Steps(fetch, a, c, n)
    ensures marks[a]
    decreases n
  {
    if n > 0 {
      var b :| Edge(fetch, a, b) && Steps(fetch, b, c, n - 1);
      SettledMarks(fetch, conflicted, area, edges, marks, b, c, n - 1);
      assert AnyMarked(edges[a], marks);
    }
  }

  /** The final filter keeps a node exactly when it reaches a conflicted event. */
  lemma FilterMeaning(fetch: Fetch, conflicted: set<EventId>, edges: Edges, marks: Marks, n: EventId)
    requires Recorded(fetch, edges) && n in edges
    requires Marking(conflicted, Backward(fetch, conflicted), edges, marks) && Stable(edges, marks)
    requires forall x, y :: x in edges && y in edges[x] ==> y in edges
    ensures n in conflicted || AnyMarked(edges[n], marks) <==> ToConflicted(fetch, conflicted, n)
  {
    BackwardCloses(fetch, conflicted);
    if ToConflicted(fetch, conflicted, n) {
      var c :| c in conflicted && Reaches(fetch, n, c);
      ReachesCases(fetch, n, c);
      if n != c {
        var a :| Edge(fetch, n, a) && Reaches(fetch, a, c);
        var k: nat :| Steps(fetch, a, c, k);
        SettledMarks(fetch, conflicted, Backward(fetch, conflicted), edges, marks, a, c, k);
      }
    } else if AnyMarked(edges[n], marks) {
      MarkNode(fetch, Backward(fetch, conflicted), edges, marks, n);
    }
  }

  /** Sweeps to a fixpoint, then the filter. */
  method Interior(conflicted: set<EventId>, ghost fetch: Fetch, edges: Edges)
    returns (kept: set<EventId>)
    requires Recorded(fetch, edges)
    requires forall x, y :: x in edges && y in edges[x] ==> y in edges
    ensures forall n :: n in kept <==> n in edges && ToConflicted(fetch, conflicted, n)
  {
    var marks: Marks := map n | n in edges :: n in conflicted;
    ghost var area := Backward(fetch, conflicted);
    BackwardCloses(fetch, conflicted);
    var changed := true;
    while changed
      invariant Marking(conflicted, area, edges, marks)
      invariant !changed ==> Stable(edges, marks)
      decreases Unmarked(marks), changed
    {
      marks, changed := Sweep(fetch, conflicted, area, edges, marks);
    }
    kept := set n | n in edges && (n in conflicted || AnyMarked(edges[n], marks));
    forall n | n in edges ensures n in kept <==> ToConflicted(fetch, conflicted, n) {
      FilterMeaning(fetch, conflicted, edges, marks, n);
    }
  }

  lemma MissingIsIncomplete(fetch: Fetch, conflicted: set<EventId>, missing: EventId)
    requires FromConflicted(fetch, conflicted, missing) && missing !in fetch
    ensures !forall c :: c in conflicted ==> Complete(fetch, c)
  {
    var c :| c in conflicted && Reaches(fetch, c, missing);
    assert !Complete(fetch, c);
  }

  lemma ExploredIsComplete(fetch: Fetch, conflicted: set<EventId>, edges: Edges, c: EventId)
    requires Recorded(fetch, edges) && forall n :: n in edges <==> n in Forward(fetch, conflicted)
    requires c in conflicted
    ensures Complete(fetch, c)
  {
    forall x | Reaches(fetch, c, x) ensures x in fetch {
      assert FromConflicted(fetch, conflicted, x);
      assert x in edges;
    }
  }

  lemma KeptIsBetween(fetch: Fetch, conflicted: set<EventId>, edges: Edges, kept: set<EventId>)
    requires Recorded(fetch, edges) && forall n :: n in edges <==> n in Forward(fetch, conflicted)
    requires forall n :: n in kept <==> n in edges && ToConflicted(fetch, conflicted, n)
    ensures kept == Between(fetch, conflicted)
  {
  }

  /**
   * Forward exploration, sweeps to a fixpoint, final filter. Holds for every graph, cyclic ones
   * included; it fails exactly when a conflicted event reaches one that is not at hand.
   */
  method ConflictedSubgraph(conflicted: set<EventId>, fetch: Fetch)
    returns (r: Result<set<EventId>, EventId>)
    ensures r.Ok? <==> forall c :: c in conflicted ==> Complete(fetch, c)
    ensures r.Ok? ==> r.value == Between(fetch, conflicted)
    ensures r.Err? ==> FromConflicted(fetch, conflicted, r.error) && r.error !in fetch
  {
    ForwardCloses(fetch, conflicted);
    var explored := Explore(conflicted, fetch, Forward(fetch, conflicted));
    if explored.Err? {
      MissingIsIncomplete(fetch, conflicted, explored.error);
      return Err(explored.error);
    }
    var edges := explored.value;
    ExploredAll(fetch, conflicted, edges);
    forall c | c in conflicted ensures Complete(fetch, c) {
      ExploredIsComplete(fetch, conflicted, edges, c);
    }
    var kept := Interior(conflicted, fetch, edges);
    KeptIsBetween(fetch, conflicted, edges, kept);
    r := Ok(kept);
  }
}
