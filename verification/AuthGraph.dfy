/**
 * Reachability along auth events, and the explicit-stack closure with its shared memo table.
 */
module AuthGraph {
  import opened Wrappers
  import opened Events

  // ---------------------------------------------------------------- reachability

  predicate Edge(fetch: Fetch, a: EventId, b: EventId) {
    a in fetch && b in fetch[a].authEvents
  }

  /** b is n auth edges away from a. */
  ghost predicate Steps(fetch: Fetch, a: EventId, b: EventId, n: nat)
    decreases n
  {
    if n == 0 then a == b else exists c :: Edge(fetch, a, c) && Steps(fetch, c, b, n - 1)
  }

  ghost predicate Reaches(fetch: Fetch, a: EventId, b: EventId) {
    exists n: nat :: Steps(fetch, a, b, n)
  }

  /** b is an auth ancestor of a: at least one edge away. */
  ghost predicate Above(fetch: Fetch, a: EventId, b: EventId) {
    exists c :: Edge(fetch, a, c) && Reaches(fetch, c, b)
  }

  /** Everything reachable from a is at hand. */
  ghost predicate Complete(fetch: Fetch, a: EventId) {
    forall x :: Reaches(fetch, a, x) ==> x in fetch
  }

  /** The auth chain of a: all its auth ancestors. */
  ghost function Chain(fetch: Fetch, a: EventId): set<EventId> {
    set x | x in fetch && Above(fetch, a, x)
  }

  /** An event refers only to events of smaller rank, so no event is its own ancestor. */
  ghost predicate RankedBy(fetch: Fetch, rank: EventId -> nat) {
    forall a, b :: Edge(fetch, a, b) ==> rank(b) < rank(a)
  }

  lemma ReachesSelf(fetch: Fetch, a: EventId)
    ensures Reaches(fetch, a, a)
  {
    assert Steps(fetch, a, a, 0);
  }

  lemma ReachesVia(fetch: Fetch, a: EventId, c: EventId, b: EventId)
    requires Edge(fetch, a, c) && Reaches(fetch, c, b)
    ensures Reaches(fetch, a, b) && Above(fetch, a, b)
  {
    var n: nat :| Steps(fetch, c, b, n);
    assert Steps(fetch, a, b, n + 1);
  }

  lemma ReachesCases(fetch: Fetch, a: EventId, b: EventId)
    ensures Reaches(fetch, a, b) <==> a == b || Above(fetch, a, b)
  {
    ReachesSelf(fetch, a);
    if Reaches(fetch, a, b) && a != b {
      var n: nat :| Steps(fetch, a, b, n);
      var c :| Edge(fetch, a, c) && Steps(fetch, c, b, n - 1);
      assert Reaches(fetch, c, b);
    }
    if Above(fetch, a, b) {
      var c :| Edge(fetch, a, c) && Reaches(fetch, c, b);
      ReachesVia(fetch, a, c, b);
    }
  }

  lemma {:induction false} StepsTransitive(fetch: Fetch, a: EventId, b: EventId, c: EventId, m: nat, n: nat)
    requires Steps(fetch, a, b, m) && Steps(fetch, b, c, n)
    ensures Steps(fetch, a, c, m + n)
    decreases m
  {
    if m > 0 {
      var d :| Edge(fetch, a, d) && Steps(fetch, d, b, m - 1);
      StepsTransitive(fetch, d, b, c, m - 1, n);
    }
  }

  lemma ReachesTransitive(fetch: Fetch, a: EventId, b: EventId, c: EventId)
    requires Reaches(fetch, a, b) && Reaches(fetch, b, c)
    ensures Reaches(fetch, a, c)
  {
    var m: nat :| Steps(fetch, a, b, m);
    var n: nat :| Steps(fetch, b, c, n);
    StepsTransitive(fetch, a, b, c, m, n);
  }

  lemma ReachesEdge(fetch: Fetch, a: EventId, b: EventId, c: EventId)
    requires Reaches(fetch, a, b) && Edge(fetch, b, c)
    ensures Reaches(fetch, a, c)
  {
    ReachesSelf(fetch, c);
    ReachesVia(fetch, b, c, c);
    ReachesTransitive(fetch, a, b, c);
  }

  lemma {:induction false} RankFalls(fetch: Fetch, rank: EventId -> nat, a: EventId, b: EventId)
    requires RankedBy(fetch, rank) && Above(fetch, a, b)
    ensures rank(b) < rank(a)
    decreases rank(a)
  {
    var c :| Edge(fetch, a, c) && Reaches(fetch, c, b);
    ReachesCases(fetch, c, b);
    if c != b {
      RankFalls(fetch, rank, c, b);
    }
  }

  lemma CompleteUnfolds(fetch: Fetch, a: EventId)
    ensures Complete(fetch, a) <==>
            a in fetch && forall c :: c in fetch[a].authEvents ==> Complete(fetch, c)
  {
    ReachesSelf(fetch, a);
    if Complete(fetch, a) {
      forall c | c in fetch[a].authEvents ensures Complete(fetch, c) {
        forall x | Reaches(fetch, c, x) ensures x in fetch {
          ReachesVia(fetch, a, c, x);
        }
      }
    }
    if a in fetch && forall c :: c in fetch[a].authEvents ==> Complete(fetch, c) {
      forall x | Reaches(fetch, a, x) ensures x in fetch {
        ReachesCases(fetch, a, x);
      }
    }
  }

  /** A set of events that auth edges never leave. */
  ghost predicate ClosedForward(fetch: Fetch, area: iset<EventId>) {
    forall a, b :: a in area && Edge(fetch, a, b) ==> b in area
  }

  /** What an event reaches. */
  ghost function Area(fetch: Fetch, a: EventId): iset<EventId> {
    iset x | Reaches(fetch, a, x)
  }

  lemma AreaCloses(fetch: Fetch, a: EventId)
    ensures ClosedForward(fetch, Area(fetch, a)) && a in Area(fetch, a)
  {
    ReachesSelf(fetch, a);
    forall b, c | b in Area(fetch, a) && Edge(fetch, b, c) ensures c in Area(fetch, a) {
      ReachesEdge(fetch, a, b, c);
    }
  }

  // ---------------------------------------------------------------- the memo table

  type Cache = map<EventId, set<EventId>>

  /** Every memoised chain is the right one, and needs nothing that is not at hand. */
  ghost predicate CacheOk(fetch: Fetch, cache: Cache) {
    forall k :: k in cache ==> Complete(fetch, k) && cache[k] == Chain(fetch, k)
  }

  ghost predicate Extends(cache: Cache, cache': Cache) {
    forall k :: k in cache ==> k in cache' && cache'[k] == cache[k]
  }

  /** Every listed event has all its auth events memoised or listed before it. */
  ghost predicate PostOrder(fetch: Fetch, cache: Cache, order: seq<EventId>) {
    forall i :: 0 <= i < |order| ==> Settled(fetch, cache, order[..i], order[i])
  }

  ghost predicate Settled(fetch: Fetch, cache: Cache, done: seq<EventId>, n: EventId) {
    n in fetch && forall a :: a in fetch[n].authEvents ==> a in cache || a in done
  }

  // ---------------------------------------------------------------- the traversal

  /** A node and whether this is its post-marker. */
  type Frame = (EventId, bool)

  /** The auth events still to be pushed. */
  function Unvisited(auth: seq<EventId>, order: seq<EventId>, cache: Cache): seq<Frame> {
    if auth == [] then []
    else
      var a, rest := auth[|auth| - 1], Unvisited(auth[..|auth| - 1], order, cache);
      if a in order || a in cache then rest else rest + [(a, false)]
  }

  lemma {:induction false} UnvisitedMeaning(auth: seq<EventId>, order: seq<EventId>, cache: Cache)
    ensures forall f :: f in Unvisited(auth, order, cache) <==>
            !f.1 && f.0 in auth && f.0 !in order && f.0 !in cache
    decreases |auth|
  {
    if auth != [] {
      var m := |auth| - 1;
      UnvisitedMeaning(auth[..m], order, cache);
      assert auth == auth[..m] + [auth[m]];
    }
  }

  /** a is finished, memoised, or still on the stack above position j. */
  ghost predicate Handled(cache: Cache, order: seq<EventId>, stack: seq<Frame>, j: nat, a: EventId) {
    a in order || a in cache || exists k :: j < k < |stack| && stack[k].0 == a
  }

  ghost predicate Marker(fetch: Fetch, cache: Cache, order: seq<EventId>, stack: seq<Frame>,
                         rank: EventId -> nat, j: nat)
    requires j < |stack|
  {
    && stack[j].0 in fetch
    && (forall a :: a in fetch[stack[j].0].authEvents ==> Handled(cache, order, stack, j, a))
    && (forall k :: j < k < |stack| ==> rank(stack[k].0) < rank(stack[j].0))
  }

  ghost predicate Traversing(fetch: Fetch, cache: Cache, id: EventId, area: iset<EventId>,
                             rank: EventId -> nat, order: seq<EventId>, stack: seq<Frame>)
  {
    && PostOrder(fetch, cache, order)
    && (id in order || id in cache || exists k :: 0 <= k < |stack| && stack[k].0 == id)
    && (forall k :: 0 <= k < |stack| ==> stack[k].0 in area)
    && (forall j :: 0 <= j < |stack| && stack[j].1 ==> Marker(fetch, cache, order, stack, rank, j))
  }

  ghost function Unfinished(fetch: Fetch, order: seq<EventId>, stack: seq<Frame>): set<EventId> {
    set n | n in fetch && n !in order && (n, true) !in stack
  }

  /** A finished or memoised frame may simply be dropped. */
  lemma DropFrame(fetch: Fetch, cache: Cache, id: EventId, area: iset<EventId>, rank: EventId -> nat,
                  order: seq<EventId>, stack: seq<Frame>)
    requires Traversing(fetch, cache, id, area, rank, order, stack) && stack != []
    requires stack[|stack| - 1].0 in order || stack[|stack| - 1].0 in cache
    ensures Traversing(fetch, cache, id, area, rank, order, stack[..|stack| - 1])
    ensures stack[|stack| - 1].0 in order || !stack[|stack| - 1].1 ==>
            Unfinished(fetch, order, stack[..|stack| - 1]) == Unfinished(fetch, order, stack)
  {
  }

  /** A popped post-marker is settled and joins the order. */
  lemma FinishFrame(fetch: Fetch, cache: Cache, id: EventId, area: iset<EventId>, rank: EventId -> nat,
                    order: seq<EventId>, stack: seq<Frame>)
    requires Traversing(fetch, cache, id, area, rank, order, stack) && stack != []
    requires stack[|stack| - 1].1
    ensures Traversing(fetch, cache, id, area, rank, order + [stack[|stack| - 1].0], stack)
    ensures Unfinished(fetch, order + [stack[|stack| - 1].0], stack) == Unfinished(fetch, order, stack)
  {
    var m := |stack| - 1;
    var n := stack[m].0;
    assert Marker(fetch, cache, order, stack, rank, m);
    assert Settled(fetch, cache, order, n) by {
      forall a | a in fetch[n].authEvents ensures a in cache || a in order {
        assert Handled(cache, order, stack, m, a);
      }
    }
    var order' := order + [n];
    forall i | 0 <= i < |order'| ensures Settled(fetch, cache, order'[..i], order'[i]) {
      if i < |order| {
        assert order'[..i] == order[..i];
        assert Settled(fetch, cache, order[..i], order[i]);
      } else {
        assert order'[..i] == order;
      }
    }
    forall j | 0 <= j < |stack| && stack[j].1 ensures Marker(fetch, cache, order', stack, rank, j) {
      assert Marker(fetch, cache, order, stack, rank, j);
      forall a | a in fetch[stack[j].0].authEvents ensures Handled(cache, order', stack, j, a) {
        assert Handled(cache, order, stack, j, a);
      }
    }
    assert (n, true) in stack;
  }

  /** A fresh node is replaced by its post-marker with its auth events above it. */
  lemma ExpandFrame(fetch: Fetch, cache: Cache, id: EventId, area: iset<EventId>, rank: EventId -> nat,
                    order: seq<EventId>, stack: seq<Frame>, pushed: seq<Frame>)
    requires RankedBy(fetch, rank) && ClosedForward(fetch, area)
    requires Traversing(fetch, cache, id, area, rank, order, stack) && stack != []
    requires var n := stack[|stack| - 1].0;
             && n in fetch && n !in order && !stack[|stack| - 1].1
             && pushed == Unvisited(fetch[n].authEvents, order, cache)
    ensures var next := stack[..|stack| - 1] + [(stack[|stack| - 1].0, true)] + pushed;
            && Traversing(fetch, cache, id, area, rank, order, next)
            && Unfinished(fetch, order, next) < Unfinished(fetch, order, stack)
  {
    var m := |stack| - 1;
    var n := stack[m].0;
    var next := stack[..m] + [(n, true)] + pushed;
    UnvisitedMeaning(fetch[n].authEvents, order, cache);
    assert forall k :: 0 <= k < |stack| ==> next[k].0 == stack[k].0;
    forall k | m < k < |next| ensures Edge(fetch, n, next[k].0) && !next[k].1 {
      assert next[k] in pushed;
    }
    assert forall k :: 0 <= k < |next| ==> next[k].0 in area;
    forall j | 0 <= j < |next| && next[j].1 ensures Marker(fetch, cache, order, next, rank, j) {
      if j < m {
        assert stack[j] == next[j];
        ExpandKeepsMarker(fetch, cache, rank, order, stack, next, j);
      } else {
        ExpandMarks(fetch, cache, rank, order, next, pushed, m);
      }
    }
    ExpandShrinks(fetch, cache, id, area, rank, order, stack, next);
  }

  lemma ExpandMarks(fetch: Fetch, cache: Cache, rank: EventId -> nat, order: seq<EventId>,
                    next: seq<Frame>, pushed: seq<Frame>, m: nat)
    requires RankedBy(fetch, rank) && m < |next| && next[m + 1..] == pushed && next[m].0 in fetch
    requires pushed == Unvisited(fetch[next[m].0].authEvents, order, cache)
    ensures Marker(fetch, cache, order, next, rank, m)
  {
    var auth := fetch[next[m].0].authEvents;
    UnvisitedMeaning(auth, order, cache);
    forall a | a in auth ensures Handled(cache, order, next, m, a) {
      if a !in order && a !in cache {
        assert (a, false) in pushed;
        var k :| 0 <= k < |pushed| && pushed[k] == (a, false);
        assert next[m + 1 + k] == pushed[k];
      }
    }
    forall k | m < k < |next| ensures rank(next[k].0) < rank(next[m].0) {
      assert next[k] == pushed[k - m - 1];
      assert Edge(fetch, next[m].0, next[k].0);
    }
  }

  lemma ExpandKeepsMarker(fetch: Fetch, cache: Cache, rank: EventId -> nat, order: seq<EventId>,
                          stack: seq<Frame>, next: seq<Frame>, j: nat)
    requires RankedBy(fetch, rank) && stack != [] && |stack| <= |next|
    requires j < |stack| - 1 && stack[j].1 && Marker(fetch, cache, order, stack, rank, j)
    requires forall k :: 0 <= k < |stack| ==> next[k].0 == stack[k].0
    requires forall k :: |stack| <= k < |next| ==> Edge(fetch, stack[|stack| - 1].0, next[k].0)
    ensures Marker(fetch, cache, order, next, rank, j)
  {
  }

  lemma ExpandShrinks(fetch: Fetch, cache: Cache, id: EventId, area: iset<EventId>, rank: EventId -> nat,
                      order: seq<EventId>, stack: seq<Frame>, next: seq<Frame>)
    requires Traversing(fetch, cache, id, area, rank, order, stack) && stack != []
    requires |stack| <= |next| && stack[|stack| - 1].0 in fetch && stack[|stack| - 1].0 !in order
    requires !stack[|stack| - 1].1
    requires next[..|stack| - 1] == stack[..|stack| - 1] && next[|stack| - 1] == (stack[|stack| - 1].0, true)
    ensures Unfinished(fetch, order, next) < Unfinished(fetch, order, stack)
  {
    var m := |stack| - 1;
    var n := stack[m].0;
    forall j | 0 <= j < |stack| && stack[j].1 ensures stack[j].0 != n {
      assert Marker(fetch, cache, order, stack, rank, j);
      assert j < m ==> rank(stack[m].0) < rank(stack[j].0);
    }
    assert next[m] in next && n in Unfinished(fetch, order, stack);
    forall x | (x, true) in stack ensures (x, true) in next {
      var j :| 0 <= j < |stack| && stack[j] == (x, true);
      assert next[..m][j] == next[j];
    }
  }

  method Push(auth: seq<EventId>, order: seq<EventId>, cache: Cache) returns (pushed: seq<Frame>)
    ensures pushed == Unvisited(auth, order, cache)
  {
    pushed := [];
    for i := 0 to |auth|
      invariant pushed == Unvisited(auth[..i], order, cache)
    {
      assert auth[..i + 1][..i] == auth[..i];
      if auth[i] !in order && auth[i] !in cache {
        pushed := pushed + [(auth[i], false)];
      }
    }
    assert auth[..|auth|] == auth;
  }

  /** The iterative post-order walk: dependencies come first. */
  method Visit(id: EventId, fetch: Fetch, cache: Cache, ghost rank: EventId -> nat)
    returns (r: Result<seq<EventId>, EventId>)
    requires RankedBy(fetch, rank)
    ensures r.Ok? ==> PostOrder(fetch, cache, r.value) && (id in r.value || id in cache)
    ensures r.Err? ==> Reaches(fetch, id, r.error) && r.error !in fetch
  {
    var order: seq<EventId> := [];
    var stack: seq<Frame> := [(id, false)];
    ghost var area := Area(fetch, id);
    AreaCloses(fetch, id);
    assert stack[0].0 == id;
    while stack != []
      invariant Traversing(fetch, cache, id, area, rank, order, stack)
      decreases Unfinished(fetch, order, stack), |stack|
    {
      var top := |stack| - 1;
      var (node, post) := stack[top];
      if post {
        FinishFrame(fetch, cache, id, area, rank, order, stack);
        if node !in order {
          order := order + [node];
        }
        DropFrame(fetch, cache, id, area, rank, order, stack);
        stack := stack[..top];
      } else if node in order || node in cache {
        DropFrame(fetch, cache, id, area, rank, order, stack);
        stack := stack[..top];
      } else if node !in fetch {
        return Err(node);
      } else {
        var pushed := Push(fetch[node].authEvents, order, cache);
        ExpandFrame(fetch, cache, id, area, rank, order, stack, pushed);
        stack := stack[..top] + [(node, true)] + pushed;
      }
    }
    r := Ok(order);
  }

  // ---------------------------------------------------------------- assembling the chains

  /** The events named in a list together with all their ancestors. */
  ghost function Closure(fetch: Fetch, ids: seq<EventId>): set<EventId> {
    set x | x in fetch && exists a :: a in ids && Reaches(fetch, a, x)
  }

  lemma ChainIsClosure(fetch: Fetch, n: EventId)
    requires n in fetch
    ensures Chain(fetch, n) == Closure(fetch, fetch[n].authEvents)
  {
  }

  lemma ClosureGrows(fetch: Fetch, ids: seq<EventId>, a: EventId)
    requires a in fetch
    ensures Closure(fetch, ids + [a]) == Closure(fetch, ids) + {a} + Chain(fetch, a)
  {
    forall x | x in fetch
      ensures x in Closure(fetch, ids + [a]) <==> x in Closure(fetch, ids) || x == a || x in Chain(fetch, a)
    {
      ReachesCases(fetch, a, x);
      assert a in ids + [a];
      if c :| c in ids + [a] && Reaches(fetch, c, x) {
        assert c in ids || c == a;
      }
      if c :| c in ids && Reaches(fetch, c, x) {
        assert c in ids + [a];
      }
    }
  }

  method OneChain(n: EventId, fetch: Fetch, cache: Cache) returns (chain: set<EventId>)
    requires CacheOk(fetch, cache) && n in fetch
    requires forall a :: a in fetch[n].authEvents ==> a in cache
    ensures Complete(fetch, n) && chain == Chain(fetch, n)
  {
    var auth := fetch[n].authEvents;
    CompleteUnfolds(fetch, n);
    chain := {};
    for i := 0 to |auth|
      invariant chain == Closure(fetch, auth[..i])
    {
      var a := auth[i];
      assert a in auth;
      ReachesSelf(fetch, a);
      ClosureGrows(fetch, auth[..i], a);
      assert auth[..i + 1] == auth[..i] + [a];
      chain := chain + {a};
      if a in cache {
        chain := chain + cache[a];
      }
    }
    assert auth[..|auth|] == auth;
    ChainIsClosure(fetch, n);
  }

  /**
   * The auth chain of an event through the shared memo table. It succeeds exactly when nothing
   * reachable is missing, returns exactly the strict ancestors, and leaves the table correct.
   */
  method AuthChain(id: EventId, fetch: Fetch, cache: Cache, ghost rank: EventId -> nat)
    returns (r: Result<set<EventId>, EventId>, cache': Cache)
    requires RankedBy(fetch, rank) && CacheOk(fetch, cache)
    ensures CacheOk(fetch, cache') && Extends(cache, cache')
    ensures r.Ok? <==> Complete(fetch, id)
    ensures r.Ok? ==> r.value == Chain(fetch, id)
    ensures r.Ok? ==> forall x :: x in r.value <==> Above(fetch, id, x)
    ensures r.Err? ==> Reaches(fetch, id, r.error) && r.error !in fetch
  {
    cache' := cache;
    if id in cache {
      ChainComplete(fetch, id);
      return Ok(cache[id]), cache;
    }
    var visited := Visit(id, fetch, cache, rank);
    if visited.Err? {
      return Err(visited.error), cache;
    }
    var order := visited.value;
    for i := 0 to |order|
      invariant CacheOk(fetch, cache') && Extends(cache, cache')
      invariant forall k :: k in cache' <==> k in cache || k in order[..i]
    {
      assert Settled(fetch, cache, order[..i], order[i]);
      var chain := OneChain(order[i], fetch, cache');
      cache' := cache'[order[i] := chain];
      assert order[..i + 1] == order[..i] + [order[i]];
    }
    assert order[..|order|] == order;
    ChainComplete(fetch, id);
    r := Ok(if id in cache' then cache'[id] else {});
  }

  /** Where nothing is missing, the chain holds every ancestor. */
  lemma ChainComplete(fetch: Fetch, a: EventId)
    ensures Complete(fetch, a) ==> forall x :: x in Chain(fetch, a) <==> Above(fetch, a, x)
  {
    if Complete(fetch, a) {
      forall x | Above(fetch, a, x) ensures x in fetch {
        ReachesCases(fetch, a, x);
      }
    }
  }
}
