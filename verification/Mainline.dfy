/**
 * Mainline ordering: the chain of power-levels events behind the current one, and each event's
 * position relative to it, memoised across queries.
 */
module Mainline {
  import opened Wrappers
  import opened Events
  import opened AuthGraph
  import opened PowerOrder

  /** `usize::MAX`. */
  const NOWHERE: nat := 0xFFFF_FFFF_FFFF_FFFF

  /** The power-levels event among an event's auth events. */
  function NextLevels(fetch: Fetch, id: EventId): Option<EventId> {
    if id in fetch && FirstLevels(fetch, fetch[id].authEvents).Ok?
    then FirstLevels(fetch, fetch[id].authEvents).value else None
  }

  lemma NextLevelsEdge(fetch: Fetch, id: EventId)
    ensures NextLevels(fetch, id).Some? ==>
            Edge(fetch, id, NextLevels(fetch, id).value) && NextLevels(fetch, id).value in fetch
  {
    if id in fetch {
      FirstLevelsFinds(fetch, fetch[id].authEvents);
    }
  }

  /** The power-levels events met by going on from one to the next. */
  ghost function LevelsChain(fetch: Fetch, rank: EventId -> nat, from: Option<EventId>): seq<EventId>
    requires RankedBy(fetch, rank)
    decreases if from.Some? then rank(from.value) + 1 else 0
  {
    if from.None? then []
    else
      NextLevelsEdge(fetch, from.value);
      [from.value] + LevelsChain(fetch, rank, NextLevels(fetch, from.value))
  }

  type Index = map<EventId, nat>

  /** The index of the first chain event on the mainline. */
  ghost function FirstHit(mainline: Index, chain: seq<EventId>): nat {
    if chain == [] then NOWHERE
    else if chain[0] in mainline then mainline[chain[0]]
    else FirstHit(mainline, chain[1..])
  }

  /** The uncached position of an event. */
  ghost function Position(fetch: Fetch, rank: EventId -> nat, mainline: Index, id: EventId): nat
    requires RankedBy(fetch, rank)
  {
    FirstHit(mainline, LevelsChain(fetch, rank, NextLevels(fetch, id)))
  }

  /** The hit is that of the first chain event on the mainline; without one there is none. */
  lemma {:induction false} FirstHitMeaning(mainline: Index, chain: seq<EventId>, k: nat)
    requires k <= |chain| && forall j :: 0 <= j < k ==> chain[j] !in mainline
    requires k < |chain| ==> chain[k] in mainline
    ensures FirstHit(mainline, chain) == if k < |chain| then mainline[chain[k]] else NOWHERE
    decreases k
  {
    if k > 0 {
      assert chain[0] !in mainline;
      FirstHitMeaning(mainline, chain[1..], k - 1);
    }
  }

  // ---------------------------------------------------------------- building the mainline

  /** The mainline as an index: every event of the chain under its place in it. */
  ghost predicate Indexes(mainline: Index, chain: seq<EventId>) {
    && (forall i :: 0 <= i < |chain| ==> chain[i] in mainline && mainline[chain[i]] == i)
    && (forall id :: id in mainline ==> id in chain)
  }

  method BuildMainline(start: Option<EventId>, fetch: Fetch, ghost rank: EventId -> nat)
    returns (r: Result<Index, EventId>)
    requires RankedBy(fetch, rank)
    ensures r.Ok? ==> Indexes(r.value, LevelsChain(fetch, rank, start))
    ensures r.Err? ==> r.error !in fetch
    ensures start.None? || Complete(fetch, start.value) ==> r.Ok?
  {
    var mainline: Index := map[];
    var current, index: nat := start, 0;
    ghost var whole, seen: seq<EventId> := LevelsChain(fetch, rank, start), [];
    while current.Some?
      invariant index == |seen| && whole == seen + LevelsChain(fetch, rank, current)
      invariant Indexes(mainline, seen)
      invariant current.Some? ==> forall id :: id in seen ==> rank(current.value) < rank(id)
      invariant start.Some? && Complete(fetch, start.value) && current.Some? ==> Complete(fetch, current.value)
      decreases if current.Some? then rank(current.value) + 1 else 0
    {
      var id := current.value;
      CompleteUnfolds(fetch, id);
      if id !in fetch {
        return Err(id);
      }
      NextLevelsEdge(fetch, id);
      var next := LevelsInAuthEvents(fetch[id], fetch);
      SearchSucceeds(fetch, id);
      if next.Err? {
        return Err(next.error);
      }
      ChainUnfolds(fetch, rank, id, seen);
      assert id !in seen;
      IndexNext(mainline, seen, id);
      mainline := mainline[id := index];
      index := index + 1;
      seen := seen + [id];
      current := next.value;
    }
    assert seen == whole;
    r := Ok(mainline);
  }

  lemma ChainUnfolds(fetch: Fetch, rank: EventId -> nat, id: EventId, seen: seq<EventId>)
    requires RankedBy(fetch, rank)
    ensures seen + LevelsChain(fetch, rank, Some(id)) ==
            seen + [id] + LevelsChain(fetch, rank, NextLevels(fetch, id))
  {
  }

  lemma SearchSucceeds(fetch: Fetch, id: EventId)
    requires id in fetch
    ensures Complete(fetch, id) ==> FirstLevels(fetch, fetch[id].authEvents).Ok?
    ensures FirstLevels(fetch, fetch[id].authEvents).Err? ==> FirstLevels(fetch, fetch[id].authEvents).error !in fetch
  {
    FirstLevelsFinds(fetch, fetch[id].authEvents);
    CompleteUnfolds(fetch, id);
    forall a | a in fetch[id].authEvents && Complete(fetch, a) ensures a in fetch {
      ReachesSelf(fetch, a);
    }
  }

  lemma IndexNext(mainline: Index, seen: seq<EventId>, id: EventId)
    requires Indexes(mainline, seen) && id !in seen
    ensures Indexes(mainline[id := |seen|], seen + [id])
  {
  }

  // ---------------------------------------------------------------- positions

  ghost predicate PositionsOk(fetch: Fetch, rank: EventId -> nat, mainline: Index, cache: Index)
    requires RankedBy(fetch, rank)
  {
    forall id :: id in cache ==> cache[id] == Position(fetch, rank, mainline, id)
  }

  /** Passing over an event that is not on the mainline does not change the outcome. */
  lemma PassOver(fetch: Fetch, rank: EventId -> nat, mainline: Index, id: EventId)
    requires RankedBy(fetch, rank) && id !in mainline
    ensures FirstHit(mainline, LevelsChain(fetch, rank, Some(id))) == Position(fetch, rank, mainline, id)
  {
  }

  /** The memoised walk answers as the uncached one and keeps the memo table right. */
  method MainlinePosition(id: EventId, mainline: Index, fetch: Fetch, cache: Index, ghost rank: EventId -> nat)
    returns (r: Result<nat, EventId>, cache': Index)
    requires RankedBy(fetch, rank) && id in fetch && PositionsOk(fetch, rank, mainline, cache)
    ensures PositionsOk(fetch, rank, mainline, cache')
    ensures r.Ok? ==> r.value == Position(fetch, rank, mainline, id)
    ensures r.Err? ==> r.error !in fetch
    ensures Complete(fetch, id) ==> r.Ok?
  {
    cache' := cache;
    if id in cache {
      return Ok(cache[id]), cache;
    }
    var first := LevelsInAuthEvents(fetch[id], fetch);
    SearchSucceeds(fetch, id);
    if first.Err? {
      return Err(first.error), cache;
    }
    NextLevelsEdge(fetch, id);
    CompleteUnfolds(fetch, id);
    var current, walked, pos := first.value, [id], NOWHERE;
    while current.Some?
      invariant FirstHit(mainline, LevelsChain(fetch, rank, current)) == Position(fetch, rank, mainline, id)
      invariant forall w :: w in walked ==> Position(fetch, rank, mainline, w) == Position(fetch, rank, mainline, id)
      invariant Complete(fetch, id) && current.Some? ==> Complete(fetch, current.value)
      decreases if current.Some? then rank(current.value) + 1 else 0
    {
      var n := current.value;
      if n in mainline {
        pos := mainline[n];
        break;
      }
      PassOver(fetch, rank, mainline, n);
      if n in cache {
        pos := cache[n];
        break;
      }
      CompleteUnfolds(fetch, n);
      if n !in fetch {
        return Err(n), cache;
      }
      walked := walked + [n];
      NextLevelsEdge(fetch, n);
      var next := LevelsInAuthEvents(fetch[n], fetch);
      SearchSucceeds(fetch, n);
      if next.Err? {
        return Err(next.error), cache;
      }
      current := next.value;
    }
    for i := 0 to |walked|
      invariant PositionsOk(fetch, rank, mainline, cache')
    {
      assert walked[i] in walked;
      cache' := cache'[walked[i] := pos];
    }
    r := Ok(pos);
  }

  lemma {:induction false} ChainTail(fetch: Fetch, rank: EventId -> nat, start: Option<EventId>, i: nat)
    requires RankedBy(fetch, rank) && i < |LevelsChain(fetch, rank, start)|
    ensures LevelsChain(fetch, rank, start)[i + 1..] ==
            LevelsChain(fetch, rank, NextLevels(fetch, LevelsChain(fetch, rank, start)[i]))
    decreases i
  {
    NextLevelsEdge(fetch, start.value);
    var next := NextLevels(fetch, start.value);
    assert LevelsChain(fetch, rank, start) == [start.value] + LevelsChain(fetch, rank, next);
    if i > 0 {
      ChainTail(fetch, rank, next, i - 1);
    }
  }

  /** An event of the mainline itself sits just after its own place: its walk starts behind it. */
  lemma MainlineMembers(fetch: Fetch, rank: EventId -> nat, start: Option<EventId>, mainline: Index, i: nat)
    requires RankedBy(fetch, rank) && Indexes(mainline, LevelsChain(fetch, rank, start))
    requires i < |LevelsChain(fetch, rank, start)|
    ensures var chain := LevelsChain(fetch, rank, start);
            Position(fetch, rank, mainline, chain[i]) == if i + 1 < |chain| then i + 1 else NOWHERE
  {
    ChainTail(fetch, rank, start, i);
  }
}
