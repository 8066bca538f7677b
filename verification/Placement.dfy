/**
 * Rendezvous placement: which nodes hold each shard group and each blob, and how little that
 * changes when one node comes or goes. The weight is an arbitrary function of group and node.
 */
module Placement {
  import opened Orders
  import opened Wrappers

  type NodeId = nat

  datatype Group = Room(shard: nat) | User(shard: nat) | FedOut(shard: nat)

  datatype ClusterConfig = ClusterConfig(roomShards: nat, userShards: nat, replicationFactor: nat)

  /** The ranking of nodes: by weight, and by id where weights tie. */
  function Outranks(weight: NodeId -> nat): (NodeId, NodeId) -> bool {
    (a: NodeId, b: NodeId) => weight(a) > weight(b) || (weight(a) == weight(b) && a < b)
  }

  lemma OutranksTotal(weight: NodeId -> nat, nodes: set<NodeId>)
    ensures TotalOn(Outranks(weight), nodes)
  {
  }

  ghost function Ranked(weight: NodeId -> nat, nodes: set<NodeId>): (q: seq<NodeId>) {
    OutranksTotal(weight, nodes);
    Listing(Outranks(weight), nodes)
  }

  function Truncate<T>(q: seq<T>, n: nat): seq<T> {
    if n < |q| then q[..n] else q
  }

  /** The k nodes of highest rank, in rank order. */
  ghost function Top(weight: NodeId -> nat, nodes: set<NodeId>, k: nat): seq<NodeId> {
    Truncate(Ranked(weight, nodes), k)
  }

  /** Of greater weight, or of equal weight and the smaller id. */
  predicate Heavier(weight: NodeId -> nat, a: NodeId, b: NodeId) {
    weight(a) > weight(b) || (weight(a) == weight(b) && a < b)
  }

  /** As many holders as asked for and there are: heavier ones first, and all heavier than the nodes left out. */
  ghost predicate Holders(weight: NodeId -> nat, nodes: set<NodeId>, count: nat, q: seq<NodeId>) {
    && |q| == (if count < |nodes| then count else |nodes|) && (forall i :: 0 <= i < |q| ==> q[i] in nodes)
    && (forall i, j :: 0 <= i < j < |q| ==> Heavier(weight, q[i], q[j]))
    && (forall i, n :: 0 <= i < |q| && n in nodes && n !in q ==> Heavier(weight, q[i], n))
  }

  lemma TopHolds(weight: NodeId -> nat, nodes: set<NodeId>, k: nat)
    ensures Holders(weight, nodes, k, Top(weight, nodes, k))
  {
    var q, top := Ranked(weight, nodes), Top(weight, nodes, k);
    OutranksTotal(weight, nodes);
    ListingLists(Outranks(weight), nodes);
    assert forall i :: 0 <= i < |q| ==> q[i] in Members(q);
    assert forall i :: 0 <= i < |top| ==> top[i] == q[i];
    forall i, j | 0 <= i < j < |q| ensures Heavier(weight, q[i], q[j]) {
      assert Outranks(weight)(q[i], q[j]);
    }
    forall i, n | 0 <= i < |top| && n in nodes && n !in top ensures Heavier(weight, top[i], n) {
      assert n in Members(q);
      var j :| 0 <= j < |q| && q[j] == n;
      assert j >= |top|;
    }
  }

  /** How many hold a group: for rooms the replication factor or its cap, at least one; else all. */
  function HolderCount(config: ClusterConfig, rfCap: Option<nat>, g: Group, size: nat): nat {
    var asked := if rfCap.Some? then rfCap.value else config.replicationFactor;
    if g.Room? then Min(Max(asked, 1), size) else size
  }

  function Min(a: nat, b: nat): nat {
    if a < b then a else b
  }

  function Max(a: nat, b: nat): nat {
    if a < b then b else a
  }

  /** The nodes of a group are counted and ranked as they should be. */
  lemma WantedHolds(config: ClusterConfig, rfCap: Option<nat>, g: Group, nodes: set<NodeId>, weight: NodeId -> nat)
    ensures var q := Top(weight, nodes, Wanted(config, rfCap, g, |nodes|));
            Holders(weight, nodes, HolderCount(config, rfCap, g, |nodes|), q) &&
            |q| == HolderCount(config, rfCap, g, |nodes|)
  {
    TopHolds(weight, nodes, Wanted(config, rfCap, g, |nodes|));
  }

  // ---------------------------------------------------------------- the operations

  /** The replica count asked for one group, before there are fewer nodes than that. */
  function Wanted(config: ClusterConfig, rfCap: Option<nat>, g: Group, size: nat): (k: nat)
  {
    if !g.Room? then size
    else match rfCap
      case Some(cap) => if cap < 1 then 1 else cap
      case None =>
        var rf := if config.replicationFactor < size then config.replicationFactor else size;
        if rf < 1 then 1 else rf
  }

  ghost predicate DataGroup(config: ClusterConfig, g: Group) {
    match g
    case Room(i) => i < config.roomShards
    case User(i) => i < config.userShards
    case FedOut(i) => i == 0
  }

  method DataGroups(config: ClusterConfig) returns (groups: seq<Group>)
    ensures forall g :: g in groups <==> DataGroup(config, g)
  {
    groups := [];
    for i := 0 to config.roomShards
      invariant forall g :: g in groups <==> g.Room? && g.shard < i
    {
      groups := groups + [Room(i)];
    }
    for i := 0 to config.userShards
      invariant forall g :: g in groups <==>
                            (g.Room? && g.shard < config.roomShards) || (g.User? && g.shard < i)
    {
      groups := groups + [User(i)];
    }
    groups := groups + [FedOut(0)];
  }

  method Assign(config: ClusterConfig, rfCap: Option<nat>, nodes: set<NodeId>,
                weight: (Group, NodeId) -> nat)
    returns (placed: map<Group, seq<NodeId>>)
    ensures forall g :: g in placed <==> DataGroup(config, g)
    ensures forall g :: g in placed ==>
        placed[g] == Top((n: NodeId) => weight(g, n), nodes, Wanted(config, rfCap, g, |nodes|))
    ensures forall g :: g in placed ==>
        && |placed[g]| == HolderCount(config, rfCap, g, |nodes|)
        && Holders((n: NodeId) => weight(g, n), nodes, HolderCount(config, rfCap, g, |nodes|), placed[g])
  {
    var groups := DataGroups(config);
    placed := map[];
    for i := 0 to |groups|
      invariant forall g :: g in placed <==> g in groups[..i]
      invariant forall g :: g in placed ==>
          placed[g] == Top((n: NodeId) => weight(g, n), nodes, Wanted(config, rfCap, g, |nodes|))
    {
      var g := groups[i];
      OutranksTotal((n: NodeId) => weight(g, n), nodes);
      var ranked := Sort(Outranks((n: NodeId) => weight(g, n)), nodes);
      placed := placed[g := Truncate(ranked, Wanted(config, rfCap, g, |nodes|))];
    }
    forall g | g in placed
      ensures |placed[g]| == HolderCount(config, rfCap, g, |nodes|) &&
              Holders((n: NodeId) => weight(g, n), nodes, HolderCount(config, rfCap, g, |nodes|), placed[g])
    {
      WantedHolds(config, rfCap, g, nodes, (n: NodeId) => weight(g, n));
    }
  }

  method BlobReplicas(rf: nat, nodes: set<NodeId>, weight: NodeId -> nat)
    returns (replicas: seq<NodeId>)
    ensures replicas == Top(weight, nodes, if rf < 1 then 1 else rf) && Holders(weight, nodes, Max(rf, 1), replicas)
  {
    var n := if rf < |nodes| then rf else |nodes|;
    OutranksTotal(weight, nodes);
    var ranked := Sort(Outranks(weight), nodes);
    ListingLists(Outranks(weight), nodes);
    replicas := Truncate(ranked, if n < 1 then 1 else n);
    TopHolds(weight, nodes, Max(rf, 1));
  }

  // ---------------------------------------------------------------- what placement means

  /** Membership: a node is placed exactly when fewer than k nodes outrank it. */
  lemma PlacedIffFewOutrank(weight: NodeId -> nat, nodes: set<NodeId>, k: nat, n: NodeId)
    ensures n in Top(weight, nodes, k) <==>
            n in nodes && |Below(Outranks(weight), nodes, n)| < k
  {
    var q := Ranked(weight, nodes);
    OutranksTotal(weight, nodes);
    ListingLists(Outranks(weight), nodes);
    assert n in nodes <==> n in Members(q);
    if n in nodes {
      var i: nat :| i < |q| && q[i] == n;
      IndexCountsBelow(Outranks(weight), nodes, q, i);
      TruncateKeeps(q, i, k);
    } else {
      assert forall x :: x in Truncate(q, k) ==> x in q;
    }
  }

  lemma TruncateKeeps(q: seq<NodeId>, i: nat, k: nat)
    requires i < |q| && forall a, b :: 0 <= a < b < |q| ==> q[a] != q[b]
    ensures q[i] in Truncate(q, k) <==> i < k
  {
  }

  /** `after` is `before` with n inserted and nobody but the last incumbent pushed out for it. */
  ghost predicate InsertsOnly(before: seq<NodeId>, after: seq<NodeId>, n: NodeId) {
    after == before || exists i: nat :: InsertedAt(before, after, n, i)
  }

  ghost predicate InsertedAt(before: seq<NodeId>, after: seq<NodeId>, n: NodeId, i: nat) {
    && i < |after| && after[i] == n
    && |after| - 1 <= |before| <= |after|
    && after[..i] + after[i + 1..] == before[..|after| - 1]
  }

  lemma TruncateInsertion(q: seq<NodeId>, n: NodeId, i: nat, k: nat)
    requires i <= |q|
    ensures InsertsOnly(Truncate(q, k), Truncate(q[..i] + [n] + q[i..], k), n)
  {
    var before, after := Truncate(q, k), Truncate(q[..i] + [n] + q[i..], k);
    if i < k {
      var m := |after| - 1;
      assert after[..i] == q[..i] && after[i + 1..] == q[i..m];
      assert q[..i] + q[i..m] == q[..m] == before[..m];
      assert InsertedAt(before, after, n, i);
    } else {
      assert after == before;
    }
  }

  /** One node joins: only the newcomer enters, at most one incumbent leaves, order survives. */
  lemma JoinChurn(weight: NodeId -> nat, nodes: set<NodeId>, n: NodeId, k: nat)
    requires n !in nodes
    ensures InsertsOnly(Top(weight, nodes, k), Top(weight, nodes + {n}, k), n)
  {
    OutranksTotal(weight, nodes + {n});
    var i := ListingGrows(Outranks(weight), nodes, n);
    TruncateInsertion(Ranked(weight, nodes), n, i, k);
  }

  /** Leaving is joining read backwards, so it restores the list the join had changed. */
  lemma LeaveChurn(weight: NodeId -> nat, nodes: set<NodeId>, n: NodeId, k: nat)
    requires n in nodes
    ensures InsertsOnly(Top(weight, nodes - {n}, k), Top(weight, nodes, k), n)
    ensures Top(weight, (nodes - {n}) + {n}, k) == Top(weight, nodes, k)
  {
    assert (nodes - {n}) + {n} == nodes;
    JoinChurn(weight, nodes - {n}, n, k);
  }

  /** With as many replicas asked for as there are nodes, everybody holds the group. */
  lemma WantedSettles(config: ClusterConfig, rfCap: Option<nat>, g: Group, weight: NodeId -> nat,
                      nodes: set<NodeId>, more: nat)
    requires |nodes| <= more && 0 < more
    ensures Top(weight, nodes, Wanted(config, rfCap, g, |nodes|)) ==
            Top(weight, nodes, Wanted(config, rfCap, g, more))
  {
    OutranksTotal(weight, nodes);
    ListingLists(Outranks(weight), nodes);
  }

  /** Every group of an assignment changes by no more than one insertion when a node joins. */
  lemma AssignChurn(config: ClusterConfig, rfCap: Option<nat>, g: Group,
                    weight: (Group, NodeId) -> nat, nodes: set<NodeId>, n: NodeId)
    requires n !in nodes
    ensures InsertsOnly(
        Top((m: NodeId) => weight(g, m), nodes, Wanted(config, rfCap, g, |nodes|)),
        Top((m: NodeId) => weight(g, m), nodes + {n}, Wanted(config, rfCap, g, |nodes + {n}|)), n)
  {
    var w := (m: NodeId) => weight(g, m);
    var k := Wanted(config, rfCap, g, |nodes + {n}|);
    WantedSettles(config, rfCap, g, w, nodes, |nodes + {n}|);
    JoinChurn(w, nodes, n, k);
  }

  // ---------------------------------------------------------------- roster transitions

  datatype NodeStatus = Active | Draining | Unreachable

  type Roster = map<NodeId, NodeStatus>

  datatype RosterError = UnknownNode | LastActiveNode | NotDraining

  datatype RosterStep = Drain | Undrain | MarkUnreachable | MarkReachable | Remove

  function ActiveNodes(roster: Roster): set<NodeId> {
    set n | n in roster && roster[n] == Active
  }

  function Plan(roster: Roster, step: RosterStep, node: NodeId): Result<Roster, RosterError> {
    if node !in roster then Err(UnknownNode)
    else match step
      case Drain =>
        if roster[node] == Active && |ActiveNodes(roster)| <= 1 then Err(LastActiveNode)
        else Ok(roster[node := Draining])
      case Undrain => Ok(roster[node := Active])
      case MarkUnreachable =>
        if roster[node] != Active then Ok(roster)
        else if |ActiveNodes(roster)| <= 1 then Err(LastActiveNode)
        else Ok(roster[node := Unreachable])
      case MarkReachable =>
        if roster[node] != Unreachable then Ok(roster) else Ok(roster[node := Active])
      case Remove =>
        if roster[node] != Draining then Err(NotDraining) else Ok(roster - {node})
  }

  /** The roster after a run of requests; a refused request changes nothing. */
  function PlanAll(roster: Roster, steps: seq<(RosterStep, NodeId)>): Roster
    decreases |steps|
  {
    if steps == [] then roster
    else match Plan(roster, steps[0].0, steps[0].1)
      case Ok(next) => PlanAll(next, steps[1..])
      case Err(_) => PlanAll(roster, steps[1..])
  }

  /** One request changes the set of placement targets by at most the node it names. */
  lemma PlanTouchesOneNode(roster: Roster, step: RosterStep, node: NodeId)
    requires Plan(roster, step, node).Ok?
    ensures var after := ActiveNodes(Plan(roster, step, node).value);
            && after - {node} == ActiveNodes(roster) - {node}
            && (step.Drain? || step.MarkUnreachable? ==> node !in after)
            && (step.Undrain? ==> node in after)
            && (step.MarkReachable? ==> (node in after <==> !roster[node].Draining?))
            && (step.Remove? ==> after == ActiveNodes(roster))
  {
  }

  /** A request is refused for a node nobody knows, for the last active one, or when removing what was not drained. */
  lemma PlanRefusals(roster: Roster, step: RosterStep, node: NodeId)
    ensures Plan(roster, step, node).Err? <==>
            || node !in roster
            || (step in {Drain, MarkUnreachable} && roster[node] == Active && ActiveNodes(roster) == {node})
            || (step == Remove && roster[node] != Draining)
  {
    if node in roster && roster[node] == Active {
      OneTargetLeft(roster, node);
      assert node in ActiveNodes(roster);
      assert |ActiveNodes(roster)| <= 1 ==> |ActiveNodes(roster) - {node}| == 0;
    }
  }

  /** An accepted one leaves all other nodes, and the node with the status asked for, or removed. */
  lemma PlanEffects(roster: Roster, step: RosterStep, node: NodeId)
    requires Plan(roster, step, node).Ok?
    ensures node in roster
    ensures var after := Plan(roster, step, node).value;
            && (forall m :: m != node ==> (m in after <==> m in roster) && (m in roster ==> after[m] == roster[m]))
            && (step == Remove <==> node !in after)
            && (step == Drain ==> after[node] == Draining) && (step == Undrain ==> after[node] == Active)
            && (step == MarkUnreachable ==>
                  after[node] == if roster[node] == Active then Unreachable else roster[node])
            && (step == MarkReachable ==>
                  after[node] == if roster[node] == Unreachable then Active else roster[node])
  {
  }

  lemma OneTargetLeft(roster: Roster, node: NodeId)
    ensures ActiveNodes(roster) - {node} == {} ==> |ActiveNodes(roster)| <= 1
  {
    if ActiveNodes(roster) - {node} == {} {
      assert ActiveNodes(roster) == {} || ActiveNodes(roster) == {node};
    }
  }

  /** No run of requests leaves the cluster without a placement target. */
  lemma {:induction false} AlwaysATarget(roster: Roster, steps: seq<(RosterStep, NodeId)>)
    requires ActiveNodes(roster) != {}
    ensures ActiveNodes(PlanAll(roster, steps)) != {}
    decreases |steps|
  {
    if steps != [] {
      var node := steps[0].1;
      match Plan(roster, steps[0].0, node)
      case Err(_) => AlwaysATarget(roster, steps[1..]);
      case Ok(next) =>
        PlanTouchesOneNode(roster, steps[0].0, node);
        OneTargetLeft(roster, node);
        AlwaysATarget(next, steps[1..]);
    }
  }
}
