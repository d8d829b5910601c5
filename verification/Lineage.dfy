/** RDD lineage: the graph, the builder that grows it (api/rdd.go) and the
    depth-first check that a target can be computed (plan/validate.go). */
module Lineage {
  import opened Types

  datatype DependencyKind = DependencyNarrow | DependencyShuffle | DependencyUnsupported

  datatype NarrowDependencySpec = NarrowDependencySpec(oneToOne: bool)

  datatype ShuffleDependencySpec = ShuffleDependencySpec(
    shuffleID: ShuffleID, partitioner: PartitionerSpec, aggregatorID: string, mapSideCombine: bool)

  datatype Dependency = Dependency(
    kind: DependencyKind, parentID: RDDID, narrow: Option<NarrowDependencySpec>, shuffle: Option<ShuffleDependencySpec>)

  datatype RDDNode = RDDNode(
    id: RDDID, operator: OperatorSpec, dependencies: seq<Dependency>, numPartitions: int,
    partitioner: Option<PartitionerSpec>)

  type Nodes = map<RDDID, RDDNode>

  // ---------------------------------------------------------------- one node

  predicate ValidPartitioner(p: PartitionerSpec) {
    p.hash && p.numPartitions > 0
  }

  predicate ValidDependency(d: Dependency) {
    match d.kind
    case DependencyNarrow => d.narrow.Some? && d.shuffle.None? && d.narrow.value.oneToOne
    case DependencyShuffle => d.shuffle.Some? && d.narrow.None? && ValidPartitioner(d.shuffle.value.partitioner)
    case DependencyUnsupported => false
  }

  predicate ValidShape(node: RDDNode) {
    && node.numPartitions > 0
    && (node.partitioner.Some? ==>
          ValidPartitioner(node.partitioner.value) && node.partitioner.value.numPartitions == node.numPartitions)
    && forall i :: 0 <= i < |node.dependencies| ==> ValidDependency(node.dependencies[i])
  }

  predicate ValidOperator(node: RDDNode) {
    match node.operator.kind
    case OpSource => node.operator.sourcePath != "" && |node.dependencies| == 0
    case OpMap | OpFilter | OpMapToPair | OpMapValues =>
      node.operator.functionID != "" && |node.dependencies| == 1 && node.dependencies[0].kind == DependencyNarrow
    case OpReduceByKey =>
      node.operator.functionID != "" && |node.dependencies| == 1 && node.dependencies[0].kind == DependencyShuffle
    case OpUnsupported => false
  }

  /** A shuffle must produce as many partitions as its node has. */
  predicate WidthsMatch(node: RDDNode, d: Dependency) {
    d.kind == DependencyShuffle && d.shuffle.Some? ==> d.shuffle.value.partitioner.numPartitions == node.numPartitions
  }

  /** All the check asks of one node. */
  predicate Sound(nodes: Nodes, id: RDDID) {
    && id in nodes && ValidShape(nodes[id]) && ValidOperator(nodes[id])
    && forall i :: 0 <= i < |nodes[id].dependencies| ==>
         nodes[id].dependencies[i].parentID in nodes && WidthsMatch(nodes[id], nodes[id].dependencies[i])
  }

  // ---------------------------------------------------------------- what validation means

  predicate Edge(nodes: Nodes, child: RDDID, parent: RDDID) {
    child in nodes && exists i :: 0 <= i < |nodes[child].dependencies| && nodes[child].dependencies[i].parentID == parent
  }

  /** A walk from a node up through its dependencies. */
  predicate Walk(nodes: Nodes, p: seq<RDDID>) {
    |p| > 0 && forall i :: 0 <= i < |p| - 1 ==> Edge(nodes, p[i], p[i + 1])
  }

  /** The walk ends at a node that is not sound or that it has met before. */
  predicate Bad(nodes: Nodes, p: seq<RDDID>)
    requires |p| > 0
  {
    !Sound(nodes, p[|p| - 1]) || p[|p| - 1] in p[..|p| - 1]
  }

  /** Every node reachable from the target is sound and lies on no cycle. */
  ghost predicate Acceptable(nodes: Nodes, target: RDDID) {
    forall p: seq<RDDID> :: Walk(nodes, p) && p[0] == target ==> !Bad(nodes, p)
  }

  /** The lineage above `id` is sound and at most `n` nodes deep. */
  predicate Grounded(nodes: Nodes, id: RDDID, n: nat)
    decreases n
  {
    && n > 0 && Sound(nodes, id)
    && forall i :: 0 <= i < |nodes[id].dependencies| ==> Grounded(nodes, nodes[id].dependencies[i].parentID, n - 1)
  }

  ghost predicate Founded(nodes: Nodes, id: RDDID) {
    exists n: nat :: Grounded(nodes, id, n)
  }

  /** Nodes from `id` up to its source; a sound node has at most one dependency. */
  function Depth(nodes: Nodes, id: RDDID, n: nat): (r: nat)
    requires Grounded(nodes, id, n)
    ensures 0 < r <= n
    decreases n
  {
    if nodes[id].dependencies == [] then 1 else 1 + Depth(nodes, nodes[id].dependencies[0].parentID, n - 1)
  }

  lemma {:induction false} GroundedWalk(nodes: Nodes, p: seq<RDDID>, n: nat, k: nat)
    requires Walk(nodes, p) && Grounded(nodes, p[0], n) && k < |p|
    ensures k < n && Grounded(nodes, p[k], n - k)
    ensures Depth(nodes, p[k], n - k) == Depth(nodes, p[0], n) - k
  {
    if k > 0 {
      GroundedWalk(nodes, p, n, k - 1);
      assert Edge(nodes, p[k - 1], p[k - 1 + 1]);
    }
  }

  lemma {:induction false} DepthUnique(nodes: Nodes, id: RDDID, n: nat, m: nat)
    requires Grounded(nodes, id, n) && Grounded(nodes, id, m)
    ensures Depth(nodes, id, n) == Depth(nodes, id, m)
    decreases n
  {
    if nodes[id].dependencies != [] {
      DepthUnique(nodes, nodes[id].dependencies[0].parentID, n - 1, m - 1);
    }
  }

  /** A founded lineage is sound and free of cycles. */
  lemma FoundedIsAcceptable(nodes: Nodes, target: RDDID)
    requires Founded(nodes, target)
    ensures Acceptable(nodes, target)
  {
    var n: nat :| Grounded(nodes, target, n);
    forall p: seq<RDDID> | Walk(nodes, p) && p[0] == target ensures !Bad(nodes, p) {
      var last := |p| - 1;
      GroundedWalk(nodes, p, n, last);
      if p[last] in p[..last] {
        var i :| 0 <= i < last && p[i] == p[last];
        GroundedWalk(nodes, p, n, i);
        DepthUnique(nodes, p[i], n - i, n - last);
      }
    }
  }

  // ---------------------------------------------------------------- the graph

  datatype VisitState = VisitActive | VisitDone

  class RDDGraph {
    var nextRDDID: RDDID
    var nextShuffleID: ShuffleID
    var nodes: Nodes

    ghost predicate Valid()
      reads this
    {
      forall id: RDDID :: id in nodes ==> id < nextRDDID && nodes[id].id == id && ValidShape(nodes[id])
    }

    constructor ()
      ensures Valid() && nodes == map[] && nextRDDID == 0 && nextShuffleID == 0
    {
      nextRDDID, nextShuffleID, nodes := 0, 0, map[];
    }

    method NewShuffleID() returns (id: ShuffleID)
      modifies this`nextShuffleID
      ensures id == old(nextShuffleID) && nextShuffleID == id + 1
    {
      id := nextShuffleID;
      nextShuffleID := nextShuffleID + 1;
    }

    method AddNode(node: RDDNode) returns (r: Option<RDDID>)
      requires Valid()
      modifies this`nodes, this`nextRDDID
      ensures Valid()
      ensures r == if ValidShape(node) then Some(old(nextRDDID)) else None
      ensures r.Some? ==> nodes == old(nodes)[r.value := node.(id := r.value)] && nextRDDID == old(nextRDDID) + 1
      ensures r.None? ==> nodes == old(nodes) && nextRDDID == old(nextRDDID)
    {
      if !ValidShape(node) { return None; }
      var id := nextRDDID;
      nextRDDID := nextRDDID + 1;
      nodes := nodes[id := node.(id := id)];
      r := Some(id);
    }

    /** Accepts a target exactly when its whole lineage is sound and acyclic,
        whatever the graph: cycles and dangling parents included. */
    method Validate(target: RDDID) returns (ok: bool)
      requires Valid()
      ensures ok == Acceptable(nodes, target)
      ensures ok == Founded(nodes, target)
    {
      if target !in nodes {
        NotAcceptable(nodes, [target]);
        return false;
      }
      var states;
      ok, states := ValidateFrom(target, map[], []);
      if ok {
        FoundedIsAcceptable(nodes, target);
      } else {
        var p :| Walk(nodes, p) && p[0] == target && Bad(nodes, p);
        NotAcceptable(nodes, p);
      }
    }

    /** `stack` holds the nodes being visited, outermost first. */
    method ValidateFrom(id: RDDID, states: map<RDDID, VisitState>, ghost stack: seq<RDDID>)
      returns (ok: bool, after: map<RDDID, VisitState>)
      requires Valid() && id in nodes && states.Keys <= nodes.Keys
      requires Walk(nodes, stack + [id])
      requires forall x :: x in states && states[x].VisitActive? ==> x in stack
      requires forall x :: x in states && states[x].VisitDone? ==> Founded(nodes, x)
      ensures after.Keys <= nodes.Keys
      ensures ok ==> Founded(nodes, id)
      ensures ok ==> forall x :: x in states ==> x in after && after[x] == states[x]
      ensures ok ==> forall x :: x in after && x !in states ==> after[x].VisitDone? && Founded(nodes, x)
      ensures !ok ==> exists p :: Walk(nodes, p) && p[0] == (stack + [id])[0] && Bad(nodes, p)
      decreases nodes.Keys - states.Keys
    {
      ghost var here := stack + [id];
      after := states;
      EndsBadly(nodes, stack, id);
      hide Walk, Bad, Founded, Edge;
      if id in states && states[id].VisitActive? { return false, after; }
      if id in states { return true, after; }
      after := states[id := VisitActive];
      var node := nodes[id];
      if !ValidShape(node) || !ValidOperator(node) { return false, after; }
      hide ValidShape, ValidOperator;
      assert |node.dependencies| <= 1 && forall i :: 0 <= i < |node.dependencies| ==> ValidDependency(node.dependencies[i]) by {
        OperatorArity(node);
      }
      var i := 0;
      while i < |node.dependencies|
        invariant 0 <= i <= |node.dependencies| <= 1
        invariant id in after && after[id].VisitActive? && after.Keys <= nodes.Keys
        invariant forall x :: x in states ==> x in after && after[x] == states[x]
        invariant forall x :: x in after && x !in states && x != id ==> after[x].VisitDone? && Founded(nodes, x)
        invariant forall k :: 0 <= k < i ==>
          node.dependencies[k].parentID in nodes && WidthsMatch(node, node.dependencies[k])
          && Founded(nodes, node.dependencies[k].parentID)
      {
        var d := node.dependencies[i];
        if d.parentID !in nodes || (d.kind == DependencyShuffle && d.shuffle.value.partitioner.numPartitions != node.numPartitions) {
          return false, after;
        }
        WalkFurther(nodes, here, i);
        var good;
        good, after := ValidateFrom(d.parentID, after, here);
        if !good { return false, after; }
        i := i + 1;
      }
      FoundedStep(nodes, id);
      ok, after := true, after[id := VisitDone];
    }
  }

  lemma NotAcceptable(nodes: Nodes, p: seq<RDDID>)
    requires Walk(nodes, p) && Bad(nodes, p)
    ensures !Acceptable(nodes, p[0]) && !Founded(nodes, p[0])
  {
    if Founded(nodes, p[0]) { FoundedIsAcceptable(nodes, p[0]); }
  }

  lemma OperatorArity(node: RDDNode)
    requires ValidShape(node) && ValidOperator(node)
    ensures |node.dependencies| <= 1
    ensures forall i :: 0 <= i < |node.dependencies| ==> ValidDependency(node.dependencies[i])
  {
  }

  lemma EndsBadly(nodes: Nodes, stack: seq<RDDID>, id: RDDID)
    ensures !Sound(nodes, id) || id in stack ==> Bad(nodes, stack + [id])
  {
    assert (stack + [id])[..|stack|] == stack;
  }

  lemma WalkFurther(nodes: Nodes, p: seq<RDDID>, i: nat)
    requires Walk(nodes, p) && p[|p| - 1] in nodes && i < |nodes[p[|p| - 1]].dependencies|
    ensures Walk(nodes, p + [nodes[p[|p| - 1]].dependencies[i].parentID])
  {
    var q := p + [nodes[p[|p| - 1]].dependencies[i].parentID];
    forall k | 0 <= k < |q| - 1 ensures Edge(nodes, q[k], q[k + 1]) {
      assert k < |p| - 1 ==> Edge(nodes, p[k], p[k + 1]);
    }
  }

  lemma FoundedStep(nodes: Nodes, id: RDDID)
    requires Sound(nodes, id)
    requires forall i :: 0 <= i < |nodes[id].dependencies| ==> Founded(nodes, nodes[id].dependencies[i].parentID)
    ensures Founded(nodes, id)
  {
    if nodes[id].dependencies == [] {
      assert Grounded(nodes, id, 1);
    } else {
      var n: nat :| Grounded(nodes, nodes[id].dependencies[0].parentID, n);
      assert Grounded(nodes, id, n + 1);
    }
  }

  // ---------------------------------------------------------------- the builder

  /** What every graph grown through the driver API satisfies: dependencies point
      to earlier nodes, narrow ones keep their parent's width, and a shuffle
      combines with the function its node reduces with. */
  ghost predicate Uniform(nodes: Nodes) {
    forall id, i :: id in nodes && 0 <= i < |nodes[id].dependencies| ==>
      var d := nodes[id].dependencies[i];
      && d.parentID in nodes && d.parentID < id
      && (d.kind == DependencyNarrow ==> nodes[d.parentID].numPartitions == nodes[id].numPartitions)
      && WidthsMatch(nodes[id], d)
      && (d.kind == DependencyShuffle && d.shuffle.Some? ==> d.shuffle.value.aggregatorID == nodes[id].operator.functionID)
  }

  /** Every node is one the driver adds: a source, a step as wide as its parent, or a reduction. */
  predicate DriverNode(nodes: Nodes, id: RDDID)
    requires id in nodes
  {
    var n := nodes[id];
    if |n.dependencies| == 1 && n.dependencies[0].parentID in nodes then
      var parent := n.dependencies[0].parentID;
      || (n.operator.kind in {OpMap, OpFilter, OpMapToPair, OpMapValues}
          && n == NarrowNode(id, nodes[parent], parent, n.operator.kind, n.operator.functionID))
      || (n.dependencies[0].shuffle.Some?
          && n == ReduceNode(id, parent, n.operator.functionID, n.dependencies[0].shuffle.value.shuffleID,
                             n.dependencies[0].shuffle.value.partitioner))
    else n == SourceNode(id, n.operator.sourcePath, n.numPartitions)
  }

  predicate DriverBuilt(nodes: Nodes) {
    forall id :: id in nodes ==> DriverNode(nodes, id)
  }

  /** Shuffle IDs come from a counter, so the next one is fresh. */
  predicate ShufflesBelow(nodes: Nodes, next: ShuffleID) {
    forall id, i :: id in nodes && 0 <= i < |nodes[id].dependencies| && nodes[id].dependencies[i].shuffle.Some? ==>
      nodes[id].dependencies[i].shuffle.value.shuffleID < next
  }

  predicate Added(before: Nodes, after: Nodes, node: RDDNode) {
    node.id !in before && after == before[node.id := node]
  }

  function SourceNode(id: RDDID, path: string, numPartitions: int): RDDNode {
    RDDNode(id, OperatorSpec(OpSource, "", path), [], numPartitions, None)
  }

  /** A one-to-one step keeps its parent's width; filters and value maps its partitioner too. */
  function NarrowNode(id: RDDID, parent: RDDNode, parentID: RDDID, kind: OperatorKind, functionID: string): RDDNode {
    RDDNode(id, OperatorSpec(kind, functionID, ""),
            [Dependency(DependencyNarrow, parentID, Some(NarrowDependencySpec(true)), None)], parent.numPartitions,
            if kind == OpFilter || kind == OpMapValues then parent.partitioner else None)
  }

  function ReduceNode(id: RDDID, parentID: RDDID, functionID: string, shuffleID: ShuffleID, p: PartitionerSpec): RDDNode {
    RDDNode(id, OperatorSpec(OpReduceByKey, functionID, ""),
            [Dependency(DependencyShuffle, parentID, None, Some(ShuffleDependencySpec(shuffleID, p, functionID, true)))],
            p.numPartitions, Some(p))
  }

  /** A node added over the graph the driver built, with one parent in it. */
  predicate Fits(nodes: Nodes, node: RDDNode, next: ShuffleID) {
    && node.id !in nodes && |node.dependencies| <= 1
    && forall d :: d in node.dependencies ==>
      && d.parentID in nodes && d.parentID < node.id
      && (d.kind == DependencyNarrow ==> nodes[d.parentID].numPartitions == node.numPartitions)
      && WidthsMatch(node, d)
      && (d.kind == DependencyShuffle && d.shuffle.Some? ==> d.shuffle.value.aggregatorID == node.operator.functionID)
      && (d.shuffle.Some? ==> d.shuffle.value.shuffleID < next)
  }

  lemma UniformGrows(nodes: Nodes, node: RDDNode, next: ShuffleID)
    requires Uniform(nodes) && Fits(nodes, node, next)
    ensures Uniform(nodes[node.id := node])
  {
    var after := nodes[node.id := node];
    hide WidthsMatch;
    forall id, i | id in after && 0 <= i < |after[id].dependencies|
      ensures var d := after[id].dependencies[i];
        && d.parentID in after && d.parentID < id
        && (d.kind == DependencyNarrow ==> after[d.parentID].numPartitions == after[id].numPartitions)
        && WidthsMatch(after[id], d)
        && (d.kind == DependencyShuffle && d.shuffle.Some? ==> d.shuffle.value.aggregatorID == after[id].operator.functionID)
    {
      if id == node.id { assert node.dependencies[i] in node.dependencies; }
    }
  }

  lemma DriverGrows(nodes: Nodes, node: RDDNode)
    requires Uniform(nodes) && DriverBuilt(nodes) && node.id !in nodes && DriverNode(nodes[node.id := node], node.id)
    ensures DriverBuilt(nodes[node.id := node])
  {
    var after := nodes[node.id := node];
    forall id | id in nodes ensures DriverNode(after, id) { DriverNodeStays(nodes, node, id); }
    hide DriverNode, Uniform;
  }

  lemma DriverNodeStays(nodes: Nodes, node: RDDNode, id: RDDID)
    requires Uniform(nodes) && id in nodes && DriverNode(nodes, id) && node.id !in nodes
    ensures DriverNode(nodes[node.id := node], id)
  {
    if |nodes[id].dependencies| == 1 { assert nodes[id].dependencies[0].parentID in nodes; }
    hide Uniform, NarrowNode, ReduceNode, SourceNode;
  }

  lemma ShufflesGrow(nodes: Nodes, node: RDDNode, now: ShuffleID, next: ShuffleID)
    requires ShufflesBelow(nodes, now) && now <= next && Fits(nodes, node, next)
    ensures ShufflesBelow(nodes[node.id := node], next)
  {
    var after := nodes[node.id := node];
    hide WidthsMatch;
    forall id, i | id in after && 0 <= i < |after[id].dependencies| && after[id].dependencies[i].shuffle.Some?
      ensures after[id].dependencies[i].shuffle.value.shuffleID < next
    {
      if id == node.id { assert node.dependencies[i] in node.dependencies; }
    }
  }

  ghost predicate Driven(nodes: Nodes, next: ShuffleID) {
    Uniform(nodes) && DriverBuilt(nodes) && ShufflesBelow(nodes, next)
  }

  lemma DrivenGrows(nodes: Nodes, node: RDDNode, now: ShuffleID, next: ShuffleID)
    requires Driven(nodes, now) && now <= next && Fits(nodes, node, next) && DriverNode(nodes[node.id := node], node.id)
    ensures Driven(nodes[node.id := node], next)
  {
    hide Uniform, DriverBuilt, ShufflesBelow, DriverNode;
    UniformGrows(nodes, node, next);
    DriverGrows(nodes, node);
    ShufflesGrow(nodes, node, now, next);
  }

  lemma SourceGrows(nodes: Nodes, id: RDDID, path: string, n: int, next: ShuffleID)
    requires Driven(nodes, next) && id !in nodes
    ensures Driven(nodes[id := SourceNode(id, path, n)], next)
  {
    hide Driven;
    DrivenGrows(nodes, SourceNode(id, path, n), next, next);
  }

  lemma NarrowGrows(nodes: Nodes, id: RDDID, parent: RDDID, kind: OperatorKind, functionID: string, next: ShuffleID)
    requires Driven(nodes, next) && id !in nodes && parent in nodes && parent < id
    requires kind in {OpMap, OpFilter, OpMapToPair, OpMapValues}
    ensures Driven(nodes[id := NarrowNode(id, nodes[parent], parent, kind, functionID)], next)
  {
    hide Driven;
    DrivenGrows(nodes, NarrowNode(id, nodes[parent], parent, kind, functionID), next, next);
  }

  lemma ReduceGrows(nodes: Nodes, id: RDDID, parent: RDDID, functionID: string, shuffle: ShuffleID, p: PartitionerSpec)
    requires Driven(nodes, shuffle) && id !in nodes && parent in nodes && parent < id
    ensures Driven(nodes[id := ReduceNode(id, parent, functionID, shuffle, p)], shuffle + 1)
  {
    hide Driven;
    DrivenGrows(nodes, ReduceNode(id, parent, functionID, shuffle, p), shuffle, shuffle + 1);
  }

  lemma NoneBuilt()
    ensures Driven(map[], 0)
  {
  }

  lemma DrivenLater(nodes: Nodes, now: ShuffleID, next: ShuffleID)
    requires Driven(nodes, now) && now <= next
    ensures Driven(nodes, next)
  {
  }

  lemma SourceIsShaped(id: RDDID, path: string, n: int)
    ensures ValidShape(SourceNode(id, path, n)) <==> n > 0
  {
  }

  lemma NarrowIsShaped(id: RDDID, parent: RDDNode, parentID: RDDID, kind: OperatorKind, functionID: string)
    requires ValidShape(parent)
    ensures ValidShape(NarrowNode(id, parent, parentID, kind, functionID))
  {
  }

  lemma ReduceIsShaped(id: RDDID, parentID: RDDID, functionID: string, shuffleID: ShuffleID, p: PartitionerSpec)
    ensures ValidShape(ReduceNode(id, parentID, functionID, shuffleID, p)) <==> ValidPartitioner(p)
  {
  }

  /** The driver context; handles are node IDs. */
  class Context {
    const graph: RDDGraph

    ghost predicate Valid()
      reads this, graph
    {
      graph.Valid() && Driven(graph.nodes, graph.nextShuffleID)
    }

    constructor ()
      ensures Valid() && fresh(graph) && graph.nodes == map[]
    {
      NoneBuilt();
      graph := new RDDGraph();
    }

    method TextFile(path: string, numPartitions: int) returns (r: Option<RDDID>)
      requires Valid()
      modifies graph
      ensures Valid()
      ensures r.Some? <==> numPartitions > 0
      ensures r.Some? ==> Added(old(graph.nodes), graph.nodes, SourceNode(r.value, path, numPartitions))
      ensures graph.nextShuffleID == old(graph.nextShuffleID)
      ensures r.None? ==> graph.nodes == old(graph.nodes)
    {
      hide Driven, ValidShape;
      ghost var id := graph.nextRDDID;
      SourceGrows(graph.nodes, id, path, numPartitions, graph.nextShuffleID);
      SourceIsShaped(0, path, numPartitions);
      r := graph.AddNode(RDDNode(0, OperatorSpec(OpSource, "", path), [], numPartitions, None));
    }

    method Narrow(id: RDDID, kind: OperatorKind, functionID: string) returns (r: Option<RDDID>)
      requires Valid() && kind in {OpMap, OpFilter, OpMapToPair, OpMapValues}
      modifies graph
      ensures Valid()
      ensures r.Some? <==> id in old(graph.nodes)
      ensures r.Some? ==> Added(old(graph.nodes), graph.nodes, NarrowNode(r.value, old(graph.nodes)[id], id, kind, functionID))
      ensures graph.nextShuffleID == old(graph.nextShuffleID)
      ensures r.None? ==> graph.nodes == old(graph.nodes)
    {
      if id !in graph.nodes { return None; }
      hide Driven, ValidShape;
      var parent := graph.nodes[id];
      NarrowGrows(graph.nodes, graph.nextRDDID, id, kind, functionID, graph.nextShuffleID);
      NarrowIsShaped(0, parent, id, kind, functionID);
      var partitioner := None;
      if kind in {OpFilter, OpMapValues} { partitioner := parent.partitioner; }
      var d := Dependency(DependencyNarrow, id, Some(NarrowDependencySpec(true)), None);
      r := graph.AddNode(RDDNode(0, OperatorSpec(kind, functionID, ""), [d], parent.numPartitions, partitioner));
    }

    method ReduceByKey(id: RDDID, functionID: string, partitioner: PartitionerSpec) returns (r: Option<RDDID>)
      requires Valid()
      modifies graph
      ensures Valid()
      ensures r.Some? <==> id in old(graph.nodes) && ValidPartitioner(partitioner)
      ensures r.Some? ==> Added(old(graph.nodes), graph.nodes,
                                ReduceNode(r.value, id, functionID, old(graph.nextShuffleID), partitioner))
      ensures graph.nextShuffleID == old(graph.nextShuffleID) + if id in old(graph.nodes) then 1 else 0
      ensures r.None? ==> graph.nodes == old(graph.nodes)
    {
      if id !in graph.nodes { return None; }
      hide Driven, ValidShape;
      ReduceGrows(graph.nodes, graph.nextRDDID, id, functionID, graph.nextShuffleID, partitioner);
      ReduceIsShaped(0, id, functionID, graph.nextShuffleID, partitioner);
      DrivenLater(graph.nodes, graph.nextShuffleID, graph.nextShuffleID + 1);
      var shuffleID := graph.NewShuffleID();
      var shuffle := ShuffleDependencySpec(shuffleID, partitioner, functionID, true);
      var d := Dependency(DependencyShuffle, id, None, Some(shuffle));
      r := graph.AddNode(
        RDDNode(0, OperatorSpec(OpReduceByKey, functionID, ""), [d], partitioner.numPartitions, Some(partitioner)));
    }
  }

  ghost predicate Reaches(nodes: Nodes, target: RDDID, id: RDDID) {
    exists p: seq<RDDID> :: Walk(nodes, p) && p[0] == target && p[|p| - 1] == id
  }

  /** Every operator along the lineage names its path or function, and fits its dependencies. */
  ghost predicate OperatorsValid(nodes: Nodes, target: RDDID) {
    forall id :: id in nodes && Reaches(nodes, target, id) ==> ValidOperator(nodes[id])
  }

  /** A target built through the driver passes validation exactly when the
      operators along its lineage are valid. */
  lemma BuiltIsAcceptable(nodes: Nodes, target: RDDID)
    requires Uniform(nodes) && target in nodes
    requires forall id :: id in nodes ==> ValidShape(nodes[id])
    ensures Acceptable(nodes, target) <==> OperatorsValid(nodes, target)
    ensures Founded(nodes, target) <==> OperatorsValid(nodes, target)
  {
    if OperatorsValid(nodes, target) {
      BuiltIsGrounded(nodes, target);
      FoundedIsAcceptable(nodes, target);
    }
    if Founded(nodes, target) { FoundedIsAcceptable(nodes, target); }
    if Acceptable(nodes, target) {
      forall id | id in nodes && Reaches(nodes, target, id) ensures ValidOperator(nodes[id]) {
        var p: seq<RDDID> :| Walk(nodes, p) && p[0] == target && p[|p| - 1] == id;
        assert !Bad(nodes, p);
      }
    }
  }

  /** The operator names its path, if it is a source, or its function. */
  predicate Named(op: OperatorSpec) {
    if op.kind == OpSource then |op.sourcePath| > 0 else |op.functionID| > 0
  }

  /** Whatever the driver built passes validation exactly when every operator along the
      lineage names its path or its function. */
  lemma NamedIsAcceptable(nodes: Nodes, target: RDDID)
    requires Uniform(nodes) && DriverBuilt(nodes) && target in nodes
    requires forall id :: id in nodes ==> ValidShape(nodes[id])
    ensures Acceptable(nodes, target) <==> forall id :: id in nodes && Reaches(nodes, target, id) ==> Named(nodes[id].operator)
  {
    BuiltIsAcceptable(nodes, target);
    forall id | id in nodes ensures ValidOperator(nodes[id]) <==> Named(nodes[id].operator) { DriverOperators(nodes, id); }
    hide Acceptable, Founded, Reaches, ValidOperator, Named, DriverBuilt;
  }

  lemma DriverOperators(nodes: Nodes, id: RDDID)
    requires DriverBuilt(nodes) && id in nodes
    ensures ValidOperator(nodes[id]) <==> Named(nodes[id].operator)
  {
    assert DriverNode(nodes, id);
  }

  /** What validation asks of a node, by the three kinds there are: a source with a path
      and no parent, a step with a function over one parent, or a reduction with a
      function over one parent into as many hash partitions as it is wide. */
  predicate KnownNode(nodes: Nodes, n: RDDNode) {
    && 0 < n.numPartitions
    && (n.partitioner == None || n.partitioner == Some(PartitionerSpec(true, n.numPartitions)))
    && match n.operator.kind
       case OpSource => |n.operator.sourcePath| > 0 && n.dependencies == []
       case OpMap | OpFilter | OpMapToPair | OpMapValues =>
         |n.operator.functionID| > 0 && |n.dependencies| == 1 && n.dependencies[0].parentID in nodes
         && n.dependencies == [Dependency(DependencyNarrow, n.dependencies[0].parentID, Some(NarrowDependencySpec(true)), None)]
       case OpReduceByKey =>
         |n.operator.functionID| > 0 && |n.dependencies| == 1 && n.dependencies[0].parentID in nodes
         && n.dependencies[0].shuffle.Some?
         && n.dependencies == [Dependency(DependencyShuffle, n.dependencies[0].parentID, None, n.dependencies[0].shuffle)]
         && n.dependencies[0].shuffle.value.partitioner == PartitionerSpec(true, n.numPartitions)
       case OpUnsupported => false
  }

  lemma SoundExactly(nodes: Nodes, id: RDDID)
    ensures Sound(nodes, id) <==> id in nodes && KnownNode(nodes, nodes[id])
  {
    if id in nodes && |nodes[id].dependencies| == 1 {
      var d := nodes[id].dependencies[0];
      assert nodes[id].dependencies == [d];
      assert ValidDependency(d) <==>
        (d == Dependency(DependencyNarrow, d.parentID, Some(NarrowDependencySpec(true)), None)
         || (d.shuffle.Some? && d == Dependency(DependencyShuffle, d.parentID, None, d.shuffle)
             && d.shuffle.value.partitioner.hash && d.shuffle.value.partitioner.numPartitions > 0));
    }
  }

  lemma ReachesItself(nodes: Nodes, id: RDDID)
    ensures Reaches(nodes, id, id)
  {
    assert Walk(nodes, [id]);
  }

  lemma ReachesThrough(nodes: Nodes, id: RDDID, parent: RDDID, x: RDDID)
    requires Edge(nodes, id, parent) && Reaches(nodes, parent, x)
    ensures Reaches(nodes, id, x)
  {
    var p: seq<RDDID> :| Walk(nodes, p) && p[0] == parent && p[|p| - 1] == x;
    var q := [id] + p;
    forall i | 0 <= i < |q| - 1 ensures Edge(nodes, q[i], q[i + 1]) {
      assert i > 0 ==> Edge(nodes, p[i - 1], p[i - 1 + 1]);
    }
    assert Walk(nodes, q) && q[|q| - 1] == x;
  }

  lemma {:induction false} BuiltIsGrounded(nodes: Nodes, id: RDDID)
    requires Uniform(nodes) && id in nodes && (forall x :: x in nodes ==> ValidShape(nodes[x])) && OperatorsValid(nodes, id)
    ensures Grounded(nodes, id, id + 1)
    decreases id
  {
    hide *;
    BuiltIsSound(nodes, id);
    if nodes[id].dependencies != [] {
      var parent := nodes[id].dependencies[0].parentID;
      ParentIsBuilt(nodes, id);
      BuiltIsGrounded(nodes, parent);
      GroundedMore(nodes, parent, parent + 1, id);
    }
    GroundedStep(nodes, id, id);
  }

  lemma BuiltIsSound(nodes: Nodes, id: RDDID)
    requires Uniform(nodes) && id in nodes && (forall x :: x in nodes ==> ValidShape(nodes[x])) && OperatorsValid(nodes, id)
    ensures Sound(nodes, id) && |nodes[id].dependencies| <= 1
  {
    ReachesItself(nodes, id);
    hide Reaches, ValidShape;
  }

  lemma ParentIsBuilt(nodes: Nodes, id: RDDID)
    requires Uniform(nodes) && id in nodes && OperatorsValid(nodes, id) && nodes[id].dependencies != []
    ensures var parent := nodes[id].dependencies[0].parentID; parent in nodes && parent < id && OperatorsValid(nodes, parent)
  {
    hide Reaches, ValidOperator;
    var parent := nodes[id].dependencies[0].parentID;
    assert Edge(nodes, id, parent);
    hide Edge;
    forall x | x in nodes && Reaches(nodes, parent, x) ensures ValidOperator(nodes[x]) {
      ReachesThrough(nodes, id, parent, x);
    }
  }

  lemma GroundedStep(nodes: Nodes, id: RDDID, n: nat)
    requires Sound(nodes, id) && |nodes[id].dependencies| <= 1
    requires nodes[id].dependencies != [] ==> Grounded(nodes, nodes[id].dependencies[0].parentID, n)
    ensures Grounded(nodes, id, n + 1)
  {
    hide Sound;
  }

  lemma {:induction false} GroundedMore(nodes: Nodes, id: RDDID, n: nat, m: nat)
    requires Grounded(nodes, id, n) && n <= m
    ensures Grounded(nodes, id, m)
    decreases n
  {
    forall i | 0 <= i < |nodes[id].dependencies| ensures Grounded(nodes, nodes[id].dependencies[i].parentID, m - 1) {
      GroundedMore(nodes, nodes[id].dependencies[i].parentID, n - 1, m - 1);
    }
  }
}
