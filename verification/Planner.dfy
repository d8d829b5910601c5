/** The stage planner (scheduler/planner.go, function_validation.go) and task
    generation (task_generator.go): a validated lineage is compiled into one
    stage per shuffle and a result stage, parents first. */
module Planner {
  import opened Types
  import opened Lineage

  // ---------------------------------------------------------------- a validated lineage

  /** Validation allows one dependency per node, so a lineage is a chain. */
  datatype Chain =
    | SourceRDD(id: RDDID, operator: OperatorSpec, width: int)
    | NarrowRDD(parent: Chain, id: RDDID, operator: OperatorSpec, width: int)
    | ShuffledRDD(parent: Chain, id: RDDID, operator: OperatorSpec, width: int, shuffle: ShuffleDependencySpec)

  function ChainFrom(nodes: Nodes, id: RDDID, n: nat): Chain
    requires Grounded(nodes, id, n)
    decreases n
  {
    var node := nodes[id];
    if node.dependencies == [] then SourceRDD(id, node.operator, node.numPartitions)
    else
      var d := node.dependencies[0];
      var parent := ChainFrom(nodes, d.parentID, n - 1);
      if d.kind == DependencyShuffle then ShuffledRDD(parent, id, node.operator, node.numPartitions, d.shuffle.value)
      else NarrowRDD(parent, id, node.operator, node.numPartitions)
  }

  ghost function ChainOf(nodes: Nodes, id: RDDID): Chain
    requires Founded(nodes, id)
  {
    var n: nat :| Grounded(nodes, id, n);
    ChainFrom(nodes, id, n)
  }

  lemma {:induction false} ChainUnique(nodes: Nodes, id: RDDID, n: nat, m: nat)
    requires Grounded(nodes, id, n) && Grounded(nodes, id, m)
    ensures ChainFrom(nodes, id, n) == ChainFrom(nodes, id, m)
    decreases n
  {
    if nodes[id].dependencies != [] {
      ChainUnique(nodes, nodes[id].dependencies[0].parentID, n - 1, m - 1);
    }
  }

  /** What validation gives a chain: operators that fit their place, and shuffles as
      wide as their nodes. Narrow steps may change width. */
  predicate WellFormed(c: Chain): (r: bool)
    ensures r ==> c.width > 0
  {
    match c
    case SourceRDD(_, op, width) => op.kind == OpSource && width > 0
    case NarrowRDD(parent, _, op, width) =>
      WellFormed(parent) && width > 0 && op.kind in {OpMap, OpFilter, OpMapToPair, OpMapValues}
    case ShuffledRDD(parent, _, op, width, shuffle) =>
      WellFormed(parent) && width > 0 && op.kind == OpReduceByKey
      && shuffle.partitioner == PartitionerSpec(true, width)
  }

  predicate UniformChain(c: Chain) {
    match c
    case SourceRDD(_, _, _) => true
    case NarrowRDD(parent, _, _, width) => UniformChain(parent) && parent.width == width
    case ShuffledRDD(parent, _, _, _, _) => UniformChain(parent)
  }

  /** The stage that computes `c` with `n` tasks reads a shuffle of that width, if
      any, and so do the stages above it. Narrow steps may change width otherwise. */
  predicate ReaderFits(c: Chain, n: int) {
    match c
    case SourceRDD(_, _, _) => true
    case NarrowRDD(parent, _, _, _) => ReaderFits(parent, n)
    case ShuffledRDD(parent, _, _, width, _) => width == n && ReaderFits(parent, parent.width)
  }

  lemma {:induction false} UniformReaderFits(c: Chain)
    requires UniformChain(c)
    ensures ReaderFits(c, c.width)
  {
    if !c.SourceRDD? { UniformReaderFits(c.parent); }
  }

  /** Map-side combining, where it is on, uses the function that reduces. */
  predicate SameReducers(c: Chain) {
    && (!c.SourceRDD? ==> SameReducers(c.parent))
    && (c.ShuffledRDD? && c.shuffle.mapSideCombine ==> c.shuffle.aggregatorID == c.operator.functionID)
  }

  lemma {:induction false} ValidatedChain(nodes: Nodes, id: RDDID, n: nat)
    requires Grounded(nodes, id, n)
    ensures WellFormed(ChainFrom(nodes, id, n)) && ChainFrom(nodes, id, n).width == nodes[id].numPartitions
    decreases n
  {
    if nodes[id].dependencies != [] {
      ValidatedChain(nodes, nodes[id].dependencies[0].parentID, n - 1);
      assert ValidDependency(nodes[id].dependencies[0]) && WidthsMatch(nodes[id], nodes[id].dependencies[0]);
    }
  }

  /** Graphs grown through the driver give chains of equal narrow widths, combined as they are reduced. */
  lemma {:induction false} BuiltChainIsUniform(nodes: Nodes, id: RDDID, n: nat)
    requires Uniform(nodes) && Grounded(nodes, id, n)
    ensures UniformChain(ChainFrom(nodes, id, n)) && SameReducers(ChainFrom(nodes, id, n))
    decreases n
  {
    if nodes[id].dependencies != [] {
      BuiltChainIsUniform(nodes, nodes[id].dependencies[0].parentID, n - 1);
      ValidatedChain(nodes, nodes[id].dependencies[0].parentID, n - 1);
      assert ValidDependency(nodes[id].dependencies[0]);
    }
  }

  // ---------------------------------------------------------------- the plan of a chain

  datatype StagePlan = StagePlan(targetRDD: RDDID, stages: seq<Stage>)

  function RddOp(c: Chain): StageOperation {
    RDDOperation(c.id, c.operator)
  }

  /** The pipeline of the stage that computes a chain. */
  function Ops(c: Chain): (r: seq<StageOperation>)
    ensures r != []
  {
    match c
    case SourceRDD(_, _, _) => [RddOp(c)]
    case NarrowRDD(parent, _, _, _) => Ops(parent) + [RddOp(c)]
    case ShuffledRDD(_, _, _, _, shuffle) => [ShuffleRead(shuffle.shuffleID, shuffle.partitioner), RddOp(c)]
  }

  /** The stages a chain's own pipeline reads from, parents first. */
  function Upstream(c: Chain): seq<Stage>
    decreases c, 0
  {
    match c
    case SourceRDD(_, _, _) => []
    case NarrowRDD(parent, _, _, _) => Upstream(parent)
    case ShuffledRDD(parent, _, _, _, shuffle) => Upstream(parent) + [MapStage(parent, shuffle)]
  }

  function Parents(c: Chain): seq<StageID>
    decreases c, 0
  {
    match c
    case SourceRDD(_, _, _) => []
    case NarrowRDD(parent, _, _, _) => Parents(parent)
    case ShuffledRDD(parent, _, _, _, _) => [|Upstream(parent)|]
  }

  function WriteOf(shuffle: ShuffleDependencySpec): ShuffleWriteSpec {
    ShuffleWriteSpec(shuffle.shuffleID, shuffle.partitioner, shuffle.aggregatorID, shuffle.mapSideCombine)
  }

  function MapStage(c: Chain, shuffle: ShuffleDependencySpec): Stage
    decreases c, 1
  {
    Stage(|Upstream(c)|, StageShuffleMap, Parents(c), c.width, Ops(c), Some(WriteOf(shuffle)), None)
  }

  function ResultStage(c: Chain, action: ActionSpec): Stage {
    Stage(|Upstream(c)|, StageResult, Parents(c), c.width, Ops(c), None, Some(action))
  }

  function PlanOf(c: Chain, action: ActionSpec): StagePlan {
    StagePlan(action.targetRDD, Upstream(c) + [ResultStage(c, action)])
  }

  function Shuffles(c: Chain): nat {
    match c
    case SourceRDD(_, _, _) => 0
    case NarrowRDD(parent, _, _, _) => Shuffles(parent)
    case ShuffledRDD(parent, _, _, _, _) => Shuffles(parent) + 1
  }

  /** A lineage without a shuffle reads none; with one, its only reader has the shuffle's width or not. */
  lemma {:induction false} ReaderWidth(c: Chain, n: int)
    requires WellFormed(c)
    ensures Shuffles(c) == 0 ==> ReaderFits(c, n) && Upstream(c) == []
    ensures Shuffles(c) == 1 ==>
      |Upstream(c)| == 1 && Upstream(c)[0].shuffleWrite.Some?
      && (ReaderFits(c, n) <==> Upstream(c)[0].shuffleWrite.value.partitioner.numPartitions == n)
  {
    match c
    case SourceRDD(_, _, _) =>
    case NarrowRDD(parent, _, _, _) => ReaderWidth(parent, n);
    case ShuffledRDD(parent, _, _, _, _) => ReaderWidth(parent, parent.width);
  }

  // ---------------------------------------------------------------- what a plan looks like

  predicate PlanShape(p: StagePlan, shuffles: nat) {
    && |p.stages| == shuffles + 1
    && forall i :: 0 <= i < |p.stages| ==>
         if i == shuffles then ResultShape(p.stages[i], i) else MapShape(p.stages[i], i)
  }

  predicate MapShape(stage: Stage, i: nat) {
    && stage.id == i && stage.kind == StageShuffleMap && stage.shuffleWrite.Some? && stage.finalAction.None?
    && forall k :: 0 <= k < |stage.parentIDs| ==> stage.parentIDs[k] < i
  }

  predicate ResultShape(stage: Stage, i: nat) {
    && stage.id == i && stage.kind == StageResult && stage.shuffleWrite.None? && stage.finalAction.Some?
    && forall k :: 0 <= k < |stage.parentIDs| ==> stage.parentIDs[k] < i
  }

  lemma {:induction false} UpstreamShape(c: Chain)
    ensures |Upstream(c)| == Shuffles(c)
    ensures forall k :: 0 <= k < |Parents(c)| ==> Parents(c)[k] < |Upstream(c)|
    ensures forall i :: 0 <= i < |Upstream(c)| ==> MapShape(Upstream(c)[i], i)
  {
    if !c.SourceRDD? {
      UpstreamShape(c.parent);
      var above := Upstream(c.parent);
      if c.ShuffledRDD? {
        assert MapShape(MapStage(c.parent, c.shuffle), |above|);
        forall i | 0 <= i < |Upstream(c)| ensures MapShape(Upstream(c)[i], i) {
          assert Upstream(c)[i] == if i < |above| then above[i] else MapStage(c.parent, c.shuffle);
        }
      }
    }
  }

  /** One stage per shuffle and one for the action, each after its parents. */
  lemma PlanHasOneStagePerShuffle(c: Chain, action: ActionSpec)
    ensures PlanShape(PlanOf(c, action), Shuffles(c))
  {
    UpstreamShape(c);
  }

  /** The operators of a chain, source first. */
  function Operators(c: Chain): seq<StageOperation> {
    if c.SourceRDD? then [RddOp(c)] else Operators(c.parent) + [RddOp(c)]
  }

  /** Joins the pipelines from stage `i` upwards at their shuffle reads. */
  function Rejoin(stages: seq<Stage>, i: nat): seq<StageOperation>
    requires i < |stages|
    decreases i
  {
    var ops := stages[i].operations;
    if stages[i].parentIDs == [] || stages[i].parentIDs[0] >= i || ops == [] then ops
    else Rejoin(stages, stages[i].parentIDs[0]) + ops[1..]
  }

  lemma {:induction false} PipelineRejoins(c: Chain, stages: seq<Stage>, i: nat)
    requires i < |stages| && Upstream(c) <= stages[..i]
    requires stages[i].operations == Ops(c) && stages[i].parentIDs == Parents(c)
    ensures Rejoin(stages, i) == Operators(c)
  {
    match c
    case SourceRDD(_, _, _) =>
    case NarrowRDD(parent, _, _, _) =>
      var above := stages[i := stages[i].(operations := Ops(parent))];
      UpstreamShape(c);
      assert above[..i] == stages[..i];
      PipelineRejoins(parent, above, i);
      if Parents(c) != [] {
        RejoinPrefix(stages, above, i, Parents(c)[0]);
        assert Ops(c)[1..] == Ops(parent)[1..] + [RddOp(c)];
      }
    case ShuffledRDD(parent, _, _, _, shuffle) =>
      var j := |Upstream(parent)|;
      assert Upstream(c)[j] == MapStage(parent, shuffle);
      assert stages[..i][j] == Upstream(c)[j];
      PipelineRejoins(parent, stages, j);
  }

  lemma {:induction false} RejoinPrefix(a: seq<Stage>, b: seq<Stage>, i: nat, j: nat)
    requires j < i <= |a| && i <= |b| && a[..i] == b[..i]
    ensures Rejoin(a, j) == Rejoin(b, j)
    decreases j
  {
    assert a[..i][j] == b[..i][j];
    if a[j].parentIDs != [] && a[j].parentIDs[0] < j { RejoinPrefix(a, b, i, a[j].parentIDs[0]); }
  }

  /** Joining the pipelines of a plan gives the lineage back. */
  lemma PlanRejoinsLineage(c: Chain, action: ActionSpec)
    ensures Rejoin(PlanOf(c, action).stages, |Upstream(c)|) == Operators(c)
  {
    UpstreamShape(c);
    PipelineRejoins(c, PlanOf(c, action).stages, |Upstream(c)|);
  }

  // ---------------------------------------------------------------- planning

  /** The names the function registry knows. */
  datatype FunctionNames = FunctionNames(
    maps: set<string>, filters: set<string>, pairMaps: set<string>, valueMaps: set<string>, reduces: set<string>)

  predicate Registered(names: FunctionNames, op: OperatorSpec) {
    match op.kind
    case OpSource => true
    case OpMap => op.functionID in names.maps
    case OpFilter => op.functionID in names.filters
    case OpMapToPair => op.functionID in names.pairMaps
    case OpMapValues => op.functionID in names.valueMaps
    case OpReduceByKey => op.functionID in names.reduces
    case OpUnsupported => false
  }

  predicate AllRegistered(names: FunctionNames, c: Chain) {
    Registered(names, c.operator) && (!c.SourceRDD? ==> AllRegistered(names, c.parent))
  }

  /** What planning an action yields; `None` stands for an error. */
  ghost function Planned(names: FunctionNames, nodes: Nodes, action: ActionSpec): Option<StagePlan> {
    if action.kind == ActionUnsupported || !Founded(nodes, action.targetRDD) then None
    else
      var c := ChainOf(nodes, action.targetRDD);
      if AllRegistered(names, c) then Some(PlanOf(c, action)) else None
  }

  /** Whether every function the chain needs is registered; `visited` as in the
      source, though on an acyclic chain it never stops the descent. */
  method ValidateFunctions(names: FunctionNames, nodes: Nodes, id: RDDID, visited: set<RDDID>, ghost n: nat)
    returns (ok: bool, after: set<RDDID>)
    requires Grounded(nodes, id, n)
    requires forall x: RDDID, m: nat :: x in visited && Grounded(nodes, x, m) ==> Depth(nodes, x, m) > Depth(nodes, id, n)
    ensures ok == AllRegistered(names, ChainFrom(nodes, id, n))
    decreases n
  {
    after := visited + {id};
    if id in visited { return true, after; }
    if !Registered(names, nodes[id].operator) { return false, after; }
    if nodes[id].dependencies == [] { return true, after; }
    var parent := nodes[id].dependencies[0].parentID;
    forall x: RDDID, m: nat | x in after && Grounded(nodes, x, m) ensures Depth(nodes, x, m) > Depth(nodes, parent, n - 1) {
      if x == id { DepthUnique(nodes, id, n, m); }
    }
    ok, after := ValidateFunctions(names, nodes, parent, after, n - 1);
  }

  method Plan(names: FunctionNames, graph: RDDGraph, action: ActionSpec) returns (r: Option<StagePlan>)
    requires graph.Valid()
    ensures r == Planned(names, graph.nodes, action)
  {
    if action.kind == ActionUnsupported { return None; }
    var target := action.targetRDD;
    var valid := graph.Validate(target);
    if !valid { return None; }
    ghost var n: nat :| Grounded(graph.nodes, target, n) && ChainOf(graph.nodes, target) == ChainFrom(graph.nodes, target, n);
    var registered, _ := ValidateFunctions(names, graph.nodes, target, {}, n);
    if !registered { return None; }
    var builder := new StageBuilder(graph.nodes);
    var _ := builder.BuildStage(target, StageResult, None, Some(action), n);
    r := Some(StagePlan(target, builder.stages));
  }

  class StageBuilder {
    const nodes: Nodes
    var stages: seq<Stage>
    var shuffleStages: map<ShuffleID, StageID>

    constructor (nodes: Nodes)
      ensures this.nodes == nodes && stages == [] && shuffleStages == map[]
    {
      this.nodes, stages, shuffleStages := nodes, [], map[];
    }

    /** Appends the stages above `target` and then the stage that ends there. On
        the way up nothing is recorded yet, so the table of shuffle stages never
        short-cuts a chain. */
    method BuildStage(target: RDDID, kind: StageKind, write: Option<ShuffleWriteSpec>, action: Option<ActionSpec>, ghost n: nat)
      returns (id: StageID)
      requires Grounded(nodes, target, n) && stages == [] && shuffleStages == map[]
      modifies this
      ensures var c := ChainFrom(nodes, target, n);
              && id == |Upstream(c)|
              && stages == Upstream(c) + [Stage(id, kind, Parents(c), c.width, Ops(c), write, action)]
      decreases n, 2
    {
      ValidatedChain(nodes, target, n);
      var operations, parentIDs := BuildPipeline(target, n);
      id := |stages|;
      stages := stages + [Stage(id, kind, parentIDs, nodes[target].numPartitions, operations, write, action)];
    }

    method BuildPipeline(id: RDDID, ghost n: nat) returns (operations: seq<StageOperation>, parentIDs: seq<StageID>)
      requires Grounded(nodes, id, n) && stages == [] && shuffleStages == map[]
      modifies this
      ensures var c := ChainFrom(nodes, id, n);
              operations == Ops(c) && parentIDs == Parents(c) && stages == Upstream(c)
      decreases n, 1
    {
      var node := nodes[id];
      var operation := RDDOperation(id, node.operator);
      if node.dependencies == [] { return [operation], []; }
      var d := node.dependencies[0];
      if d.kind == DependencyNarrow {
        operations, parentIDs := BuildPipeline(d.parentID, n - 1);
        return operations + [operation], parentIDs;
      }
      var parentStage := BuildShuffleStage(d, n - 1);
      operations := [ShuffleRead(d.shuffle.value.shuffleID, d.shuffle.value.partitioner), operation];
      parentIDs := [parentStage];
    }

    method BuildShuffleStage(d: Dependency, ghost n: nat) returns (id: StageID)
      requires ValidDependency(d) && d.kind == DependencyShuffle && Grounded(nodes, d.parentID, n)
      requires d.shuffle.value.shuffleID !in shuffleStages ==> stages == [] && shuffleStages == map[]
      modifies this
      ensures d.shuffle.value.shuffleID in old(shuffleStages) ==>
        id == old(shuffleStages)[d.shuffle.value.shuffleID] && stages == old(stages) && shuffleStages == old(shuffleStages)
      ensures d.shuffle.value.shuffleID !in old(shuffleStages) ==>
        var c := ChainFrom(nodes, d.parentID, n);
        id == |Upstream(c)| && stages == Upstream(c) + [MapStage(c, d.shuffle.value)]
      decreases n, 3
    {
      var shuffle := d.shuffle.value;
      if shuffle.shuffleID in shuffleStages { return shuffleStages[shuffle.shuffleID]; }
      id := BuildStage(d.parentID, StageShuffleMap, Some(WriteOf(shuffle)), None, n);
      shuffleStages := shuffleStages[shuffle.shuffleID := id];
    }
  }

  // ---------------------------------------------------------------- tasks

  function TaskOf(stage: Stage, id: TaskID, p: int): Task {
    Task(id, stage.id, stage.kind, p, stage.numPartitions, stage.operations, stage.shuffleWrite, stage.finalAction)
  }

  /** One task per partition, numbered from `first`. */
  function StageTasks(stage: Stage, first: TaskID): (r: seq<Task>)
    requires stage.numPartitions >= 0
    ensures |r| == stage.numPartitions
    ensures forall p :: 0 <= p < |r| ==> r[p] == TaskOf(stage, first + p, p)
  {
    seq(stage.numPartitions, p requires 0 <= p < stage.numPartitions => TaskOf(stage, first + p, p))
  }

  /** The tasks of all stages, stage by stage, numbered from 0 without gaps. */
  function AllTasks(stages: seq<Stage>): seq<Task>
    requires forall i :: 0 <= i < |stages| ==> stages[i].numPartitions > 0
  {
    if stages == [] then []
    else
      var before := AllTasks(stages[..|stages| - 1]);
      before + StageTasks(stages[|stages| - 1], |before|)
  }

  method GenerateTasks(stages: seq<Stage>) returns (r: Option<seq<Task>>)
    ensures r.Some? <==> forall i :: 0 <= i < |stages| ==> stages[i].numPartitions > 0
    ensures r.Some? ==> r.value == AllTasks(stages)
  {
    var i := 0;
    while i < |stages|
      invariant 0 <= i <= |stages| && forall k :: 0 <= k < i ==> stages[k].numPartitions > 0
    {
      if stages[i].numPartitions <= 0 { return None; }
      i := i + 1;
    }
    var tasks: seq<Task> := [];
    i := 0;
    while i < |stages|
      invariant 0 <= i <= |stages| && tasks == AllTasks(stages[..i])
    {
      ghost var before := tasks;
      var p := 0;
      while p < stages[i].numPartitions
        invariant 0 <= p <= stages[i].numPartitions
        invariant tasks == before + StageTasks(stages[i], |before|)[..p]
      {
        tasks := tasks + [TaskOf(stages[i], |tasks|, p)];
        p := p + 1;
      }
      assert stages[..i + 1][..i] == stages[..i];
      i := i + 1;
    }
    assert stages[..i] == stages;
    r := Some(tasks);
  }

  /** The tasks of a stage, in task order. */
  function TasksOfStage(tasks: seq<Task>, id: StageID): seq<Task> {
    if tasks == [] then []
    else
      var last := tasks[|tasks| - 1];
      TasksOfStage(tasks[..|tasks| - 1], id) + if last.stageID == id then [last] else []
  }

  lemma {:induction false} TasksOfStageJoin(a: seq<Task>, b: seq<Task>, id: StageID)
    ensures TasksOfStage(a + b, id) == TasksOfStage(a, id) + TasksOfStage(b, id)
  {
    if b == [] {
      assert a + b == a;
    } else {
      assert (a + b)[..|a + b| - 1] == a + b[..|b| - 1];
      TasksOfStageJoin(a, b[..|b| - 1], id);
    }
  }

  lemma {:induction false} TasksOfOneStage(tasks: seq<Task>, id: StageID, same: bool)
    requires forall i :: 0 <= i < |tasks| ==> ((tasks[i].stageID == id) <==> same)
    ensures TasksOfStage(tasks, id) == if same then tasks else []
  {
    if tasks != [] { TasksOfOneStage(tasks[..|tasks| - 1], id, same); }
  }

  /** Sum of the widths of the stages before one. */
  function TasksBefore(stages: seq<Stage>): nat
    requires forall i :: 0 <= i < |stages| ==> stages[i].numPartitions > 0
  {
    if stages == [] then 0 else TasksBefore(stages[..|stages| - 1]) + stages[|stages| - 1].numPartitions
  }

  /** Task IDs are positions in the list. */
  lemma {:induction false} TaskIDsAreDense(stages: seq<Stage>)
    requires forall i :: 0 <= i < |stages| ==> stages[i].numPartitions > 0 && stages[i].id == i
    ensures |AllTasks(stages)| == TasksBefore(stages)
    ensures forall j :: 0 <= j < |AllTasks(stages)| ==> AllTasks(stages)[j].id == j && AllTasks(stages)[j].stageID < |stages|
  {
    if stages != [] { TaskIDsAreDense(stages[..|stages| - 1]); }
  }

  lemma TasksOfLast(stages: seq<Stage>)
    requires stages != [] && forall i :: 0 <= i < |stages| ==> stages[i].numPartitions > 0
    ensures var init, last := stages[..|stages| - 1], stages[|stages| - 1];
            var own := StageTasks(last, |AllTasks(init)|);
            AllTasks(stages) == AllTasks(init) + own && forall p :: 0 <= p < |own| ==> own[p].stageID == last.id
  {
  }

  /** Each stage owns one task per partition, in order, numbered on from the
      tasks of the stages before it. */
  lemma {:induction false} TaskNumbering(stages: seq<Stage>, k: nat)
    requires forall i :: 0 <= i < |stages| ==> stages[i].numPartitions > 0 && stages[i].id == i
    requires k < |stages|
    ensures TasksOfStage(AllTasks(stages), k) == StageTasks(stages[k], TasksBefore(stages[..k]))
  {
    hide *;
    var last := |stages| - 1;
    var init := stages[..last];
    TasksOfLast(stages);
    var before := AllTasks(init);
    TaskIDsAreDense(init);
    var own := StageTasks(stages[last], |before|);
    TasksOfStageJoin(before, own, k);
    TasksOfOneStage(own, k, k == last);
    if k < last {
      assert init[..k] == stages[..k];
      TaskNumbering(init, k);
    } else {
      TasksOfOneStage(before, k, false);
    }
  }

  // ---------------------------------------------------------------- what is planned

  /** A function the operator calls is registered under its own kind. */
  lemma RegisteredExactly(names: FunctionNames, op: OperatorSpec)
    ensures Registered(names, op) <==>
            || op.kind == OpSource
            || (op.kind == OpMap && op.functionID in names.maps) || (op.kind == OpFilter && op.functionID in names.filters)
            || (op.kind == OpMapToPair && op.functionID in names.pairMaps) || (op.kind == OpMapValues && op.functionID in names.valueMaps)
            || (op.kind == OpReduceByKey && op.functionID in names.reduces)
  {
  }

  /** The operators along the chain, its own first. */
  function CalledBy(c: Chain): seq<OperatorSpec> {
    [c.operator] + if c.SourceRDD? then [] else CalledBy(c.parent)
  }

  lemma {:induction false} AllRegisteredExactly(names: FunctionNames, c: Chain)
    ensures AllRegistered(names, c) <==> forall op :: op in CalledBy(c) ==> Registered(names, op)
  {
    hide Registered;
    if !c.SourceRDD? { AllRegisteredExactly(names, c.parent); }
  }
}
