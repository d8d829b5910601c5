/** Which planned tasks a worker accepts: the checks of protocol/validate.go against
    what the planner and the schedulers put into an assignment. */
module PlannedAssignments {
  import opened Types
  import opened Lineage
  import opened Planner
  import opened Fifo
  import opened WorkerRuntime

  /** The operators of a chain's own stage have names that are not blank and no stray
      field: a source names no function, the others no path. Plan validation asks less:
      a name of spaces passes it, and so does a stray field. */
  predicate PlainOps(c: Chain) {
    match c
    case SourceRDD(_, op, _) => !Blank(op.sourcePath) && op.functionID == ""
    case NarrowRDD(parent, _, op, _) => PlainOps(parent) && !Blank(op.functionID) && op.sourcePath == ""
    case ShuffledRDD(_, _, op, _, _) => !Blank(op.functionID) && op.sourcePath == ""
  }

  function ChainIds(c: Chain): set<RDDID> {
    {c.id} + if c.SourceRDD? then {} else ChainIds(c.parent)
  }

  predicate DistinctRDDs(c: Chain) {
    !c.SourceRDD? ==> c.id !in ChainIds(c.parent) && DistinctRDDs(c.parent)
  }

  /** No node repeats along a validated lineage. */
  lemma {:induction false} ChainIdsAreAbove(nodes: Nodes, id: RDDID, n: nat, x: RDDID)
    requires Grounded(nodes, id, n) && x in ChainIds(ChainFrom(nodes, id, n))
    ensures exists m: nat :: Grounded(nodes, x, m) && Depth(nodes, x, m) <= Depth(nodes, id, n)
    decreases n
  {
    if x != id { ChainIdsAreAbove(nodes, nodes[id].dependencies[0].parentID, n - 1, x); }
  }

  lemma {:induction false} ValidatedChainIsDistinct(nodes: Nodes, id: RDDID, n: nat)
    requires Grounded(nodes, id, n)
    ensures DistinctRDDs(ChainFrom(nodes, id, n))
    decreases n
  {
    if nodes[id].dependencies != [] {
      var parent := nodes[id].dependencies[0].parentID;
      ValidatedChainIsDistinct(nodes, parent, n - 1);
      if id in ChainIds(ChainFrom(nodes, parent, n - 1)) {
        ChainIdsAreAbove(nodes, parent, n - 1, id);
        var m: nat :| Grounded(nodes, id, m) && Depth(nodes, id, m) <= Depth(nodes, parent, n - 1);
        DepthUnique(nodes, id, n, m);
      }
    }
  }

  lemma {:induction false} OpIds(c: Chain)
    requires DistinctRDDs(c)
    ensures forall i :: 0 <= i < |Ops(c)| && Ops(c)[i].RDDOperation? ==> Ops(c)[i].rddID in ChainIds(c)
    ensures forall i, j :: 0 <= i < j < |Ops(c)| && Ops(c)[i].RDDOperation? && Ops(c)[j].RDDOperation? ==>
      Ops(c)[i].rddID != Ops(c)[j].rddID
    ensures Ops(c)[|Ops(c)| - 1] == RddOp(c)
  {
    if c.NarrowRDD? { OpIds(c.parent); }
  }

  predicate AllValid(t: Task) {
    forall i :: 0 <= i < |t.operations| ==> ValidOperation(t, i)
  }

  lemma {:induction false} OpsValid(c: Chain, t: Task)
    requires WellFormed(c) && t.operations == Ops(c)
    ensures AllValid(t) <==> PlainOps(c)
    ensures ReadsShuffle(t) <==> Parents(c) != []
    decreases c
  {
    match c
    case SourceRDD(_, _, _) =>
      assert AllValid(t) <==> ValidOperation(t, 0);
    case NarrowRDD(parent, _, _, _) =>
      var above := t.(operations := Ops(parent));
      OpsValid(parent, above);
      var last := |Ops(parent)|;
      assert ReadsShuffle(t) == ReadsShuffle(above);
      forall i | 0 <= i < last ensures ValidOperation(t, i) == ValidOperation(above, i) {}
      NarrowLast(c, t);
      assert AllValid(t) <==> AllValid(above) && ValidOperation(t, last);
    case ShuffledRDD(_, _, _, _, _) =>
      assert AllValid(t) <==> ValidOperation(t, 0) && ValidOperation(t, 1);
  }

  lemma NarrowLast(c: Chain, t: Task)
    requires c.NarrowRDD? && WellFormed(c) && t.operations == Ops(c)
    ensures ValidOperation(t, |Ops(c.parent)|) <==> !Blank(c.operator.functionID) && c.operator.sourcePath == ""
  {
  }

  /** What an assignment carries besides its task. */
  predicate Addressed(a: TaskAssignment, stage: Stage) {
    && LowerHex(a.runID, 32) && !Blank(a.workerID) && a.identity.taskID == a.task.id && a.stageID == stage.id
    && 0 <= a.task.partitionID < stage.numPartitions && a.task == TaskOf(stage, a.task.id, a.task.partitionID)
  }

  /** A worker accepts an assignment of a map stage exactly when no name of the
      pipeline is blank, nor the aggregator's, and no operator has a stray field. */
  lemma MapAssignmentAccepted(a: TaskAssignment, c: Chain, shuffle: ShuffleDependencySpec)
    requires WellFormed(c) && DistinctRDDs(c) && Parents(c) == [] && ValidPartitioner(shuffle.partitioner)
    requires Addressed(a, MapStage(c, shuffle)) && a.inputs.None?
    ensures ValidAssignment(a) <==> PlainOps(c) && !Blank(shuffle.aggregatorID)
  {
    OpsValid(c, a.task);
    OpIds(c);
    hide PlainOps, Blank;
  }

  /** The stage's shuffle read, if any, is as wide as the stage. */
  predicate ReadsOwnWidth(c: Chain) {
    Parents(c) != [] ==> Ops(c)[0].ShuffleRead? && Ops(c)[0].partitioner == PartitionerSpec(true, c.width)
  }

  /** A worker accepts an assignment of a result stage, with the inputs the barrier
      gives it, exactly when no name of the pipeline is blank, no operator has a stray
      field, and the stage is as wide as the shuffle it reads. */
  lemma ResultAssignmentAccepted(a: TaskAssignment, c: Chain, action: ActionSpec)
    requires WellFormed(c) && DistinctRDDs(c) && action.kind != ActionUnsupported && action.targetRDD == c.id
    requires Addressed(a, ResultStage(c, action))
    requires if Parents(c) == [] then a.inputs.None?
             else a.inputs.Some? && ValidSnapshot(a.inputs.value) && a.inputs.value.runID == a.runID
                  && a.inputs.value.jobID == a.jobID && a.inputs.value.numReducePartitions == c.width
                  && Ops(c)[0].ShuffleRead? && a.inputs.value.shuffleID == Ops(c)[0].shuffleID
    ensures ValidAssignment(a) <==> PlainOps(c) && ReadsOwnWidth(c)
  {
    OpsValid(c, a.task);
    OpIds(c);
    ReaderShape(c, c.width);
    hide PlainOps, Blank;
  }

  lemma {:induction false} ReaderShape(c: Chain, n: int)
    requires WellFormed(c)
    ensures Parents(c) != [] ==>
      && |Ops(c)| >= 2 && Ops(c)[0].ShuffleRead? && Ops(c)[0].partitioner.hash
      && Ops(c)[1].RDDOperation? && Ops(c)[1].operator.kind == OpReduceByKey
    ensures Parents(c) != [] && ReaderFits(c, n) ==> Ops(c)[0].partitioner == PartitionerSpec(true, n)
  {
    if c.NarrowRDD? { ReaderShape(c.parent, n); }
  }

  /** Where the target is as wide as its shuffle, as for every job that gets this far,
      only the names and fields matter. */
  lemma FittingReads(c: Chain)
    requires WellFormed(c) && ReaderFits(c, c.width)
    ensures ReadsOwnWidth(c)
  {
    ReaderShape(c, c.width);
  }

  /** A lineage that plan validation accepts and every worker refuses. */
  lemma BlankPathIsRefused(a: TaskAssignment, nodes: Nodes)
    requires nodes == map[0 := SourceNode(0, " ", 1)]
    requires Addressed(a, ResultStage(SourceRDD(0, OperatorSpec(OpSource, "", " "), 1), ActionSpec(ActionCollect, 0))) && a.inputs.None?
    ensures Acceptable(nodes, 0) && !ValidAssignment(a)
  {
    assert Grounded(nodes, 0, 1);
    FoundedIsAcceptable(nodes, 0);
    ResultAssignmentAccepted(a, SourceRDD(0, OperatorSpec(OpSource, "", " "), 1), ActionSpec(ActionCollect, 0));
  }

  /** Another without a blank name: a source that also names a function. */
  lemma StrayFieldIsRefused(a: TaskAssignment, nodes: Nodes, name: string)
    requires name != "" && nodes == map[0 := RDDNode(0, OperatorSpec(OpSource, name, "in"), [], 1, None)]
    requires Addressed(a, ResultStage(SourceRDD(0, OperatorSpec(OpSource, name, "in"), 1), ActionSpec(ActionCollect, 0)))
    requires a.inputs.None?
    ensures Acceptable(nodes, 0) && !Blank("in") && !ValidAssignment(a)
  {
    assert Grounded(nodes, 0, 1);
    FoundedIsAcceptable(nodes, 0);
    assert !IsSpace("in"[0]);
    ResultAssignmentAccepted(a, SourceRDD(0, OperatorSpec(OpSource, name, "in"), 1), ActionSpec(ActionCollect, 0));
  }
}
