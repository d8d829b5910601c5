/** From accepted task outputs to the answer of a job: if every accepted output is
    what its task computes on the inputs it was given, the merged answer is the
    sequential evaluation of the lineage. */
module JobMeaning {
  import opened Types
  import opened Keyed
  import opened Lineage
  import opened Planner
  import opened Streams
  import opened Evaluation
  import opened Store
  import opened Dag
  import opened DagInvariant
  import opened DagRuns
  import opened DagRecovery

  /** Published map outputs by attempt; a published attempt never changes. */
  type Published = map<AttemptIdentity, seq<KV>>

  // ---------------------------------------------------------------- honest tasks

  /** What reading one bucket can yield: all of it, or a failure at some point. */
  predicate ReadsBucket(w: World, published: Published, output: MapOutput, p: nat, s: Stream) {
    || s.end.Some?
    || (output.attempt in published && output.numReducePartitions > 0
        && s == Stream(ToRecords(Restored(w.restore, Bucket(w.hash, output.numReducePartitions, p, published[output.attempt]))), None))
  }

  predicate ReadsInputs(w: World, published: Published, p: int, inputs: Option<InputSnapshot>, buckets: Option<seq<Stream>>) {
    match inputs
    case None => buckets.None?
    case Some(snapshot) =>
      p >= 0 && buckets.Some? && |buckets.value| == |snapshot.outputs|
      && forall i :: 0 <= i < |snapshot.outputs| ==> ReadsBucket(w, published, snapshot.outputs[i], p, buckets.value[i])
  }

  /** The stream a task may see when it runs. */
  ghost predicate Runs(w: World, published: Published, t: Task, inputs: Option<InputSnapshot>, s: Stream) {
    exists buckets :: ReadsInputs(w, published, t.partitionID, inputs, buckets)
                      && Build(w, t.partitionID, t.numPartitions, t.operations, buckets, None) == Ok(s)
  }

  function ActionOutput(action: ActionSpec, items: seq<Record>): TaskOutput {
    match action.kind
    case ActionCollect => TaskOutput(Some(items), 0, None)
    case ActionCount | ActionUnsupported => TaskOutput(None, |items|, None)
  }

  /** The metadata describes what its attempt published. */
  ghost predicate Describes(w: World, published: Published, o: MapOutput) {
    && o.attempt in published && o.numReducePartitions > 0 && Encodable(w.codec, published[o.attempt])
    && o == Manifest(w.codec, w.hash, o.attempt, o.numMapPartitions, o.numReducePartitions, published[o.attempt])
  }

  /** An honest success: a map task describes an output it published, a result task
      reports its action over a stream that ended well. */
  ghost predicate Yields(w: World, published: Published, t: Task, inputs: Option<InputSnapshot>, output: TaskOutput) {
    if t.kind == StageShuffleMap then output.shuffleOutput.Some? && Describes(w, published, output.shuffleOutput.value)
    else t.finalAction.Some? && exists items :: Runs(w, published, t, inputs, Stream(items, None))
                                                && output == ActionOutput(t.finalAction.value, items)
  }

  predicate TaskIn(launched: seq<TaskSet>, attempt: StageAttemptID, job: JobID, t: Task) {
    attempt < |launched| && launched[attempt].jobID == job && t in launched[attempt].tasks
  }

  /** The report is an honest success of a task that was launched. */
  ghost predicate Good(w: World, launched: seq<TaskSet>, published: Published, r: TaskAttemptSuccess) {
    exists t :: TaskIn(launched, r.attempt.stageAttemptID, r.jobID, t)
                && t.id == r.attempt.taskID && t.partitionID == r.partitionID
                && Yields(w, published, t, launched[r.attempt.stageAttemptID].inputs, r.output)
  }

  /** What an attempt published is what its task writes. */
  ghost predicate GoodWrite(w: World, launched: seq<TaskSet>, published: Published, a: AttemptIdentity) {
    a in published && exists t, s :: TaskIn(launched, a.stageAttemptID, a.jobID, t)
                                     && t.id == a.taskID && t.partitionID == a.mapPartitionID && t.shuffleWrite.Some?
                                     && Runs(w, published, t, launched[a.stageAttemptID].inputs, s)
                                     && WritesOf(w, t.shuffleWrite.value, s) == Ok(published[a])
  }

  // ---------------------------------------------------------------- damage shows

  lemma {:induction false} JoinedWhole(streams: seq<Stream>)
    requires Joined(streams).end.None?
    ensures forall i :: 0 <= i < |streams| ==> streams[i].end.None?
  {
    if streams != [] { JoinedWhole(streams[1..]); }
  }

  lemma {:induction false} ThroughDamage(step: StepFn, s: Stream)
    requires s.end.Some?
    ensures Through(step, s).end.Some?
    decreases |s.items|
  {
    if s.items != [] { ThroughDamage(step, s.(items := s.items[1..])); }
  }

  lemma {:induction false} FoldDamage(f: ReduceFn, s: Stream, m: map<string, Record>)
    requires s.end.Some?
    ensures FoldStream(f, s, m).Err?
    decreases |s.items|
  {
    if s.items != [] && s.items[0].KeyValue? && AddPair(f, m, KV(s.items[0].key, s.items[0].value)).Ok? {
      FoldDamage(f, s.(items := s.items[1..]), AddPair(f, m, KV(s.items[0].key, s.items[0].value)).value);
    }
  }

  /** A pipeline that reads a shuffle and ends well has read every bucket whole. */
  lemma {:induction false} PipelineShowsDamage(w: World, c: Chain, n: int, p: nat, buckets: seq<Stream>)
    requires WellFormed(c) && ReadsFrom(c).Some?
    requires Build(w, p, n, Ops(c), Some(buckets), None).Ok?
    requires Build(w, p, n, Ops(c), Some(buckets), None).value.end.None?
    ensures Joined(buckets).end.None?
  {
    match c
    case NarrowRDD(parent, _, op, _) =>
      BuildLast(w, p, n, Ops(parent), RddOp(c), Some(buckets), None);
      var s := Build(w, p, n, Ops(parent), Some(buckets), None);
      assert s.Ok?;
      if s.value.end.Some? { ThroughDamage(StepOf(w.functions, op).value, s.value); }
      PipelineShowsDamage(w, parent, n, p, buckets);
    case ShuffledRDD(parent, _, op, _, shuffle) =>
      var read := ShuffleRead(shuffle.shuffleID, shuffle.partitioner);
      assert Ops(c) == [read] + [RddOp(c)];
      BuildLast(w, p, n, [read], RddOp(c), Some(buckets), None);
      assert [read][1..] == [];
      assert Build(w, p, n, [read], Some(buckets), None) == Ok(Joined(buckets));
      if Joined(buckets).end.Some? { FoldDamage(w.functions.reduces[op.functionID], Joined(buckets), map[]); }
  }

  // ---------------------------------------------------------------- accepted outputs of one stage

  /** What the module needs to know of a stage attempt. */
  ghost predicate StageFacts(w: World, launched: seq<TaskSet>, published: Published, seen: iset<TaskAttemptSuccess>,
                             id: JobID, runID: string, k: StageID, max: nat, st: StageState, inputs: Option<InputSnapshot>) {
    && StageOK(id, runID, k, max, st) && st.attemptID < |launched|
    && launched[st.attemptID] == TaskSet(inputs, id, k, st.attemptID, st.tasks)
    && SourcedStage(seen, id, k, st)
    && (forall r :: r in seen ==> Good(w, launched, published, r))
    && (forall a :: a in published ==> GoodWrite(w, launched, published, a))
  }

  lemma TaskByPartition(st: StageState, t: Task, p: PartitionID)
    requires TasksOK(st) && t in st.tasks && t.partitionID == p
    ensures 0 <= p < |st.tasks| && t == st.tasks[p]
  {
    var q :| 0 <= q < |st.tasks| && st.tasks[q] == t;
  }

  /** An accepted output is an honest output of its own task. */
  lemma OutputYields(w: World, launched: seq<TaskSet>, published: Published, seen: iset<TaskAttemptSuccess>,
                     id: JobID, runID: string, k: StageID, max: nat, st: StageState, inputs: Option<InputSnapshot>, p: PartitionID)
    requires StageFacts(w, launched, published, seen, id, runID, k, max, st, inputs) && p in st.outputs
    ensures 0 <= p < |st.tasks| && Yields(w, published, st.tasks[p], inputs, st.outputs[p])
  {
    var r :| r in seen && ReportsTask(r, id, k, st, p) && r.output == st.outputs[p];
    assert Good(w, launched, published, r);
    var t :| TaskIn(launched, r.attempt.stageAttemptID, r.jobID, t) && t.id == r.attempt.taskID && t.partitionID == r.partitionID
             && Yields(w, published, t, launched[r.attempt.stageAttemptID].inputs, r.output);
    TaskByPartition(st, t, p);
  }

  /** The attempt an accepted map output names. */
  function AttemptOfPart(st: StageState, p: PartitionID): AttemptIdentity {
    AcceptedOutput(st, p).attempt
  }

  /** An accepted map output was published by its task and holds what the task writes. */
  lemma MapOutputHolds(w: World, launched: seq<TaskSet>, published: Published, seen: iset<TaskAttemptSuccess>,
                       id: JobID, runID: string, k: StageID, max: nat, st: StageState, p: PartitionID)
    requires StageFacts(w, launched, published, seen, id, runID, k, max, st, None) && p in st.outputs
    requires st.stage.kind == StageShuffleMap && st.stage.shuffleWrite.Some?
    ensures 0 <= p < |st.tasks| && AttemptOfPart(st, p) in published
    ensures exists s :: Build(w, p, st.stage.numPartitions, st.stage.operations, None, None) == Ok(s)
                        && WritesOf(w, st.stage.shuffleWrite.value, s) == Ok(published[AttemptOfPart(st, p)])
  {
    OutputYields(w, launched, published, seen, id, runID, k, max, st, None, p);
    assert OutputOK(id, runID, st.attemptID, st.tasks[p], st.outputs[p]);
    var a := AttemptOfPart(st, p);
    assert GoodWrite(w, launched, published, a);
    var t, s :| TaskIn(launched, a.stageAttemptID, a.jobID, t) && t.id == a.taskID && t.partitionID == a.mapPartitionID
                && t.shuffleWrite.Some? && Runs(w, published, t, launched[a.stageAttemptID].inputs, s)
                && WritesOf(w, t.shuffleWrite.value, s) == Ok(published[a]);
    TaskByPartition(st, t, p);
  }

  // ---------------------------------------------------------------- all map outputs

  function WritesFrom(published: Published, st: StageState, k: nat): (r: seq<seq<KV>>)
    requires forall m :: 0 <= m < k ==> AttemptOfPart(st, m) in published
    ensures |r| == k && forall m :: 0 <= m < k ==> r[m] == published[AttemptOfPart(st, m)]
  {
    seq(k, m requires 0 <= m < k => published[AttemptOfPart(st, m)])
  }

  ghost predicate PartHolds(w: World, published: Published, st: StageState, stages: seq<Stage>, m: nat)
    requires ParentsFirst(stages) && 0 < |stages| && stages[0].shuffleWrite.Some?
  {
    && AttemptOfPart(st, m) in published
    && StageStream(w, stages, 0, m).Ok?
    && WritesOf(w, stages[0].shuffleWrite.value, StageStream(w, stages, 0, m).value) == Ok(published[AttemptOfPart(st, m)])
  }

  lemma WritesGrow(w: World, published: Published, st: StageState, stages: seq<Stage>, k: nat, before: seq<seq<KV>>)
    requires ParentsFirst(stages) && 0 < |stages| && stages[0].shuffleWrite.Some? && PartHolds(w, published, st, stages, k)
    requires StageWrites(w, stages, 0, k) == Ok(before)
    ensures AttemptOfPart(st, k) in published
    ensures StageWrites(w, stages, 0, k + 1) == Ok(before + [published[AttemptOfPart(st, k)]])
  {
    StageWritesStep(w, stages, 0, k + 1);
    hide StageWrites, StageStream, WritesOf;
  }

  lemma {:induction false} PartsHold(w: World, published: Published, st: StageState, stages: seq<Stage>, k: nat)
    requires ParentsFirst(stages) && 0 < |stages| && stages[0].shuffleWrite.Some?
    requires forall m: nat :: m < k ==> PartHolds(w, published, st, stages, m)
    ensures StageWrites(w, stages, 0, k).Ok?
    ensures forall m :: 0 <= m < k ==>
      AttemptOfPart(st, m) in published && StageWrites(w, stages, 0, k).value[m] == published[AttemptOfPart(st, m)]
    decreases k
  {
    hide *;
    if k == 0 {
      StageWritesStep(w, stages, 0, 0);
    } else {
      PartsHold(w, published, st, stages, k - 1);
      WritesGrow(w, published, st, stages, k - 1, StageWrites(w, stages, 0, k - 1).value);
    }
  }

  /** The accepted outputs of a finished map stage hold what its tasks write. */
  lemma MapStageHolds(w: World, launched: seq<TaskSet>, published: Published, seen: iset<TaskAttemptSuccess>,
                      id: JobID, runID: string, max: nat, st: StageState, stages: seq<Stage>)
    requires StageFacts(w, launched, published, seen, id, runID, 0, max, st, None)
    requires st.stage.kind == StageShuffleMap && st.stage.shuffleWrite.Some?
    requires forall m :: 0 <= m < |st.tasks| ==> m in st.outputs
    requires ParentsFirst(stages) && 0 < |stages| && stages[0] == st.stage && stages[0].parentIDs == []
    ensures forall m :: 0 <= m < |st.tasks| ==> AttemptOfPart(st, m) in published
    ensures StageWrites(w, stages, 0, |st.tasks|) == Ok(WritesFrom(published, st, |st.tasks|))
  {
    hide *;
    forall m: nat | m < |st.tasks| ensures PartHolds(w, published, st, stages, m) {
      MapPartHolds(w, launched, published, seen, id, runID, max, st, stages, m);
    }
    PartsHold(w, published, st, stages, |st.tasks|);
    assert StageWrites(w, stages, 0, |st.tasks|).value == WritesFrom(published, st, |st.tasks|);
  }

  lemma MapPartHolds(w: World, launched: seq<TaskSet>, published: Published, seen: iset<TaskAttemptSuccess>,
                     id: JobID, runID: string, max: nat, st: StageState, stages: seq<Stage>, m: nat)
    requires StageFacts(w, launched, published, seen, id, runID, 0, max, st, None)
    requires st.stage.kind == StageShuffleMap && st.stage.shuffleWrite.Some? && m in st.outputs
    requires ParentsFirst(stages) && 0 < |stages| && stages[0] == st.stage && stages[0].parentIDs == []
    ensures PartHolds(w, published, st, stages, m)
  {
    MapOutputHolds(w, launched, published, seen, id, runID, 0, max, st, m);
    hide StageFacts, Build, WritesOf;
    var s :| Build(w, m, st.stage.numPartitions, st.stage.operations, None, None) == Ok(s)
             && WritesOf(w, st.stage.shuffleWrite.value, s) == Ok(published[AttemptOfPart(st, m)]);
    assert StageStream(w, stages, 0, m) == Ok(s);
  }

  // ---------------------------------------------------------------- one result partition

  /** The partition a result task computed, and what it reported of it. */
  ghost predicate PartComputed(w: World, c: Chain, action: ActionSpec, p: nat, output: TaskOutput)
    requires WellFormed(c)
  {
    Partition(w, c, c.width, p).Ok? && Partition(w, c, c.width, p).value.end.None?
    && output == ActionOutput(action, Partition(w, c, c.width, p).value.items)
  }

  lemma ResultYields(w: World, published: Published, st: StageState, inputs: Option<InputSnapshot>, action: ActionSpec, p: nat)
    requires TasksOK(st) && p in st.outputs && p < |st.tasks| && st.stage.kind == StageResult && st.stage.finalAction == Some(action)
    requires Yields(w, published, st.tasks[p], inputs, st.outputs[p])
    ensures exists items, buckets :: ReadsInputs(w, published, p, inputs, buckets)
              && Build(w, p, st.stage.numPartitions, st.stage.operations, buckets, None) == Ok(Stream(items, None))
              && st.outputs[p] == ActionOutput(action, items)
  {
    var t := st.tasks[p];
    assert t == TaskOf(st.stage, st.tasks[0].id + p, p);
    var items :| Runs(w, published, t, inputs, Stream(items, None)) && st.outputs[p] == ActionOutput(action, items);
  }

  lemma NarrowPart(w: World, published: Published, c: Chain, action: ActionSpec, st: StageState, p: nat)
    requires WellFormed(c) && PlanOf(c, action).stages == [st.stage]
    requires TasksOK(st) && p in st.outputs && p < |st.tasks|
    requires Yields(w, published, st.tasks[p], None, st.outputs[p])
    ensures PartComputed(w, c, action, p, st.outputs[p])
  {
    hide *;
    OnlyStage(w, c, action, st.stage, p);
    ResultYields(w, published, st, None, action, p);
    NarrowBuilds(w, published, c, action, st, p);
  }

  /** A plan of one stage: no shuffle above it, so its pipeline computes the partition. */
  lemma OnlyStage(w: World, c: Chain, action: ActionSpec, stage: Stage, p: nat)
    requires WellFormed(c) && PlanOf(c, action).stages == [stage]
    ensures stage.numPartitions == c.width && stage.kind == StageResult && stage.finalAction == Some(action)
    ensures Build(w, p, stage.numPartitions, stage.operations, None, None) == Partition(w, c, c.width, p)
  {
    hide Build, Partition;
    assert PlanOf(c, action).stages[|Upstream(c)|] == ResultStage(c, action);
    UpstreamShape(c);
    ReadsFromFacts(c, c.width);
    PipelineMeaning(w, c, c.width, p, None);
  }

  lemma NarrowBuilds(w: World, published: Published, c: Chain, action: ActionSpec, st: StageState, p: nat)
    requires WellFormed(c) && p in st.outputs
    requires Build(w, p, st.stage.numPartitions, st.stage.operations, None, None) == Partition(w, c, c.width, p)
    requires exists items, buckets :: ReadsInputs(w, published, p, None, buckets)
              && Build(w, p, st.stage.numPartitions, st.stage.operations, buckets, None) == Ok(Stream(items, None))
              && st.outputs[p] == ActionOutput(action, items)
    ensures PartComputed(w, c, action, p, st.outputs[p])
  {
    hide Build, Partition, ActionOutput, WellFormed;
  }

  /** The buckets an undamaged reduce task read are those of the map stage's writes. */
  lemma BucketsRead(w: World, published: Published, parent: StageState, child: Stage, runID: string, id: JobID, p: nat,
                    buckets: seq<Stream>)
    requires ReadsInputs(w, published, p, Some(Snapshot(runID, id, parent, child)), Some(buckets))
    requires ValidSnapshot(Snapshot(runID, id, parent, child)) && child.numPartitions > 0
    requires forall m :: 0 <= m < |parent.tasks| ==> AttemptOfPart(parent, m) in published
    requires Joined(buckets).end.None?
    ensures buckets == BucketStreams(w, child.numPartitions, p, WritesFrom(published, parent, |parent.tasks|))
  {
    JoinedWhole(buckets);
    var snapshot := Snapshot(runID, id, parent, child);
    var writes := WritesFrom(published, parent, |parent.tasks|);
    var expected := BucketStreams(w, child.numPartitions, p, writes);
    forall i | 0 <= i < |buckets| ensures buckets[i] == expected[i] {
      assert ReadsBucket(w, published, snapshot.outputs[i], p, buckets[i]);
      assert FitsSnapshot(snapshot, snapshot.outputs[i], i);
    }
  }

  lemma ShufflePart(w: World, published: Published, c: Chain, action: ActionSpec, parent: StageState, st: StageState,
                    runID: string, id: JobID, p: nat)
    requires WellFormed(c) && ReaderFits(c, c.width) && PlanOf(c, action).stages == [parent.stage, st.stage]
    requires TasksOK(st) && TasksOK(parent) && p in st.outputs && p < |st.tasks| && st.stage.parentIDs == [0]
    requires parent.stage.shuffleWrite.Some? && ParentsFirst(PlanOf(c, action).stages)
    requires forall m :: 0 <= m < |parent.tasks| ==> AttemptOfPart(parent, m) in published
    requires StageWrites(w, PlanOf(c, action).stages, 0, |parent.tasks|) == Ok(WritesFrom(published, parent, |parent.tasks|))
    requires ValidSnapshot(Snapshot(runID, id, parent, st.stage))
    requires Yields(w, published, st.tasks[p], Some(Snapshot(runID, id, parent, st.stage)), st.outputs[p])
    ensures PartComputed(w, c, action, p, st.outputs[p])
  {
    var stages := PlanOf(c, action).stages;
    var inputs := Some(Snapshot(runID, id, parent, st.stage));
    assert |Upstream(c)| == 1 && stages[1] == ResultStage(c, action);
    ResultYields(w, published, st, inputs, action, p);
    var items, buckets :| ReadsInputs(w, published, p, inputs, buckets)
              && Build(w, p, st.stage.numPartitions, st.stage.operations, buckets, None) == Ok(Stream(items, None))
              && st.outputs[p] == ActionOutput(action, items);
    ReadsFromFacts(c, c.width);
    PipelineShowsDamage(w, c, c.width, p, buckets.value);
    BucketsRead(w, published, parent, st.stage, runID, id, p, buckets.value);
    PlanKeepsMeaning(w, c, action, p);
    hide StageWrites, Build, Partition, Snapshot, BucketStreams;
    assert StageStream(w, stages, 1, p) == Build(w, p, st.stage.numPartitions, st.stage.operations, buckets, None);
  }

  // ---------------------------------------------------------------- the answer

  /** The answer the sequential evaluation gives. */
  function Expected(action: ActionSpec, records: seq<Record>): JobResult {
    match action.kind
    case ActionCollect => JobResult(records, 0)
    case ActionCount => JobResult([], |records|)
    case ActionUnsupported => JobResult([], 0)
  }

  lemma {:induction false} TotalIsLength(parts: seq<TaskOutput>, items: seq<seq<Record>>)
    requires |parts| == |items| && forall p :: 0 <= p < |parts| ==> parts[p].count == |items[p]|
    ensures Total(parts) == |Flatten(items)|
  {
    if parts != [] { TotalIsLength(parts[..|parts| - 1], items[..|items| - 1]); }
  }

  lemma MergedIsExpected(action: ActionSpec, parts: seq<TaskOutput>, items: seq<seq<Record>>)
    requires action.kind != ActionUnsupported && |parts| == |items|
    requires forall p :: 0 <= p < |parts| ==> parts[p] == ActionOutput(action, items[p])
    ensures InOrder(action.kind, parts) == Expected(action, Flatten(items))
  {
    if action.kind == ActionCount {
      TotalIsLength(parts, items);
    } else {
      assert seq(|parts|, i requires 0 <= i < |parts| => if parts[i].records.Some? then parts[i].records.value else []) == items;
    }
  }

  /** The answer agrees with the sequential evaluation: for Collect its records, the
      very same without a shuffle and alike in order with one; for Count their number. */
  predicate Answers(meaning: Record -> Record, c: Chain, action: ActionSpec, result: JobResult, expected: seq<Record>) {
    match action.kind
    case ActionCollect => Agrees(meaning, c, result.records, expected) && result.count == 0
    case ActionCount => result == JobResult([], |expected|)
    case ActionUnsupported => false
  }

  lemma ExpectedAnswers(meaning: Record -> Record, c: Chain, action: ActionSpec, items: seq<Record>, expected: seq<Record>)
    requires Agrees(meaning, c, items, expected) && action.kind != ActionUnsupported
    ensures Answers(meaning, c, action, Expected(action, items), expected)
  {
    AgreesIsAlike(meaning, c, items, expected);
  }

  /** The answer is the action over all partitions of the lineage, in order, each
      computed in full. */
  ghost predicate ComputedAs(w: World, c: Chain, action: ActionSpec, result: JobResult)
    requires WellFormed(c)
  {
    exists outs :: AllComputed(w, c, c.width, outs) && result == Expected(action, Flatten(outs))
  }

  /** If every part was computed, the merged parts are the action over all of them. */
  lemma AnswerIsComputed(w: World, c: Chain, action: ActionSpec, parts: seq<TaskOutput>)
    requires WellFormed(c) && action.kind != ActionUnsupported
    requires |parts| == c.width && forall p: nat :: p < |parts| ==> PartComputed(w, c, action, p, parts[p])
    ensures ComputedAs(w, c, action, InOrder(action.kind, parts))
  {
    hide Partition, WellFormed, AllComputed;
    var n := c.width;
    WidthPositive(c);
    forall p: nat | p < n ensures Partition(w, c, n, p).Ok? && Partition(w, c, n, p).value.end.None? {
      assert PartComputed(w, c, action, p, parts[p]);
    }
    ItemsComputed(w, c, n);
    var items := ItemsOf(w, c, n);
    forall p | 0 <= p < |parts| ensures parts[p] == ActionOutput(action, items[p]) {
      assert PartComputed(w, c, action, p, parts[p]);
    }
    MergedIsExpected(action, parts, items);
  }

  /** An answer computed over all partitions agrees with the evaluated lineage. */
  lemma AnswerIsEvaluation(w: World, sense: Sense, c: Chain, action: ActionSpec, result: JobResult)
    requires WellFormed(c) && ReaderFits(c, c.width) && Lawful(w, sense, c) && action.kind != ActionUnsupported
    requires ComputedAs(w, c, action, result)
    ensures Evaluate(w, sense.total, c).Ok?
    ensures Answers(sense.meaning, c, action, result, Evaluate(w, sense.total, c).value)
  {
    hide Evaluate, WellFormed, ReaderFits, Lawful, AllComputed, Agrees, Answers;
    WidthPositive(c);
    var outs :| AllComputed(w, c, c.width, outs) && result == Expected(action, Flatten(outs));
    PartitionsEvaluate(w, sense, c, c.width, outs);
    ExpectedAnswers(sense.meaning, c, action, Flatten(outs), Evaluate(w, sense.total, c).value);
  }
}
