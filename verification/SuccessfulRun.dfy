/** The end-to-end theorems are about jobs answered with success; here is when there is
    such an answer. A planned job of any width, with or without a shuffle, is answered
    with success in some legal run exactly when its lineage can be computed. */
module SuccessfulRun {
  import opened Types
  import opened TextSource
  import opened Keyed
  import opened Lineage
  import opened Planner
  import opened Streams
  import opened Evaluation
  import opened Completeness
  import opened Store
  import opened JobMeaning
  import opened EndToEnd
  import opened EndToEndResult
  import opened OneRun
  import opened AcceptedReports
  import opened FifoProgress
  import opened JobProgress
  import Dag
  import DagInvariant
  import DagSteps
  import DagRuns
  import DagRecovery
  import DagOutcomes
  import Fifo
  import FifoInvariant

  // ---------------------------------------------------------------- what can be computed

  /** Every partition of the lineage ends well, at the widths the cluster runs it with. */
  ghost predicate Computable(w: World, c: Chain) {
    WellFormed(c) && ReaderFits(c, c.width) && Succeeds(w, c, c.width)
  }

  /** Storage takes what the map tasks of the lineage's last shuffle write. */
  ghost predicate Storable(w: World, c: Chain, runID: string)
    requires WellFormed(c)
  {
    ReadsFrom(c).Some? ==>
      && LawfulCodec(w.codec, w.restore) && LowerHex(runID, 32)
      && var s := ReadsFrom(c).value;
         s.ShuffledRDD? && WellFormed(s.parent)
         && var writes := AllWrites(w, s.parent, WriteOf(s.shuffle), s.parent.width);
            writes.Ok? ==> forall m :: 0 <= m < |writes.value| ==> Encodable(w.codec, writes.value[m])
  }

  /** The chain of a submission. */
  ghost function Target(sub: Submission): Chain
    requires Founded(sub.nodes, sub.action.targetRDD)
  {
    ChainOf(sub.nodes, sub.action.targetRDD)
  }

  ghost predicate Doable(w: World, sub: Submission, runID: string) {
    && Founded(sub.nodes, sub.action.targetRDD) && sub.action.kind != ActionUnsupported
    && Computable(w, Target(sub)) && Storable(w, Target(sub), runID)
  }

  // ---------------------------------------------------------------- the stages of the plan

  /** A plan of two stages: the map stage computes the parent of the lineage's one shuffle. */
  lemma TwoStages(c: Chain, action: ActionSpec)
    requires WellFormed(c) && |PlanOf(c, action).stages| == 2
    ensures ReadsFrom(c).Some?
    ensures var s := ReadsFrom(c).value;
            && s.ShuffledRDD? && WellFormed(s.parent) && ReadsFrom(s.parent).None?
            && PlanOf(c, action).stages[0] == MapStage(s.parent, s.shuffle) && PlanOf(c, action).stages[1] == ResultStage(c, action)
  {
    assert |Upstream(c)| == 1;
    ReadsFromFacts(c, c.width);
    if ReadsFrom(c).None? { NoShuffleNoStage(c); }
    var s := ReadsFrom(c).value;
    ReadsFromFacts(s.parent, s.parent.width);
    if ReadsFrom(s.parent).Some? { ShuffleHasStage(s.parent); }
  }

  lemma {:induction false} NoShuffleNoStage(c: Chain)
    requires ReadsFrom(c).None?
    ensures Upstream(c) == []
  {
    if c.NarrowRDD? { NoShuffleNoStage(c.parent); }
  }

  lemma {:induction false} ShuffleHasStage(c: Chain)
    requires ReadsFrom(c).Some?
    ensures |Upstream(c)| > 0
  {
    if c.NarrowRDD? { ShuffleHasStage(c.parent); }
  }

  /** What a map task of a computable lineage writes, and that storage takes it. */
  lemma MapTaskWrites(w: World, c: Chain, action: ActionSpec, runID: string, m: nat)
    requires Computable(w, c) && Storable(w, c, runID) && |PlanOf(c, action).stages| == 2
    requires m < PlanOf(c, action).stages[0].numPartitions
    ensures var stage := PlanOf(c, action).stages[0];
            stage.shuffleWrite.Some? && exists out, pairs ::
              && Build(w, m, stage.numPartitions, stage.operations, None, None) == Ok(out)
              && WritesOf(w, stage.shuffleWrite.value, out) == Ok(pairs) && Encodable(w.codec, pairs)
  {
    hide *;
    ComputableParts(w, c);
    TwoStages(c, action);
    var s := ReadsFrom(c).value;
    MapStageFields(s.parent, s.shuffle);
    WidthPositive(c);
    SucceedsAt(w, c, c.width);
    if AllWrites(w, s.parent, WriteOf(s.shuffle), s.parent.width).Err? { FailedWrites(w, c, c.width, 0); }
    AllWritesParts(w, s.parent, WriteOf(s.shuffle), s.parent.width, m);
    PipelineMeaning(w, s.parent, s.parent.width, m, None);
    WritesStored(w, c, runID, m);
  }

  lemma ComputableParts(w: World, c: Chain)
    requires Computable(w, c)
    ensures WellFormed(c) && ReaderFits(c, c.width) && Succeeds(w, c, c.width)
  {
    hide WellFormed, ReaderFits, Succeeds;
  }

  lemma MapStageFields(c: Chain, shuffle: ShuffleDependencySpec)
    ensures var stage := MapStage(c, shuffle);
            && stage.numPartitions == c.width && stage.operations == Ops(c) && stage.shuffleWrite == Some(WriteOf(shuffle))
            && stage.kind == StageShuffleMap && stage.finalAction.None? && stage.parentIDs == Parents(c)
  {
    hide Ops, Parents, Upstream;
  }

  lemma WritesStored(w: World, c: Chain, runID: string, m: nat)
    requires WellFormed(c) && Storable(w, c, runID) && ReadsFrom(c).Some? && ReadsFrom(c).value.ShuffledRDD?
    requires var s := ReadsFrom(c).value;
             WellFormed(s.parent) && AllWrites(w, s.parent, WriteOf(s.shuffle), s.parent.width).Ok? && m < s.parent.width
    ensures var s := ReadsFrom(c).value; Encodable(w.codec, AllWrites(w, s.parent, WriteOf(s.shuffle), s.parent.width).value[m])
    ensures LawfulCodec(w.codec, w.restore) && LowerHex(runID, 32)
  {
    hide AllWrites, Encodable, LawfulCodec, LowerHex;
  }

  // ---------------------------------------------------------------- the job follows the plan

  /** The stages of the running job. */
  lemma StagesNow(w: World, s: System, sub: Submission)
    requires Healthy(w, s) && Submitted(s, sub) && 0 in s.dag.jobs
    ensures Founded(sub.nodes, sub.action.targetRDD) && sub.action.kind != ActionUnsupported
    ensures WellFormed(Target(sub)) && Dag.Executable(PlanOf(Target(sub), sub.action)) && s.dag.jobs[0].action == sub.action
    ensures var job, stages := s.dag.jobs[0], PlanOf(Target(sub), sub.action).stages;
            || (DagInvariant.NarrowJob(job) && stages == [job.stages[0].stage])
            || (DagInvariant.ShuffleJob(job) && stages == [job.stages[0].stage, job.stages[1].stage])
  {
    hide *;
    SystemPlan(w, s, sub);
    JobPlan(s, 0);
    TargetIs(sub);
    JobStages(s, 0, Target(sub));
  }

  lemma SystemPlan(w: World, s: System, sub: Submission)
    requires Healthy(w, s) && Submitted(s, sub)
    ensures JobsFit(s.dag, s.submissions) && DagInvariant.Inv(s.dag) && 0 in s.submissions && s.submissions[0] == sub
  {
    hide JobsFit, DagInvariant.Inv, OfOneRun, FifoInvariant.Inv;
  }

  lemma TargetIs(sub: Submission)
    requires Founded(sub.nodes, sub.action.targetRDD)
    ensures Target(sub) == ChainOf(sub.nodes, sub.action.targetRDD)
  {
  }

  lemma NarrowKeys(job: Dag.JobState)
    requires DagInvariant.NarrowJob(job)
    ensures job.stages.Keys == {0} && job.resultStageID == 0 && job.stages[0].stage.parentIDs == []
    ensures job.stages[0].stage.kind == StageResult && job.stages[0].stage.finalAction == Some(job.action)
  {
  }

  lemma ShuffleKeys(job: Dag.JobState)
    requires DagInvariant.ShuffleJob(job)
    ensures job.stages.Keys == {0, 1} && job.resultStageID == 1 && job.stages[0].stage.parentIDs == [] && job.stages[1].stage.parentIDs == [0]
    ensures job.stages[0].stage.kind == StageShuffleMap && job.stages[0].stage.shuffleWrite.Some? && job.stages[0].stage.finalAction.None?
    ensures job.stages[0].stage.shuffleWrite.value.partitioner.numPartitions > 0
    ensures job.stages[1].stage.kind == StageResult && job.stages[1].stage.finalAction == Some(job.action)
    ensures job.stages[0].status == Dag.StageRunning ==> job.stages[1].status == Dag.StagePending && job.stages[1].attempts == job.stages[0].attempts - 1
    ensures job.stages[1].status == Dag.StageRunning ==> job.stages[0].status == Dag.StageSucceeded
  {
  }

  // ---------------------------------------------------------------- map tasks

  /** A map task that has been handed out can publish what it writes. */
  lemma MapTaskPublishes(w: World, s: System, sub: Submission, n: nat, m: nat, id: TaskAttemptID) returns (pairs: seq<KV>)
    requires Running(w, s, sub, 0, n, m, id) && Doable(w, sub, s.fifo.runID) && 0 in s.dag.jobs && DagInvariant.ShuffleJob(s.dag.jobs[0])
    requires 0 in s.dag.jobs[0].stages && m < |s.dag.jobs[0].stages[0].tasks|
    requires forall x :: x in s.published ==> x.taskAttemptID != id
    ensures Publishable(w, s, id, pairs) && Encodable(w.codec, pairs) && MapTask(Given(s, 0, m, id).task)
    ensures LawfulCodec(w.codec, w.restore) && LowerHex(s.fifo.runID, 32)
  {
    hide *;
    RunningParts(w, s, sub, 0, n, m, id);
    HealthyParts(w, s);
    StagesNow(w, s, sub);
    DoableParts(w, sub, s.fifo.runID);
    var job := s.dag.jobs[0];
    ShuffleKeys(job);
    if DagInvariant.NarrowJob(job) { NarrowKeys(job); }
    var c, stage := Target(sub), job.stages[0].stage;
    StageFactsNow(s.dag, 0, n, m);
    TaskAt(job.stages[0], m);
    MapTaskWrites(w, c, sub.action, s.fifo.runID, m);
    var out, writes :| Build(w, m, stage.numPartitions, stage.operations, None, None) == Ok(out)
                       && WritesOf(w, stage.shuffleWrite.value, out) == Ok(writes) && Encodable(w.codec, writes);
    pairs := writes;
    GivenFields(s, 0, m, id);
    StageAtParts(s.dag, 0, n, m);
    MapInputs(s.dag, n, m);
    RunningIsAwaited(w, s, sub, 0, n, m, id);
    AssignedIn(w, s, Given(s, 0, m, id));
    IsMapTask(stage, job.stages[0].tasks[m], m);
    IsPublishable(w, s, Given(s, 0, m, id), out, pairs);
    StorableParts(w, c, s.fifo.runID, sub.action);
  }

  lemma DoableParts(w: World, sub: Submission, runID: string)
    requires Doable(w, sub, runID)
    ensures Founded(sub.nodes, sub.action.targetRDD) && Computable(w, Target(sub)) && WellFormed(Target(sub)) && Storable(w, Target(sub), runID)
    ensures ReaderFits(Target(sub), Target(sub).width) && Succeeds(w, Target(sub), Target(sub).width)
  {
    hide Storable, WellFormed, ReaderFits, Succeeds, Target;
  }

  lemma StorableParts(w: World, c: Chain, runID: string, action: ActionSpec)
    requires WellFormed(c) && Storable(w, c, runID) && |PlanOf(c, action).stages| == 2
    ensures LawfulCodec(w.codec, w.restore) && LowerHex(runID, 32)
  {
    TwoStages(c, action);
    hide AllWrites, Encodable, LawfulCodec, LowerHex, WellFormed;
  }

  lemma MapInputs(d: Dag.State, n: nat, m: nat)
    requires StageAt(d, 0, n, m) && 0 in d.jobs && 0 in d.jobs[0].stages && d.jobs[0].stages[0].stage.parentIDs == []
    requires var st := d.jobs[0].stages[0];
             st.attemptID < |d.launched| && d.launched[st.attemptID] == TaskSet(DagInvariant.InputsOf(0, d.jobs[0], st.stage), 0, 0, st.attemptID, st.tasks)
    ensures InputsOf(d, 0) == None
  {
  }

  lemma IsMapTask(stage: Stage, t: Task, m: nat)
    requires t == TaskOf(stage, t.id, m) && m < stage.numPartitions && stage.kind == StageShuffleMap && stage.shuffleWrite.Some?
    requires stage.finalAction.None? && stage.shuffleWrite.value.partitioner.numPartitions > 0
    ensures MapTask(t) && t.shuffleWrite == stage.shuffleWrite && t.operations == stage.operations && t.numPartitions == stage.numPartitions
    ensures t.partitionID == m
  {
  }

  lemma IsPublishable(w: World, s: System, a: Fifo.TaskAssignment, out: Stream, pairs: seq<KV>)
    requires a.identity.id in s.fifo.attempts && s.fifo.attempts[a.identity.id].assignment == a && a.inputs.None?
    requires MapTask(a.task) && Encodable(w.codec, pairs)
    requires Build(w, a.task.partitionID, a.task.numPartitions, a.task.operations, None, None) == Ok(out)
    requires WritesOf(w, a.task.shuffleWrite.value, out) == Ok(pairs)
    requires forall x :: x in s.published ==> x.taskAttemptID != a.identity.id
    ensures Publishable(w, s, a.identity.id, pairs)
  {
    hide Build, WritesOf, Encodable;
    assert ReadsInputs(w, s.published, a.task.partitionID, None, None);
    assert Runs(w, s.published, a.task, a.inputs, out);
    hide Runs, ReadsInputs;
  }

  /** Once it has published it still runs. */
  lemma PublishesAndRuns(w: World, s: System, sub: Submission, k: StageID, n: nat, m: nat, id: TaskAttemptID, pairs: seq<KV>)
    requires Running(w, s, sub, k, n, m, id) && 0 in s.dag.jobs && k in s.dag.jobs[0].stages && m < |s.dag.jobs[0].stages[k].tasks|
    requires Publishable(w, s, id, pairs) && MapTask(Given(s, k, m, id).task)
    ensures var s1 := Publishing(s, Given(s, k, m, id), pairs); Leads(w, s, s1) && Running(w, s1, sub, k, n, m, id)
  {
    hide *;
    RunningParts(w, s, sub, k, n, m, id);
    HealthyParts(w, s);
    RunningIsAwaited(w, s, sub, k, n, m, id);
    MapTaskWritesShuffle(Given(s, k, m, id).task);
    PublishingIsStep(w, s, Given(s, k, m, id), pairs);
    StepIsPublishing(w, s, Given(s, k, m, id), pairs);
    LeadsStep(w, s, PublishEvent(id, pairs));
    StillRunning(w, s, Given(s, k, m, id), pairs, sub, k, n, m, id);
  }

  lemma MapTaskWritesShuffle(t: Task)
    requires MapTask(t)
    ensures t.shuffleWrite.Some?
  {
  }

  lemma StepIsPublishing(w: World, s: System, a: Fifo.TaskAssignment, pairs: seq<KV>)
    requires Ready(s) && a.task.shuffleWrite.Some? && PublishesStep(w, s, a, pairs, Publishing(s, a, pairs))
    ensures Enabled(w, s, PublishEvent(a.identity.id, pairs))
    ensures Step(w, s, PublishEvent(a.identity.id, pairs)) == Publishing(s, a, pairs)
  {
    hide Ready, Enabled, Step, Publishing;
  }

  lemma StillRunning(w: World, s: System, a: Fifo.TaskAssignment, pairs: seq<KV>, sub: Submission, k: StageID, n: nat, m: nat, id: TaskAttemptID)
    requires Running(w, s, sub, k, n, m, id) && a.task.shuffleWrite.Some? && Healthy(w, Publishing(s, a, pairs))
    ensures Running(w, Publishing(s, a, pairs), sub, k, n, m, id)
  {
    hide Healthy, Underway, StageAt, SetsBelow, IdentityOf;
  }

  // ---------------------------------------------------------------- result tasks

  /** A result task, whatever its stage reads, yields its partition of the lineage. */
  lemma ResultTaskYields(w: World, s: System, sub: Submission, k: StageID, n: nat, m: nat)
    requires Healthy(w, s) && Submitted(s, sub) && StageAt(s.dag, k, n, m) && Doable(w, sub, s.fifo.runID)
    requires 0 in s.dag.jobs && k in s.dag.jobs[0].stages && k == s.dag.jobs[0].resultStageID && m < |s.dag.jobs[0].stages[k].tasks|
    ensures var t := s.dag.jobs[0].stages[k].tasks[m];
            t.kind == StageResult && t.finalAction == Some(sub.action) && sub.action.kind != ActionUnsupported
            && exists items :: Yields(w, s.published, t, InputsOf(s.dag, k), ActionOutput(sub.action, items))
  {
    hide *;
    HealthyParts(w, s);
    StagesNow(w, s, sub);
    DoableParts(w, sub, s.fifo.runID);
    StageFactsNow(s.dag, k, n, m);
    TaskAt(s.dag.jobs[0].stages[k], m);
    ResultFields(s.dag.jobs[0].stages[k].stage, s.dag.jobs[0].stages[k].tasks[m], m);
    if DagInvariant.NarrowJob(s.dag.jobs[0]) {
      NarrowKeys(s.dag.jobs[0]);
      NarrowTaskYields(w, s, sub, n, m);
    } else {
      ShuffleKeys(s.dag.jobs[0]);
      ShuffleTaskYields(w, s, sub, n, m);
    }
  }

  lemma ResultFields(stage: Stage, t: Task, m: nat)
    requires t == TaskOf(stage, t.id, m)
    ensures t.kind == stage.kind && t.finalAction == stage.finalAction && t.partitionID == m
    ensures t.operations == stage.operations && t.numPartitions == stage.numPartitions
  {
  }

  lemma IsYielded(w: World, published: Published, t: Task, inputs: Option<InputSnapshot>, action: ActionSpec, buckets: Option<seq<Stream>>,
                  items: seq<Record>)
    requires t.kind == StageResult && t.finalAction == Some(action) && ReadsInputs(w, published, t.partitionID, inputs, buckets)
    requires Build(w, t.partitionID, t.numPartitions, t.operations, buckets, None) == Ok(Stream(items, None))
    ensures Yields(w, published, t, inputs, ActionOutput(action, items))
  {
    hide ReadsInputs, Build, ActionOutput;
    assert Runs(w, published, t, inputs, Stream(items, None));
  }

  lemma NarrowTaskYields(w: World, s: System, sub: Submission, n: nat, m: nat)
    requires Healthy(w, s) && Submitted(s, sub) && StageAt(s.dag, 0, n, m) && Doable(w, sub, s.fifo.runID)
    requires 0 in s.dag.jobs && DagInvariant.NarrowJob(s.dag.jobs[0]) && 0 in s.dag.jobs[0].stages && m < |s.dag.jobs[0].stages[0].tasks|
    ensures var t := s.dag.jobs[0].stages[0].tasks[m];
            t.kind == StageResult && t.finalAction == Some(sub.action)
            && exists items :: Yields(w, s.published, t, InputsOf(s.dag, 0), ActionOutput(sub.action, items))
  {
    hide *;
    HealthyParts(w, s);
    StagesNow(w, s, sub);
    DoableParts(w, sub, s.fifo.runID);
    var job, c := s.dag.jobs[0], Target(sub);
    NarrowKeys(job);
    if DagInvariant.ShuffleJob(job) { ShuffleKeys(job); }
    var st := job.stages[0];
    StageFactsNow(s.dag, 0, n, m);
    TaskAt(st, m);
    ResultFields(st.stage, st.tasks[m], m);
    OnlyStage(w, c, sub.action, st.stage, m);
    SucceedsAt(w, c, c.width);
    StageAtParts(s.dag, 0, n, m);
    MapInputs(s.dag, n, m);
    ReadsNothing(w, s.published, m);
    var items := Partition(w, c, c.width, m).value.items;
    StreamIs(Partition(w, c, c.width, m).value);
    IsYielded(w, s.published, st.tasks[m], None, sub.action, None, items);
  }

  lemma StreamIs(s: Stream)
    requires s.end.None?
    ensures s == Stream(s.items, None)
  {
  }

  lemma ReadsNothing(w: World, published: Published, p: int)
    ensures ReadsInputs(w, published, p, None, None)
  {
  }

  lemma ShuffleTaskYields(w: World, s: System, sub: Submission, n: nat, m: nat)
    requires Healthy(w, s) && Submitted(s, sub) && StageAt(s.dag, 1, n, m) && Doable(w, sub, s.fifo.runID)
    requires 0 in s.dag.jobs && DagInvariant.ShuffleJob(s.dag.jobs[0]) && 1 in s.dag.jobs[0].stages && m < |s.dag.jobs[0].stages[1].tasks|
    ensures var t := s.dag.jobs[0].stages[1].tasks[m];
            t.kind == StageResult && t.finalAction == Some(sub.action)
            && exists items :: Yields(w, s.published, t, InputsOf(s.dag, 1), ActionOutput(sub.action, items))
  {
    hide *;
    HealthyParts(w, s);
    StagesNow(w, s, sub);
    DoableParts(w, sub, s.fifo.runID);
    var job, c := s.dag.jobs[0], Target(sub);
    ShuffleKeys(job);
    if DagInvariant.NarrowJob(job) { NarrowKeys(job); }
    var parent, st := job.stages[0], job.stages[1];
    var stages := PlanOf(c, sub.action).stages;
    StageFactsNow(s.dag, 1, n, m);
    RunningStage(s.dag, 1, n, m);
    TaskAt(st, m);
    ResultFields(st.stage, st.tasks[m], m);
    MapStageFacts(w, s, 0);
    PlanKeepsMeaning(w, c, sub.action, m);
    PlanUpstream(c, sub.action);
    MapStageHolds(w, s.dag.launched, s.published, s.inbox, 0, job.runID, s.dag.maxStageAttempts, parent, stages);
    StageAtParts(s.dag, 1, n, m);
    ChildInputs(s.dag, n, m);
    WritesAreRead(w, s.published, parent, st.stage, job.runID, m);
    FactsHaveStage(w, s.dag.launched, s.published, s.inbox, 0, job.runID, 0, s.dag.maxStageAttempts, parent, None);
    TaskAt(parent, 0);
    var writes := WritesFrom(s.published, parent, |parent.tasks|);
    ChildStream(w, stages, m, writes);
    SucceedsAt(w, c, c.width);
    TwoStages(c, sub.action);
    ResultStageFields(c, sub.action);
    StreamIs(Partition(w, c, c.width, m).value);
    IsYielded(w, s.published, st.tasks[m], InputsOf(s.dag, 1), sub.action,
              Some(BucketStreams(w, st.stage.numPartitions, m, writes)), Partition(w, c, c.width, m).value.items);
  }

  lemma RunningStage(d: Dag.State, k: StageID, n: nat, m: nat)
    requires StageAt(d, k, n, m)
    ensures 0 in d.jobs && k in d.jobs[0].stages && d.jobs[0].stages[k].status == Dag.StageRunning
  {
  }

  lemma PlanUpstream(c: Chain, action: ActionSpec)
    ensures |PlanOf(c, action).stages| == |Upstream(c)| + 1
  {
    hide Upstream, ResultStage;
  }

  lemma ResultStageFields(c: Chain, action: ActionSpec)
    ensures ResultStage(c, action).numPartitions == c.width
  {
    hide Ops, Parents, Upstream;
  }

  lemma ChildInputs(d: Dag.State, n: nat, m: nat)
    requires StageAt(d, 1, n, m) && 0 in d.jobs && 0 in d.jobs[0].stages && 1 in d.jobs[0].stages && d.jobs[0].stages[1].stage.parentIDs == [0]
    requires var st := d.jobs[0].stages[1];
             st.attemptID < |d.launched| && d.launched[st.attemptID] == TaskSet(DagInvariant.InputsOf(0, d.jobs[0], st.stage), 0, 1, st.attemptID, st.tasks)
    ensures InputsOf(d, 1) == Some(Dag.Snapshot(d.jobs[0].runID, 0, d.jobs[0].stages[0], d.jobs[0].stages[1].stage))
  {
    hide Dag.Snapshot;
  }

  /** The undamaged buckets of what the map stage published are what its readers may read. */
  lemma WritesAreRead(w: World, published: Published, parent: Dag.StageState, child: Stage, runID: string, p: nat)
    requires ValidSnapshot(Dag.Snapshot(runID, 0, parent, child)) && child.numPartitions > 0
    requires forall m :: 0 <= m < |parent.tasks| ==> AttemptOfPart(parent, m) in published
    ensures ReadsInputs(w, published, p, Some(Dag.Snapshot(runID, 0, parent, child)),
                        Some(BucketStreams(w, child.numPartitions, p, WritesFrom(published, parent, |parent.tasks|))))
  {
    var snapshot := Dag.Snapshot(runID, 0, parent, child);
    var buckets := BucketStreams(w, child.numPartitions, p, WritesFrom(published, parent, |parent.tasks|));
    forall i | 0 <= i < |snapshot.outputs| ensures ReadsBucket(w, published, snapshot.outputs[i], p, buckets[i]) {
      assert FitsSnapshot(snapshot, snapshot.outputs[i], i);
    }
  }

  lemma ChildStream(w: World, stages: seq<Stage>, p: nat, writes: seq<seq<KV>>)
    requires ParentsFirst(stages) && |stages| == 2 && stages[1].parentIDs == [0] && stages[0].shuffleWrite.Some?
    requires StageWrites(w, stages, 0, stages[0].numPartitions) == Ok(writes)
    ensures stages[1].numPartitions > 0
    ensures StageStream(w, stages, 1, p)
            == Build(w, p, stages[1].numPartitions, stages[1].operations, Some(BucketStreams(w, stages[1].numPartitions, p, writes)), None)
  {
    hide Build, BucketStreams, StageWrites;
  }

  // ---------------------------------------------------------------- one map task, one result task

  /** One map task after another, and after the last one the result stage. */
  ghost predicate AfterMap(w: World, s: System, sub: Submission, n: nat, m: nat) {
    if m + 1 < n then OnCourse(w, s, sub, 0, n, m + 1) else exists n1: nat :: OnCourse(w, s, sub, 1, n1, 0)
  }

  lemma MapRound(w: World, s: System, sub: Submission, n: nat, m: nat) returns (s3: System)
    requires OnCourse(w, s, sub, 0, n, m) && Doable(w, sub, s.fifo.runID) && |PlanOf(Target(sub), sub.action).stages| == 2
    ensures Leads(w, s, s3) && AfterMap(w, s3, sub, n, m)
  {
    hide *;
    var id := s.fifo.nextAttempt;
    HandsOutTask(w, s, sub, 0, n, m);
    var s1 := Step(w, s, OFFER);
    LeadsKeepsID(w, s, s1);
    RunningParts(w, s1, sub, 0, n, m, id);
    DoableParts(w, sub, s.fifo.runID);
    HealthyParts(w, s1);
    IsShuffle(w, s1, sub);
    var pairs := MapTaskPublishes(w, s1, sub, n, m, id);
    PublishesAndRuns(w, s1, sub, 0, n, m, id, pairs);
    var a := Given(s1, 0, m, id);
    MapTaskWritesShuffle(a.task);
    var s2 := Publishing(s1, a, pairs);
    SameGiven(s1, a, pairs, 0, m, id);
    var output := Reported(w, a, pairs);
    GivenFields(s1, 0, m, id);
    RunningIsAwaited(w, s1, sub, 0, n, m, id);
    MapIsHonest(w, s1, a, pairs);
    MapIsAcceptable(w, a, pairs);
    s3 := TaskIsHandled(w, s2, sub, 0, n, m, id, output);
    LeadsJoin(w, s, s1, s2);
    HandledParts(w, s2, s3, sub, 0, n, m, output);
    LeadsJoin(w, s, s2, s3);
    RunningParts(w, s2, sub, 0, n, m, id);
    HealthyParts(w, s2);
    if m + 1 < n {
      NextTask(w, s2, s3, sub, 0, n, m, output);
      MoreMaps(w, s3, sub, n, m);
    } else {
      LastMap(w, s2, s3, sub, n, m, output);
      var n1 := |s2.dag.jobs[0].stages[1].tasks|;
      LaunchesStage(w, s3, sub, 1, n1);
      var s4 := Step(w, s3, LaunchEvent(AttemptOf(s3.dag, 1), false));
      LeadsJoin(w, s, s3, s4);
      NoMoreMaps(w, s4, sub, n, m, n1);
      s3 := s4;
    }
  }

  lemma MoreMaps(w: World, s: System, sub: Submission, n: nat, m: nat)
    requires m + 1 < n && OnCourse(w, s, sub, 0, n, m + 1)
    ensures AfterMap(w, s, sub, n, m)
  {
    hide OnCourse;
  }

  lemma NoMoreMaps(w: World, s: System, sub: Submission, n: nat, m: nat, n1: nat)
    requires m + 1 >= n && OnCourse(w, s, sub, 1, n1, 0)
    ensures AfterMap(w, s, sub, n, m)
  {
    hide OnCourse;
  }

  lemma SameGiven(s: System, a: Fifo.TaskAssignment, pairs: seq<KV>, k: StageID, m: nat, id: TaskAttemptID)
    requires a.task.shuffleWrite.Some? && 0 in s.dag.jobs && k in s.dag.jobs[0].stages && m < |s.dag.jobs[0].stages[k].tasks|
    ensures var s1 := Publishing(s, a, pairs);
            && 0 in s1.dag.jobs && k in s1.dag.jobs[0].stages && m < |s1.dag.jobs[0].stages[k].tasks|
            && Given(s1, k, m, id) == Given(s, k, m, id) && s1.dag == s.dag && s1.fifo == s.fifo
  {
    hide TheAssignment, InputsOf, AttemptOf, IdentityOf;
  }

  lemma IsShuffle(w: World, s: System, sub: Submission)
    requires Healthy(w, s) && Submitted(s, sub) && 0 in s.dag.jobs
    requires Founded(sub.nodes, sub.action.targetRDD) && |PlanOf(Target(sub), sub.action).stages| == 2
    ensures DagInvariant.ShuffleJob(s.dag.jobs[0])
  {
    hide *;
    StagesNow(w, s, sub);
  }

  lemma LastMap(w: World, s: System, s1: System, sub: Submission, n: nat, m: nat, output: TaskOutput)
    requires 0 in s.dag.jobs && 0 in s.dag.jobs[0].stages && Handled(w, s, s1, sub, 0, n, m, output)
    requires Healthy(w, s) && Submitted(s, sub) && StageAt(s.dag, 0, n, m) && m + 1 >= n
    requires Doable(w, sub, s.fifo.runID) && |PlanOf(Target(sub), sub.action).stages| == 2
    ensures 1 in s.dag.jobs[0].stages && Healthy(w, s1) && Submitted(s1, sub) && Idle(s1.fifo)
    ensures StageAt(s1.dag, 1, |s.dag.jobs[0].stages[1].tasks|, 0) && 0 in s1.dag.jobs && 1 in s1.dag.jobs[0].stages
    ensures SetsBelow(s1.fifo, AttemptOf(s1.dag, 1))
  {
    hide *;
    HandledParts(w, s, s1, sub, 0, n, m, output);
    HealthyParts(w, s);
    HealthyParts(w, s1);
    StagesNow(w, s, sub);
    DoableParts(w, sub, s.fifo.runID);
    IsShuffle(w, s, sub);
    ShuffleKeys(s.dag.jobs[0]);
    assert 1 in s.dag.jobs[0].stages.Keys;
    StageFactsNow(s.dag, 0, n, m);
    StageAtParts(s.dag, 0, n, m);
    StageBelow(s.dag, 0, n, m);
    DagRecovery.WidthsAgreeExactly(Target(sub), sub.action);
    WaitingChild(s.dag);
    LogLength(s1.dag);
    ChildStarts(s.dag, s1.dag, n, m, output);
  }

  lemma StageBelow(d: Dag.State, k: StageID, n: nat, m: nat)
    requires StageAt(d, k, n, m)
    ensures m < n && d.jobs[0].stages[k].status == Dag.StageRunning
  {
  }

  lemma LogLength(d: Dag.State)
    requires DagInvariant.Inv(d)
    ensures |d.launched| == d.nextStageAttemptID
  {
  }

  lemma WaitingChild(d: Dag.State)
    requires DagInvariant.Inv(d) && 0 in d.jobs && DagInvariant.ShuffleJob(d.jobs[0])
    requires 0 in d.jobs[0].stages && 1 in d.jobs[0].stages && d.jobs[0].stages[0].status == Dag.StageRunning
    ensures d.jobs[0].stages[1].outputs == map[] && |d.jobs[0].stages[1].tasks| > 0
  {
    var job := d.jobs[0];
    ShuffleKeys(job);
    hide DagInvariant.ShuffleJob;
    assert DagInvariant.JobOK(d.launched, d.retired, d.maxStageAttempts, 0, job);
    hide DagInvariant.Inv, DagInvariant.NarrowJob;
    assert DagInvariant.StageOK(0, job.runID, 1, d.maxStageAttempts, job.stages[1]);
    hide DagInvariant.OutputsOK, DagInvariant.Stages, DagInvariant.JobOK;
  }

  /** One result task after another, and after the last one the answer. */
  ghost predicate AfterResult(w: World, s: System, sub: Submission, k: StageID, n: nat, m: nat) {
    if m + 1 < n then OnCourse(w, s, sub, k, n, m + 1) else Healthy(w, s) && Submitted(s, sub) && DagRuns.GotSuccess(s.dag, 0)
  }

  lemma ResultRound(w: World, s: System, sub: Submission, k: StageID, n: nat, m: nat) returns (s3: System)
    requires OnCourse(w, s, sub, k, n, m) && Doable(w, sub, s.fifo.runID) && k == |PlanOf(Target(sub), sub.action).stages| - 1
    ensures Leads(w, s, s3) && AfterResult(w, s3, sub, k, n, m)
  {
    hide *;
    var id := s.fifo.nextAttempt;
    HandsOutTask(w, s, sub, k, n, m);
    var s1 := Step(w, s, OFFER);
    LeadsKeepsID(w, s, s1);
    RunningParts(w, s1, sub, k, n, m, id);
    DoableParts(w, sub, s.fifo.runID);
    IsResult(w, s1, sub, k);
    ResultTaskYields(w, s1, sub, k, n, m);
    var a := Given(s1, k, m, id);
    GivenFields(s1, k, m, id);
    var items :| Yields(w, s1.published, s1.dag.jobs[0].stages[k].tasks[m], InputsOf(s1.dag, k), ActionOutput(sub.action, items));
    var output := ActionOutput(sub.action, items);
    RunningIsAwaited(w, s1, sub, k, n, m, id);
    AssignedIn(w, s1, a);
    YieldsIsHonest(w, s1, a, output);
    ResultIsAcceptable(a, items);
    s3 := TaskIsHandled(w, s1, sub, k, n, m, id, output);
    HandledParts(w, s1, s3, sub, k, n, m, output);
    LeadsJoin(w, s, s1, s3);
    HealthyParts(w, s1);
    if m + 1 < n {
      NextTask(w, s1, s3, sub, k, n, m, output);
    } else {
      StageFactsNow(s1.dag, k, n, m);
      StageBelow(s1.dag, k, n, m);
      LastAnswers(s1.dag, s3.dag, k, n, m, output);
    }
    ResultsAfter(w, s3, sub, k, n, m);
  }

  lemma ResultsAfter(w: World, s: System, sub: Submission, k: StageID, n: nat, m: nat)
    requires if m + 1 < n then OnCourse(w, s, sub, k, n, m + 1) else Healthy(w, s) && Submitted(s, sub) && DagRuns.GotSuccess(s.dag, 0)
    ensures AfterResult(w, s, sub, k, n, m)
  {
    hide OnCourse, Healthy, Submitted, DagRuns.GotSuccess;
  }

  lemma IsResult(w: World, s: System, sub: Submission, k: StageID)
    requires Healthy(w, s) && Submitted(s, sub) && 0 in s.dag.jobs && k in s.dag.jobs[0].stages
    requires Founded(sub.nodes, sub.action.targetRDD) && k == |PlanOf(Target(sub), sub.action).stages| - 1
    ensures k == s.dag.jobs[0].resultStageID
  {
    hide *;
    StagesNow(w, s, sub);
    if DagInvariant.NarrowJob(s.dag.jobs[0]) { NarrowKeys(s.dag.jobs[0]); }
    if DagInvariant.ShuffleJob(s.dag.jobs[0]) { ShuffleKeys(s.dag.jobs[0]); }
  }

  // ---------------------------------------------------------------- whole stages, the whole job

  lemma {:induction false} MapStageRuns(w: World, s: System, sub: Submission, n: nat, m: nat) returns (s1: System)
    requires OnCourse(w, s, sub, 0, n, m) && Doable(w, sub, s.fifo.runID) && |PlanOf(Target(sub), sub.action).stages| == 2
    ensures Leads(w, s, s1) && exists n1: nat :: OnCourse(w, s1, sub, 1, n1, 0)
    decreases n - m
  {
    hide OnCourse, Doable, Leads, PlanOf, Target;
    CourseParts(w, s, sub, 0, n, m);
    s1 := MapRound(w, s, sub, n, m);
    if m + 1 < n {
      LeadsKeepsID(w, s, s1);
      var s2 := MapStageRuns(w, s1, sub, n, m + 1);
      LeadsJoin(w, s, s1, s2);
      s1 := s2;
    }
  }

  lemma {:induction false} ResultStageRuns(w: World, s: System, sub: Submission, k: StageID, n: nat, m: nat) returns (s1: System)
    requires OnCourse(w, s, sub, k, n, m) && Doable(w, sub, s.fifo.runID) && k == |PlanOf(Target(sub), sub.action).stages| - 1
    ensures Leads(w, s, s1) && Healthy(w, s1) && Submitted(s1, sub) && DagRuns.GotSuccess(s1.dag, 0)
    decreases n - m
  {
    hide OnCourse, Doable, Leads, PlanOf, Target, Healthy, Submitted, DagRuns.GotSuccess;
    CourseParts(w, s, sub, k, n, m);
    s1 := ResultRound(w, s, sub, k, n, m);
    if m + 1 < n {
      LeadsKeepsID(w, s, s1);
      var s2 := ResultStageRuns(w, s1, sub, k, n, m + 1);
      LeadsJoin(w, s, s1, s2);
      s1 := s2;
    }
  }

  /** From a start, the worker registers, the job is submitted and its first stage launched. */
  lemma JobBegins(w: World, maxStage: nat, maxTask: nat, names: FunctionNames, runID: string, nodes: Nodes, action: ActionSpec)
    returns (s3: System, n: nat)
    requires maxStage > 0 && maxTask > 0 && Dag.ExecutionPlan(names, nodes, action).Some?
    ensures Leads(w, Start(w, maxStage, maxTask, names, runID), s3) && OnCourse(w, s3, Submission(nodes, action), 0, n, 0)
  {
    hide *;
    var s, sub := Start(w, maxStage, maxTask, names, runID), Submission(nodes, action);
    var e1, e2 := FifoEvent(Fifo.RegisterEvent(W, 1, 0)), DagEvent(Dag.JobSubmitted(0, nodes, action, false));
    StartIs(w, maxStage, maxTask, names, runID);
    Registers(maxTask, runID);
    RegisterIs(w, s, maxTask, runID);
    LeadsStep(w, s, e1);
    var s1 := Step(w, s, e1);
    HealthyParts(w, s1);
    NothingSubmitted(maxStage, names);
    DagOutcomes.SubmitExactly(s1.dag, 0, nodes, action, false);
    SubmitIs(w, s1, maxStage, names, nodes, action);
    LeadsStep(w, s1, e2);
    var s2 := Step(w, s1, e2);
    HealthyParts(w, s2);
    n := FirstStage(s1.dag, s2.dag, Dag.ExecutionPlan(names, nodes, action).value, action);
    NoSets(s2, sub);
    LaunchesStage(w, s2, sub, 0, n);
    s3 := Step(w, s2, LaunchEvent(AttemptOf(s2.dag, 0), false));
    LeadsJoin(w, s, s1, s2);
    LeadsJoin(w, s, s2, s3);
  }

  lemma StartIs(w: World, maxStage: nat, maxTask: nat, names: FunctionNames, runID: string)
    requires maxStage > 0 && maxTask > 0
    ensures Healthy(w, Start(w, maxStage, maxTask, names, runID))
    ensures Start(w, maxStage, maxTask, names, runID)
            == System(Dag.Initial(maxStage, names), Fifo.Initial(maxTask, runID), map[], iset{}, map[])
  {
    var s := Start(w, maxStage, maxTask, names, runID);
    hide Inv, Ready;
    assert OfOneRun(s);
  }

  lemma RegisterIs(w: World, s: System, maxTask: nat, runID: string)
    requires Healthy(w, s) && s.fifo == Fifo.Initial(maxTask, runID)
    ensures Ready(s) && Enabled(w, s, FifoEvent(Fifo.RegisterEvent(W, 1, 0)))
    ensures Step(w, s, FifoEvent(Fifo.RegisterEvent(W, 1, 0))) == s.(fifo := Fifo.Register(s.fifo, W, 1, 0).state)
  {
    hide Inv, OfOneRun, Fifo.Register;
  }

  lemma NothingSubmitted(maxStage: nat, names: FunctionNames)
    ensures var d := Dag.Initial(maxStage, names); d.jobs == map[] && d.responses == map[] && d.functions == names && !d.stopping
    ensures Dag.Initial(maxStage, names).launched == [] && Dag.Initial(maxStage, names).nextStageAttemptID == 0
  {
  }

  lemma SubmitIs(w: World, s: System, maxStage: nat, names: FunctionNames, nodes: Nodes, action: ActionSpec)
    requires Ready(s) && s.dag == Dag.Initial(maxStage, names) && s.submissions == map[]
    ensures var e := DagEvent(Dag.JobSubmitted(0, nodes, action, false));
            && Enabled(w, s, e)
            && Step(w, s, e) == s.(dag := Dag.SubmitJob(s.dag, 0, nodes, action, false), submissions := map[0 := Submission(nodes, action)])
  {
    hide Ready, Dag.SubmitJob;
    assert s.submissions[0 := Submission(nodes, action)] == map[0 := Submission(nodes, action)];
  }

  lemma FirstStage(d: Dag.State, d1: Dag.State, p: StagePlan, action: ActionSpec) returns (n: nat)
    requires DagInvariant.Inv(d1) && (forall i :: 0 <= i < |p.stages| ==> p.stages[i].numPartitions > 0)
    requires DagOutcomes.Entered(d, d1, 0, p, action) && d.launched == [] && d.nextStageAttemptID == 0
    ensures StageAt(d1, 0, n, 0) && 0 in d1.jobs && 0 in d1.jobs[0].stages && AttemptOf(d1, 0) == 0
  {
    n := |d1.jobs[0].stages[0].tasks|;
    FirstHasTasks(d1);
    hide DagInvariant.Inv, AllTasks, TasksOfStage;
  }

  lemma FirstHasTasks(d: Dag.State)
    requires DagInvariant.Inv(d) && 0 in d.jobs && 0 in d.jobs[0].stages
    ensures |d.jobs[0].stages[0].tasks| > 0
  {
    assert DagInvariant.JobOK(d.launched, d.retired, d.maxStageAttempts, 0, d.jobs[0]);
    hide DagInvariant.Inv, DagInvariant.NarrowJob, DagInvariant.ShuffleJob;
    assert DagInvariant.StageOK(0, d.jobs[0].runID, 0, d.maxStageAttempts, d.jobs[0].stages[0]);
    hide DagInvariant.OutputsOK, DagInvariant.Stages, DagInvariant.JobOK;
  }

  lemma NoSets(s: System, sub: Submission)
    requires s.fifo.sets == map[] && s.submissions == map[0 := sub]
    ensures SetsBelow(s.fifo, 0) && Submitted(s, sub)
  {
  }

  /** From a start, the job runs to its answer. */
  lemma JobRuns(w: World, maxStage: nat, maxTask: nat, names: FunctionNames, runID: string, nodes: Nodes, action: ActionSpec)
    returns (s1: System)
    requires maxStage > 0 && maxTask > 0 && Dag.ExecutionPlan(names, nodes, action).Some? && Doable(w, Submission(nodes, action), runID)
    ensures Leads(w, Start(w, maxStage, maxTask, names, runID), s1) && Healthy(w, s1) && Submitted(s1, Submission(nodes, action))
    ensures DagRuns.GotSuccess(s1.dag, 0)
  {
    hide *;
    var s, sub := Start(w, maxStage, maxTask, names, runID), Submission(nodes, action);
    StartIs(w, maxStage, maxTask, names, runID);
    InitialRun(maxTask, runID);
    var n;
    s1, n := JobBegins(w, maxStage, maxTask, names, runID, nodes, action);
    LeadsKeepsID(w, s, s1);
    PlanSizes(names, sub);
    if |PlanOf(Target(sub), action).stages| == 2 {
      var s2 := MapStageRuns(w, s1, sub, n, 0);
      LeadsJoin(w, s, s1, s2);
      LeadsKeepsID(w, s, s2);
      var n1: nat :| OnCourse(w, s2, sub, 1, n1, 0);
      var s3 := ResultStageRuns(w, s2, sub, 1, n1, 0);
      LeadsJoin(w, s, s2, s3);
      s1 := s3;
    } else {
      var s2 := ResultStageRuns(w, s1, sub, 0, n, 0);
      LeadsJoin(w, s, s1, s2);
      s1 := s2;
    }
  }

  lemma InitialRun(maxTask: nat, runID: string)
    ensures Fifo.Initial(maxTask, runID).runID == runID
  {
  }

  lemma PlanSizes(names: FunctionNames, sub: Submission)
    requires Dag.ExecutionPlan(names, sub.nodes, sub.action).Some?
    ensures Founded(sub.nodes, sub.action.targetRDD) && 1 <= |PlanOf(Target(sub), sub.action).stages| <= 2
  {
    PlanFacts(names, sub);
    TargetIs(sub);
    hide Founded, ChainOf, PlanOf, WellFormed, Dag.ExecutionPlan, Target;
  }

  /** The run answers the submission, as job 0, once and with this result. */
  ghost predicate Answered(w: World, s: System, events: seq<Event>, sub: Submission, result: Dag.JobResult) {
    && Inv(w, s) && Ready(s) && Legal(w, s, events) && Submitted(Run(w, s, events), sub)
    && 0 in Run(w, s, events).dag.responses && Run(w, s, events).dag.responses[0] == [Dag.Completed(result)]
  }

  /** Every planned job whose lineage can be computed and stored is answered with success
      in some legal run, whatever its widths and with or without a shuffle. */
  lemma JobSucceeds(w: World, maxStage: nat, maxTask: nat, names: FunctionNames, runID: string, nodes: Nodes, action: ActionSpec)
    requires maxStage > 0 && maxTask > 0 && Dag.ExecutionPlan(names, nodes, action).Some? && Doable(w, Submission(nodes, action), runID)
    ensures exists events, result :: Answered(w, Start(w, maxStage, maxTask, names, runID), events, Submission(nodes, action), result)
  {
    hide *;
    var s, sub := Start(w, maxStage, maxTask, names, runID), Submission(nodes, action);
    var s1 := JobRuns(w, maxStage, maxTask, names, runID, nodes, action);
    StartIs(w, maxStage, maxTask, names, runID);
    HealthyParts(w, s);
    HealthyParts(w, s1);
    var events, result := EventsOf(w, s, s1), OnlyAnswer(s1.dag);
    SuccessIsComputed(w, maxStage, maxTask, names, runID, events, 0, result);
    IsAnswered(w, s, events, sub, result);
  }

  ghost function EventsOf(w: World, s: System, s1: System): (events: seq<Event>)
    requires Leads(w, s, s1)
    ensures Inv(w, s) && Ready(s) && Legal(w, s, events) && Run(w, s, events) == s1
  {
    var events :| Legal(w, s, events) && Run(w, s, events) == s1;
    events
  }

  ghost function OnlyAnswer(d: Dag.State): (result: Dag.JobResult)
    requires DagRuns.GotSuccess(d, 0)
    ensures 0 in d.responses && Dag.Completed(result) in d.responses[0]
  {
    assert d.responses[0][0] == Dag.Completed(d.responses[0][0].result);
    d.responses[0][0].result
  }

  lemma IsAnswered(w: World, s: System, events: seq<Event>, sub: Submission, result: Dag.JobResult)
    requires Inv(w, s) && Ready(s) && Legal(w, s, events) && Submitted(Run(w, s, events), sub)
    requires 0 in Run(w, s, events).dag.responses && Run(w, s, events).dag.responses[0] == [Dag.Completed(result)]
    ensures Answered(w, s, events, sub, result)
  {
    hide Inv, Ready, Legal, Run, Submitted;
  }

  lemma AnsweredParts(w: World, s: System, events: seq<Event>, sub: Submission, result: Dag.JobResult)
    requires Answered(w, s, events, sub, result)
    ensures Inv(w, s) && Ready(s) && Legal(w, s, events)
    ensures var r := Run(w, s, events);
            0 in r.submissions && r.submissions[0] == sub && 0 in r.dag.responses && Dag.Completed(result) in r.dag.responses[0]
  {
    hide Inv, Ready, Legal, Run;
  }

  /** What an answer shows of the lineage. */
  lemma RightIsComputable(w: World, sub: Submission, result: Dag.JobResult)
    requires Right(w, sub, result)
    ensures Founded(sub.nodes, sub.action.targetRDD) && Computable(w, Target(sub))
  {
    hide Founded, WellFormed, ReaderFits, ChainOf, Partition, Expected;
    var outs :| AllComputed(w, Target(sub), Target(sub).width, outs) && result == Expected(sub.action, Flatten(outs));
  }

  /** If storage takes what it would write, a planned job can be answered with success
      exactly when its target is as wide as its last shuffle and every partition of
      its lineage can be computed. */
  lemma SucceedsExactly(w: World, maxStage: nat, maxTask: nat, names: FunctionNames, runID: string, nodes: Nodes, action: ActionSpec)
    requires maxStage > 0 && maxTask > 0 && Dag.ExecutionPlan(names, nodes, action).Some? && Founded(nodes, action.targetRDD)
    requires WellFormed(ChainOf(nodes, action.targetRDD)) && Storable(w, ChainOf(nodes, action.targetRDD), runID)
    ensures (exists events, result ::
               Answered(w, Start(w, maxStage, maxTask, names, runID), events, Submission(nodes, action), result))
            <==> Computable(w, ChainOf(nodes, action.targetRDD))
  {
    hide *;
    var s, sub := Start(w, maxStage, maxTask, names, runID), Submission(nodes, action);
    TargetIs(sub);
    if events, result :| Answered(w, s, events, sub, result) {
      AnsweredParts(w, s, events, sub, result);
      SuccessIsComputed(w, maxStage, maxTask, names, runID, events, 0, result);
      RightIsComputable(w, sub, result);
    }
    if Computable(w, Target(sub)) {
      PlanFacts(names, sub);
      IsDoable(w, sub, runID);
      JobSucceeds(w, maxStage, maxTask, names, runID, nodes, action);
    }
  }

  lemma IsDoable(w: World, sub: Submission, runID: string)
    requires Founded(sub.nodes, sub.action.targetRDD) && sub.action.kind != ActionUnsupported
    requires Computable(w, Target(sub)) && WellFormed(Target(sub)) && Storable(w, Target(sub), runID)
    ensures Doable(w, sub, runID)
  {
    hide Founded, Computable, WellFormed, Storable, Target;
  }

  /** With functions and storage as the end-to-end theorem asks and reduce functions that
      never fail, every planned job whose lineage evaluates is answered in some run, and
      the answer agrees with that evaluation. */
  lemma EvaluatedJobSucceeds(w: World, sense: Sense, maxStage: nat, maxTask: nat, names: FunctionNames, runID: string, nodes: Nodes,
                             action: ActionSpec)
    requires maxStage > 0 && maxTask > 0 && Dag.ExecutionPlan(names, nodes, action).Some? && Founded(nodes, action.targetRDD)
    requires var c := ChainOf(nodes, action.targetRDD);
             && WellFormed(c) && ReaderFits(c, c.width) && Lawful(w, sense, c) && TotalReduces(w, c) && Storable(w, c, runID)
             && Evaluate(w, sense.total, c).Ok?
    ensures var c := ChainOf(nodes, action.targetRDD);
            exists events, result ::
              Answered(w, Start(w, maxStage, maxTask, names, runID), events, Submission(nodes, action), result)
              && Answers(sense.meaning, c, action, result, Evaluate(w, sense.total, c).value)
  {
    hide *;
    var s, sub, c := Start(w, maxStage, maxTask, names, runID), Submission(nodes, action), ChainOf(nodes, action.targetRDD);
    TargetIs(sub);
    WidthPositive(c);
    EvaluatedSucceeds(w, sense, c, c.width);
    IsComputable(w, c);
    PlanFacts(names, sub);
    IsDoable(w, sub, runID);
    JobSucceeds(w, maxStage, maxTask, names, runID, nodes, action);
    var events, result :| Answered(w, s, events, sub, result);
    AnsweredParts(w, s, events, sub, result);
    IsCovered(w, sense, sub);
    SuccessIsSequentialEvaluation(w, sense, maxStage, maxTask, names, runID, events, 0, result);
  }

  lemma IsComputable(w: World, c: Chain)
    requires WellFormed(c) && ReaderFits(c, c.width) && Succeeds(w, c, c.width)
    ensures Computable(w, c)
  {
    hide WellFormed, ReaderFits, Succeeds;
  }

  lemma IsCovered(w: World, sense: Sense, sub: Submission)
    requires Founded(sub.nodes, sub.action.targetRDD) && Lawful(w, sense, ChainOf(sub.nodes, sub.action.targetRDD))
    ensures Covered(w, sense, sub)
  {
    hide Founded, Lawful, ChainOf;
  }

  // ---------------------------------------------------------------- lineages without a shuffle

  lemma {:induction false} NothingReduced(w: World, c: Chain)
    requires Shuffles(c) == 0
    ensures TotalReduces(w, c) && ReadsFrom(c).None?
  {
    if !c.SourceRDD? { NothingReduced(w, c.parent); }
  }

  lemma NothingStored(w: World, c: Chain, runID: string)
    requires WellFormed(c) && ReadsFrom(c).None?
    ensures Storable(w, c, runID)
  {
  }

  /** Every planned lineage without a shuffle that evaluates is answered with exactly
      that evaluation in some run. */
  lemma NarrowJobSucceeds(w: World, total: string -> ((Record, Record) -> Record), maxStage: nat, maxTask: nat, names: FunctionNames,
                          runID: string, nodes: Nodes, action: ActionSpec)
    requires maxStage > 0 && maxTask > 0 && Dag.ExecutionPlan(names, nodes, action).Some? && Founded(nodes, action.targetRDD)
    requires var c := ChainOf(nodes, action.targetRDD); WellFormed(c) && Shuffles(c) == 0 && Evaluate(w, total, c).Ok?
    ensures var c := ChainOf(nodes, action.targetRDD);
            exists events :: Answered(w, Start(w, maxStage, maxTask, names, runID), events, Submission(nodes, action),
                                      Expected(action, Evaluate(w, total, c).value))
  {
    hide *;
    var c, sense := ChainOf(nodes, action.targetRDD), Sense(r => r, total);
    NothingReduced(w, c);
    NothingStored(w, c, runID);
    NothingAskedWithoutShuffle(w, sense, c);
    ReadsFromFacts(c, c.width);
    EvaluatedJobSucceeds(w, sense, maxStage, maxTask, names, runID, nodes, action);
    var events, result :| Answered(w, Start(w, maxStage, maxTask, names, runID), events, Submission(nodes, action), result)
                          && Answers(sense.meaning, c, action, result, Evaluate(w, total, c).value);
    ExactAnswer(sense.meaning, c, action, result, Evaluate(w, total, c).value);
  }

  // ---------------------------------------------------------------- a reduction, in full

  /** What the driver builds for: the file in `n` partitions, its lines mapped to pairs by
      `f`, and these reduced by `g` into `r` partitions. */
  function ReductionNodes(path: string, f: string, g: string, n: int, r: int): Nodes {
    map[0 := SourceNode(0, path, n), 1 := NarrowNode(1, SourceNode(0, path, n), 0, OpMapToPair, f),
        2 := ReduceNode(2, 1, g, 0, PartitionerSpec(true, r))]
  }

  function ReductionChain(path: string, f: string, g: string, n: int, r: int): Chain {
    var pairs := NarrowRDD(SourceRDD(0, OperatorSpec(OpSource, "", path), n), 1, OperatorSpec(OpMapToPair, f, ""), n);
    ShuffledRDD(pairs, 2, OperatorSpec(OpReduceByKey, g, ""), r, ShuffleDependencySpec(0, PartitionerSpec(true, r), g, true))
  }

  lemma ReductionIsChain(path: string, f: string, g: string, n: int, r: int)
    requires |path| > 0 && |f| > 0 && |g| > 0 && n > 0 && r > 0
    ensures var nodes := ReductionNodes(path, f, g, n, r);
            Founded(nodes, 2) && ChainOf(nodes, 2) == ReductionChain(path, f, g, n, r)
  {
    var nodes, c := ReductionNodes(path, f, g, n, r), ReductionChain(path, f, g, n, r);
    assert Grounded(nodes, 0, 1);
    assert ChainFrom(nodes, 0, 1) == c.parent.parent;
    assert Grounded(nodes, 1, 2);
    assert ChainFrom(nodes, 1, 2) == c.parent;
    assert Grounded(nodes, 2, 3);
    assert ChainFrom(nodes, 2, 3) == c;
    hide Grounded, ChainFrom, ReductionNodes, ReductionChain;
    var k: nat :| Grounded(nodes, 2, k) && ChainOf(nodes, 2) == ChainFrom(nodes, 2, k);
    ChainUnique(nodes, 2, k, 3);
  }

  lemma ReductionIsExecutable(path: string, f: string, g: string, n: int, r: int, action: ActionSpec)
    requires n > 0 && r > 0
    ensures var c := ReductionChain(path, f, g, n, r);
            && WellFormed(c) && ReaderFits(c, r) && Dag.Executable(PlanOf(c, action))
            && forall i :: 0 <= i < |PlanOf(c, action).stages| ==> PlanOf(c, action).stages[i].numPartitions > 0
  {
    var c := ReductionChain(path, f, g, n, r);
    var stages := PlanOf(c, action).stages;
    assert Upstream(c.parent.parent) == [] && Upstream(c.parent) == [];
    assert stages == [MapStage(c.parent, c.shuffle), ResultStage(c, action)];
    assert Parents(c.parent) == Parents(c.parent.parent) == [];
    assert ReaderFits(c.parent.parent, n) && ReaderFits(c.parent, n);
  }

  lemma ReductionIsRegistered(names: FunctionNames, path: string, f: string, g: string, n: int, r: int)
    requires f in names.pairMaps && g in names.reduces
    ensures AllRegistered(names, ReductionChain(path, f, g, n, r))
  {
    var c := ReductionChain(path, f, g, n, r);
    assert AllRegistered(names, c.parent.parent);
    assert AllRegistered(names, c.parent);
  }

  lemma ReductionIsPlanned(names: FunctionNames, path: string, f: string, g: string, n: int, r: int, kind: ActionKind)
    requires |path| > 0 && |f| > 0 && |g| > 0 && n > 0 && r > 0 && kind != ActionUnsupported
    requires f in names.pairMaps && g in names.reduces
    ensures Dag.ExecutionPlan(names, ReductionNodes(path, f, g, n, r), ActionSpec(kind, 2)).Some?
    ensures WellFormed(ReductionChain(path, f, g, n, r)) && ReaderFits(ReductionChain(path, f, g, n, r), r)
  {
    ReductionIsChain(path, f, g, n, r);
    ReductionIsExecutable(path, f, g, n, r, ActionSpec(kind, 2));
    ReductionIsRegistered(names, path, f, g, n, r);
    hide Dag.Executable, AllRegistered, ReductionNodes, ReductionChain, Founded, ChainOf, PlanOf, WellFormed, ReaderFits;
  }

  /** The job of a whole reduction over an existing file, with functions that never fail,
      is answered in some run: for every number of map and of reduce partitions. */
  lemma ReductionSucceeds(w: World, maxStage: nat, maxTask: nat, names: FunctionNames, runID: string, path: string, f: string, g: string,
                          n: int, r: int, kind: ActionKind)
    requires maxStage > 0 && maxTask > 0 && |path| > 0 && |f| > 0 && |g| > 0 && n > 0 && r > 0 && kind != ActionUnsupported
    requires f in names.pairMaps && g in names.reduces && path in w.files && NeverFails(w, g)
    requires f in w.functions.pairMaps && forall x :: w.functions.pairMaps[f](x).Ok?
    requires WellFormed(ReductionChain(path, f, g, n, r)) ==> Storable(w, ReductionChain(path, f, g, n, r), runID)
    ensures exists events, result ::
              Answered(w, Start(w, maxStage, maxTask, names, runID), events,
                       Submission(ReductionNodes(path, f, g, n, r), ActionSpec(kind, 2)), result)
  {
    hide *;
    ReductionIsChain(path, f, g, n, r);
    ReductionIsPlanned(names, path, f, g, n, r, kind);
    ReductionComputes(w, path, f, g, n, r);
    SucceedsExactly(w, maxStage, maxTask, names, runID, ReductionNodes(path, f, g, n, r), ActionSpec(kind, 2));
  }

  lemma ReductionComputes(w: World, path: string, f: string, g: string, n: int, r: int)
    requires n > 0 && r > 0 && path in w.files && NeverFails(w, g)
    requires f in w.functions.pairMaps && forall x :: w.functions.pairMaps[f](x).Ok?
    requires WellFormed(ReductionChain(path, f, g, n, r)) && ReaderFits(ReductionChain(path, f, g, n, r), r)
    ensures Computable(w, ReductionChain(path, f, g, n, r))
  {
    hide *;
    var c := ReductionChain(path, f, g, n, r);
    ReductionParts(path, f, g, n, r);
    forall m: nat | m < n ensures Partition(w, c.parent, n, m).Ok? && WritesOf(w, WriteOf(c.shuffle), Partition(w, c.parent, n, m).value).Ok? {
      PairsPartition(w, path, f, g, n, r, m);
      WriteCombines(c);
      WritesSucceed(w, WriteOf(c.shuffle), Partition(w, c.parent, n, m).value.items);
      StreamIs(Partition(w, c.parent, n, m).value);
    }
    AllWritesSucceed(w, c.parent, WriteOf(c.shuffle), n);
    forall p: nat | p < r ensures Partition(w, c, r, p).Ok? && Partition(w, c, r, p).value.end.None? { ShufflePartition(w, c, r, p); }
    SucceedsFrom(w, c, r);
    IsComputable(w, c);
  }

  lemma ReductionParts(path: string, f: string, g: string, n: int, r: int)
    requires n > 0 && r > 0
    ensures var c := ReductionChain(path, f, g, n, r);
            && c.ShuffledRDD? && c.width == r && WellFormed(c) && c.parent.NarrowRDD? && c.parent.width == n && WellFormed(c.parent)
            && c.operator.functionID == g && c.shuffle.aggregatorID == g
  {
  }

  lemma PairsPartition(w: World, path: string, f: string, g: string, n: int, r: int, m: nat)
    requires n > 0 && r > 0 && m < n && path in w.files
    requires f in w.functions.pairMaps && forall x :: w.functions.pairMaps[f](x).Ok?
    ensures var c := ReductionChain(path, f, g, n, r).parent;
            WellFormed(c) && Partition(w, c, n, m).Ok? && Partition(w, c, n, m).value.end.None? && AllKeyed(Partition(w, c, n, m).value.items)
  {
    var items := TextRecords(PartitionLines(w.files[path], m, n));
    var c := ReductionChain(path, f, g, n, r).parent;
    PairsThrough(w.functions.pairMaps[f], items);
    hide PartitionLines, TextRecords, Through, PairStep;
    assert WellFormed(c.parent) && WellFormed(c);
    assert Partition(w, c.parent, n, m) == Ok(Stream(items, None));
  }

  lemma {:induction false} PairsThrough(f: Record -> Result<KV>, items: seq<Record>)
    requires forall x :: f(x).Ok?
    ensures var s := Through(PairStep(f), Stream(items, None)); s.end.None? && AllKeyed(s.items)
  {
    if items != [] {
      assert f(items[0]).Ok?;
      PairsThrough(f, items[1..]);
    }
  }
}
