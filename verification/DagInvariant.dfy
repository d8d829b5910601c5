/** What holds between any two events of the DAG scheduler. */
module DagInvariant {
  import opened Types
  import opened Planner
  import opened Dag
  import opened FiniteSets

  // ---------------------------------------------------------------- one stage

  predicate TasksOK(st: StageState) {
    && |st.tasks| == st.stage.numPartitions > 0
    && forall p :: 0 <= p < |st.tasks| ==> st.tasks[p] == TaskOf(st.stage, st.tasks[0].id + p, p)
  }

  function AttemptIn(o: TaskOutput): TaskAttemptID {
    if o.shuffleOutput.Some? then o.shuffleOutput.value.attempt.taskAttemptID else 0
  }

  /** An accepted output fits its task and comes from the stage's current attempt. */
  predicate OutputOK(id: JobID, runID: string, stageAttempt: StageAttemptID, t: Task, o: TaskOutput) {
    AcceptableOutput(o, runID, id, t, TaskAttemptIdentity(AttemptIn(o), t.id, stageAttempt))
  }

  predicate OutputsOK(id: JobID, runID: string, st: StageState) {
    forall p :: p in st.outputs ==> 0 <= p < |st.tasks| && OutputOK(id, runID, st.attemptID, st.tasks[p], st.outputs[p])
  }

  predicate ProgressOK(st: StageState) {
    && st.remaining == |st.tasks| - |st.outputs|
    && match st.status
       case StagePending => st.outputs == map[]
       case StageRunning => st.remaining > 0
       case StageSucceeded => st.remaining == 0
  }

  /** The inputs a stage's current attempt must have been launched with. */
  function InputsOf(id: JobID, job: JobState, stage: Stage): Option<InputSnapshot> {
    if stage.parentIDs != [] && stage.parentIDs[0] in job.stages then
      Some(Snapshot(job.runID, id, job.stages[stage.parentIDs[0]], stage))
    else None
  }

  predicate Launched(launched: seq<TaskSet>, retired: set<StageAttemptID>, id: JobID, k: StageID, st: StageState,
                     inputs: Option<InputSnapshot>) {
    st.status != StagePending ==>
      && st.attemptID < |launched| && st.attemptID !in retired
      && launched[st.attemptID] == TaskSet(inputs, id, k, st.attemptID, st.tasks)
      && (inputs.Some? ==> ValidSnapshot(inputs.value))
  }

  /** Attempt numbers are positions in the launch log. */
  predicate LogOK(launched: seq<TaskSet>, retired: set<StageAttemptID>) {
    && (forall i :: 0 <= i < |launched| ==> launched[i].stageAttemptID == i)
    && (forall a :: a in retired ==> a < |launched|)
  }

  predicate StageOK(id: JobID, runID: string, k: StageID, max: nat, st: StageState) {
    && st.stage.id == k && TasksOK(st) && OutputsOK(id, runID, st) && ProgressOK(st) && st.attempts <= max
  }

  // ---------------------------------------------------------------- one job

  predicate ResultOK(job: JobState, stage: Stage) {
    stage.kind == StageResult && stage.shuffleWrite.None? && stage.finalAction == Some(job.action)
    && job.action.kind != ActionUnsupported
  }

  predicate NarrowShape(job: JobState) {
    && job.order == [0] && job.stages.Keys == {0} && job.resultStageID == 0
    && job.stages[0].stage.parentIDs == [] && ResultOK(job, job.stages[0].stage)
  }

  /** A job of one narrow stage: it runs. */
  predicate NarrowJob(job: JobState) {
    NarrowShape(job) && job.stages[0].status == StageRunning
  }

  predicate ShuffleShape(job: JobState) {
    && job.order == [0, 1] && job.stages.Keys == {0, 1} && job.resultStageID == 1
    && var parent, child := job.stages[0].stage, job.stages[1].stage;
       && parent.kind == StageShuffleMap && parent.parentIDs == [] && parent.shuffleWrite.Some? && parent.finalAction.None?
       && child.parentIDs == [0] && ResultOK(job, child)
       && parent.shuffleWrite.value.partitioner.numPartitions > 0
  }

  /** The barrier: the map stage runs while the result stage waits, or the result
      stage runs on what the map stage completed. Attempts go in step. */
  predicate Barrier(parent: StageState, child: StageState) {
    || (parent.status == StageRunning && child.status == StagePending && child.attempts == parent.attempts - 1)
    || (parent.status == StageSucceeded && child.status == StageRunning && child.attempts == parent.attempts)
  }

  predicate ShuffleJob(job: JobState) {
    ShuffleShape(job) && Barrier(job.stages[0], job.stages[1])
  }

  predicate Stages(launched: seq<TaskSet>, retired: set<StageAttemptID>, max: nat, id: JobID, job: JobState) {
    forall k :: k in job.stages ==>
      && StageOK(id, job.runID, k, max, job.stages[k])
      && Launched(launched, retired, id, k, job.stages[k], InputsOf(id, job, job.stages[k].stage))
  }

  predicate JobOK(launched: seq<TaskSet>, retired: set<StageAttemptID>, max: nat, id: JobID, job: JobState) {
    (NarrowJob(job) || ShuffleJob(job)) && Stages(launched, retired, max, id, job)
  }

  // ---------------------------------------------------------------- the scheduler

  predicate AnswersOK(s: State) {
    forall id :: id in s.responses ==>
      id !in s.jobs && |s.responses[id]| == 1 && s.responses[id][0] != Failed(ErrStageExhausted)
  }

  predicate Inv(s: State) {
    && s.maxStageAttempts > 0 && |s.launched| == s.nextStageAttemptID && LogOK(s.launched, s.retired)
    && (forall id :: id in s.jobs ==> JobOK(s.launched, s.retired, s.maxStageAttempts, id, s.jobs[id]))
    && AnswersOK(s)
    && (s.stopping ==> s.jobs == map[])
  }

  lemma InvOrdered(s: State)
    requires Inv(s)
    ensures Ordered(s)
  {
    forall id, k | id in s.jobs && k in s.jobs[id].order ensures k in s.jobs[id].stages {
      assert JobOK(s.launched, s.retired, s.maxStageAttempts, id, s.jobs[id]);
    }
  }

  lemma InitialInv(max: nat, functions: FunctionNames)
    requires max > 0
    ensures Inv(Initial(max, functions))
  {
  }

  // ---------------------------------------------------------------- small facts

  lemma KeysInRange(outputs: map<PartitionID, TaskOutput>, n: nat)
    requires forall p :: p in outputs ==> 0 <= p < n
    ensures |outputs| <= n
    ensures |outputs| == n ==> forall p :: 0 <= p < n ==> p in outputs
  {
    assert outputs.Keys <= Upto(n);
    SubsetSize(outputs.Keys, Upto(n));
  }

  /** A finished map stage has one accepted output per partition. */
  lemma CompleteOutputs(id: JobID, runID: string, k: StageID, max: nat, st: StageState)
    requires StageOK(id, runID, k, max, st) && st.status == StageSucceeded
    ensures forall p :: 0 <= p < |st.tasks| ==> p in st.outputs
    ensures st.stage.kind == StageShuffleMap ==> forall p :: 0 <= p < |st.tasks| ==> st.outputs[p].shuffleOutput.Some?
  {
    KeysInRange(st.outputs, |st.tasks|);
    forall p | 0 <= p < |st.tasks| && st.stage.kind == StageShuffleMap ensures st.outputs[p].shuffleOutput.Some? {
      assert OutputOK(id, runID, st.attemptID, st.tasks[p], st.outputs[p]);
    }
  }

  lemma SnapshotFits(id: JobID, runID: string, k: StageID, max: nat, parent: StageState, child: Stage, i: nat)
    requires StageOK(id, runID, k, max, parent) && parent.status == StageSucceeded
    requires parent.stage.kind == StageShuffleMap && parent.stage.shuffleWrite.Some? && i < |parent.tasks|
    ensures LowerHex(runID, 32)
    ensures FitsSnapshot(Snapshot(runID, id, parent, child), AcceptedOutput(parent, i), i)
            <==> child.numPartitions == parent.stage.shuffleWrite.value.partitioner.numPartitions
  {
    CompleteOutputs(id, runID, k, max, parent);
    assert OutputOK(id, runID, parent.attemptID, parent.tasks[i], parent.outputs[i]);
  }

  /** The snapshot built from a finished map stage passes its check exactly when
      the child has as many partitions as the shuffle writes. */
  lemma SnapshotValidity(id: JobID, runID: string, k: StageID, max: nat, parent: StageState, child: Stage)
    requires StageOK(id, runID, k, max, parent) && parent.status == StageSucceeded
    requires parent.stage.kind == StageShuffleMap && parent.stage.shuffleWrite.Some?
    requires parent.stage.shuffleWrite.value.partitioner.numPartitions > 0
    ensures ValidSnapshot(Snapshot(runID, id, parent, child))
            <==> child.numPartitions == parent.stage.shuffleWrite.value.partitioner.numPartitions
  {
    var s := Snapshot(runID, id, parent, child);
    assert ValidSnapshot(s) ==> FitsSnapshot(s, s.outputs[0], 0);
    forall i: nat | i < |s.outputs|
      ensures FitsSnapshot(s, s.outputs[i], i)
              <==> child.numPartitions == parent.stage.shuffleWrite.value.partitioner.numPartitions
      ensures LowerHex(runID, 32)
    {
      SnapshotFits(id, runID, k, max, parent, child, i);
    }
    assert s.outputs[0] == AcceptedOutput(parent, 0);
  }

  /** Later launches and retirements of other attempts leave a job as it is. */
  lemma JobFrame(launched: seq<TaskSet>, retired: set<StageAttemptID>, more: seq<TaskSet>, gone: set<StageAttemptID>,
                 max: nat, id: JobID, job: JobState)
    requires JobOK(launched, retired, max, id, job)
    requires forall k :: k in job.stages && job.stages[k].status != StagePending ==> job.stages[k].attemptID !in gone
    ensures JobOK(launched + more, retired + gone, max, id, job)
  {
    forall k | k in job.stages
      ensures Launched(launched + more, retired + gone, id, k, job.stages[k], InputsOf(id, job, job.stages[k].stage))
    {
      assert Launched(launched, retired, id, k, job.stages[k], InputsOf(id, job, job.stages[k].stage));
    }
  }

  /** Attempts of different jobs have different numbers. */
  lemma JobsDiffer(launched: seq<TaskSet>, retired: set<StageAttemptID>, max: nat, id: JobID, job: JobState, other: JobID,
                   job2: JobState, k: StageID, j: StageID)
    requires JobOK(launched, retired, max, id, job) && JobOK(launched, retired, max, other, job2) && id != other
    requires k in job.stages && job.stages[k].status != StagePending
    requires j in job2.stages && job2.stages[j].status != StagePending
    ensures job.stages[k].attemptID != job2.stages[j].attemptID
  {
    assert Launched(launched, retired, id, k, job.stages[k], InputsOf(id, job, job.stages[k].stage));
    assert Launched(launched, retired, other, j, job2.stages[j], InputsOf(other, job2, job2.stages[j].stage));
  }
}
