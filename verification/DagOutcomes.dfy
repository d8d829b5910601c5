/** What a task report does to a job, on the job's fields: when it is ignored, stored or
    refused, and exactly when a lost input starts both stages over. */
module DagOutcomes {
  import opened Types
  import opened Lineage
  import opened Planner
  import opened Dag
  import opened DagInvariant
  import opened DagSteps
  import opened DagTheorems
  import DagRuns
  import DagRecovery

  /** The task of the report: of the current attempt of a running stage of an
      unanswered job, with no output yet. */
  ghost predicate Awaited(s: State, id: JobID, k: StageID, attempt: TaskAttemptIdentity, p: PartitionID) {
    && id in s.jobs && k in s.jobs[id].stages
    && var st := s.jobs[id].stages[k];
       st.status == StageRunning && st.attemptID == attempt.stageAttemptID && p !in st.outputs
       && 0 <= p < |st.tasks| && st.tasks[p].id == attempt.taskID
  }

  /** The job was answered, with this error only. */
  ghost predicate EndsWith(s: State, s1: State, id: JobID, error: DagError) {
    id in s.jobs && s1.jobs == s.jobs - {id} && s1.responses == s.responses[id := [Failed(error)]] && s1.launched == s.launched
  }

  // ---------------------------------------------------------------- what can be executed

  /** The plans that can be executed are those of lineages with at most one shuffle. */
  lemma ExecutableExactly(c: Chain, action: ActionSpec)
    requires WellFormed(c)
    ensures Executable(PlanOf(c, action)) <==> Shuffles(c) <= 1
  {
    UpstreamSize(c);
    UpstreamShape(c);
    var stages := PlanOf(c, action).stages;
    if Shuffles(c) == 1 { ReaderStage(c); }
  }

  lemma {:induction false} UpstreamSize(c: Chain)
    ensures |Upstream(c)| == Shuffles(c)
  {
    if !c.SourceRDD? { UpstreamSize(c.parent); }
  }

  /** Below its one shuffle, a lineage's pipeline starts by reading it. */
  lemma {:induction false} ReaderStage(c: Chain)
    requires WellFormed(c) && Shuffles(c) == 1
    ensures |Upstream(c)| == 1 && Upstream(c)[0].parentIDs == [] && Upstream(c)[0].shuffleWrite.Some? && Upstream(c)[0].id == 0
    ensures Parents(c) == [0] && Ops(c) != [] && Ops(c)[0].ShuffleRead? && Ops(c)[0].shuffleID == Upstream(c)[0].shuffleWrite.value.shuffleID
  {
    if c.NarrowRDD? {
      ReaderStage(c.parent);
    } else {
      UpstreamSize(c.parent);
      NoParents(c.parent);
    }
  }

  lemma {:induction false} NoParents(c: Chain)
    requires Shuffles(c) == 0
    ensures Parents(c) == []
  {
    if c.NarrowRDD? { NoParents(c.parent); }
  }

  // ---------------------------------------------------------------- submissions

  /** The job has entered on its plan: its first stage runs under a new attempt, and the
      other one, if any, waits. */
  ghost predicate Entered(s: State, s1: State, id: JobID, p: StagePlan, action: ActionSpec)
    requires forall i :: 0 <= i < |p.stages| ==> p.stages[i].numPartitions > 0
  {
    && id in s1.jobs && 0 in s1.jobs[id].stages
    && s1 == s.(jobs := s.jobs[id := s1.jobs[id]], nextStageAttemptID := s.nextStageAttemptID + 1,
                launched := s.launched + [TaskSet(None, id, 0, s.nextStageAttemptID, s1.jobs[id].stages[0].tasks)])
    && var job := s1.jobs[id];
       && job.action == action && job.runID == "" && !job.cancelled && job.resultStageID == |p.stages| - 1
       && (forall k: StageID :: k in job.stages <==> k < |p.stages|)
       && forall k :: k in job.stages ==>
            && job.stages[k].stage == p.stages[k] && job.stages[k].tasks == TasksOfStage(AllTasks(p.stages), k)
            && job.stages[k].outputs == map[] && job.stages[k].remaining == |job.stages[k].tasks|
            && (k == 0 ==> job.stages[k].status == StageRunning && job.stages[k].attemptID == s.nextStageAttemptID && job.stages[k].attempts == 1)
            && (k == 1 ==> job.stages[k].status == StagePending && job.stages[k].attempts == 0)
  }

  /** A submission is answered at once when the scheduler stops, has no plan for it that
      it can execute, or its context is cancelled; otherwise the job enters. */
  lemma SubmitExactly(s: State, id: JobID, nodes: Nodes, action: ActionSpec, cancelled: bool)
    requires Inv(s) && Ordered(s) && id !in s.jobs && id !in s.responses
    ensures var s1, p := SubmitJob(s, id, nodes, action, cancelled), ExecutionPlan(s.functions, nodes, action);
            if s.stopping then s1 == s.(responses := s.responses[id := [Failed(ErrStopped)]])
            else if p.None? then s1 == s.(responses := s.responses[id := [Failed(ErrPlan)]])
            else if cancelled then s1 == s.(responses := s.responses[id := [Failed(ErrContext)]])
            else Entered(s, s1, id, p.value, action)
  {
    hide *;
    SubmitSteps(s, id, nodes, action, cancelled);
    var p := ExecutionPlan(s.functions, nodes, action);
    if !s.stopping && p.Some? {
      var job := NewJob(action, p.value, AllTasks(p.value.stages), cancelled);
      PlanStarts(s, id, nodes, action, cancelled);
      var s0 := s.(jobs := s.jobs[id := job]);
      if cancelled {
        CancelledEnds(s, id, job);
      } else {
        LaunchFirst(s0, id);
        StartReadyResult(s0, id);
        EnteredFields(s, id, p.value, job, action);
      }
    }
  }

  lemma SubmitSteps(s: State, id: JobID, nodes: Nodes, action: ActionSpec, cancelled: bool)
    requires Inv(s) && id !in s.jobs && id !in s.responses
    ensures var s1, p := SubmitJob(s, id, nodes, action, cancelled), ExecutionPlan(s.functions, nodes, action);
            if s.stopping then s1 == s.(responses := s.responses[id := [Failed(ErrStopped)]])
            else if p.None? then s1 == s.(responses := s.responses[id := [Failed(ErrPlan)]])
            else s1 == StartReady(s.(jobs := s.jobs[id := NewJob(action, p.value, AllTasks(p.value.stages), cancelled)]), id)
  {
    hide Inv, NewJob, AllTasks, ExecutionPlan, StartReady;
    assert Sent(s, id) == [];
    forall answer: Answer ensures [] + [answer] == [answer] {}
  }

  /** What the job is when it enters. */
  lemma PlanStarts(s: State, id: JobID, nodes: Nodes, action: ActionSpec, cancelled: bool)
    requires Inv(s) && id !in s.jobs && ExecutionPlan(s.functions, nodes, action).Some?
    ensures var p := ExecutionPlan(s.functions, nodes, action).value;
            var job := NewJob(action, p, AllTasks(p.stages), cancelled);
            && AllPending(id, s.maxStageAttempts, job) && job.cancelled == cancelled && job.runID == "" && job.action == action
            && (forall k :: k in job.order ==> k in job.stages)
            && (forall i :: 0 <= i < |p.stages| ==> p.stages[i].numPartitions > 0) && DagRecovery.Follows(job, p)
            && (forall k: StageID :: k in job.stages <==> k < |p.stages|) && job.resultStageID == |p.stages| - 1 <= 1
            && (forall k :: k in job.stages ==> job.stages[k].attempts == 0 && job.stages[k].outputs == map[])
  {
    hide *;
    var p := ExecutionPlan(s.functions, nodes, action).value;
    InvMax(s);
    ExecutionPlanPending(s.functions, nodes, id, s.maxStageAttempts, action, cancelled);
    DagRecovery.FreshJobFollows(s.functions, nodes, action, cancelled);
    NewJobOrdered(action, p, AllTasks(p.stages), cancelled);
    PlanStages(s.functions, nodes, action, cancelled);
  }

  lemma InvMax(s: State)
    requires Inv(s)
    ensures s.maxStageAttempts > 0
  {
  }

  lemma PlanStages(names: FunctionNames, nodes: Nodes, action: ActionSpec, cancelled: bool)
    requires ExecutionPlan(names, nodes, action).Some?
    ensures var p := ExecutionPlan(names, nodes, action).value;
            var job := NewJob(action, p, AllTasks(p.stages), cancelled);
            && job.cancelled == cancelled && job.runID == "" && job.action == action
            && (forall k: StageID :: k in job.stages <==> k < |p.stages|) && job.resultStageID == |p.stages| - 1 <= 1
            && (forall k :: k in job.stages ==> job.stages[k].attempts == 0)
  {
    hide *;
    var p := ExecutionPlan(names, nodes, action).value;
    PlanIsExecutable(names, nodes, action);
    PlannedShape(names, nodes, action);
    var c :| WellFormed(c) && Planned(names, nodes, action) == Some(PlanOf(c, action));
    ExecutableStages(c, action);
    ExecutableKinds(p);
    TableKeys(action, p, AllTasks(p.stages), cancelled);
  }

  lemma PlanIsExecutable(names: FunctionNames, nodes: Nodes, action: ActionSpec)
    requires ExecutionPlan(names, nodes, action).Some?
    ensures Planned(names, nodes, action) == ExecutionPlan(names, nodes, action)
    ensures Executable(ExecutionPlan(names, nodes, action).value)
  {
    hide Planned, Executable;
  }

  lemma ExecutableKinds(p: StagePlan)
    requires Executable(p)
    ensures 1 <= |p.stages| <= 2 && p.stages[|p.stages| - 1].kind == StageResult
  {
  }

  lemma TableKeys(action: ActionSpec, p: StagePlan, tasks: seq<Task>, cancelled: bool)
    requires 1 <= |p.stages| <= 2 && forall i :: 0 <= i < |p.stages| ==> p.stages[i].id == i
    requires p.stages[|p.stages| - 1].kind == StageResult
    ensures var job := NewJob(action, p, tasks, cancelled);
            && job.cancelled == cancelled && job.runID == "" && job.action == action
            && (forall k: StageID :: k in job.stages <==> k < |p.stages|) && job.resultStageID == |p.stages| - 1
            && (forall k :: k in job.stages ==> job.stages[k].attempts == 0)
  {
    hide *;
    NewJobParts(action, p, tasks, cancelled);
    var job := NewJob(action, p, tasks, cancelled);
    NewStageFields(p.stages[0], tasks);
    if |p.stages| == 1 {
      TableOfOne(p.stages, tasks);
      assert job.stages == map[0 := NewStage(p.stages[0], tasks)];
    } else {
      NewStageFields(p.stages[1], tasks);
      TableOfTwo(p.stages, tasks);
      assert job.stages == map[0 := NewStage(p.stages[0], tasks)][1 := NewStage(p.stages[1], tasks)];
    }
    forall k: StageID ensures k in job.stages <==> k < |p.stages| {}
  }

  lemma NewJobParts(action: ActionSpec, p: StagePlan, tasks: seq<Task>, cancelled: bool)
    ensures NewJob(action, p, tasks, cancelled)
            == JobState(action, "", StageTable(p.stages, tasks), StageOrder(p.stages), ResultID(p.stages), cancelled)
  {
  }

  lemma CancelledEnds(s: State, id: JobID, job: JobState)
    requires id !in s.jobs && id !in s.responses && job.cancelled && (forall k :: k in job.order ==> k in job.stages)
    ensures StartReady(s.(jobs := s.jobs[id := job]), id) == s.(responses := s.responses[id := [Failed(ErrContext)]])
  {
    assert [] + [Failed(ErrContext)] == [Failed(ErrContext)];
    assert s.jobs[id := job] - {id} == s.jobs;
  }

  lemma EnteredFields(s: State, id: JobID, p: StagePlan, job: JobState, action: ActionSpec)
    requires AllPending(id, s.maxStageAttempts, job) && !job.cancelled && job.runID == "" && job.action == action
    requires (forall i :: 0 <= i < |p.stages| ==> p.stages[i].numPartitions > 0) && DagRecovery.Follows(job, p)
    requires (forall k: StageID :: k in job.stages <==> k < |p.stages|) && job.resultStageID == |p.stages| - 1 <= 1
    requires forall k :: k in job.stages ==> job.stages[k].attempts == 0 && job.stages[k].outputs == map[]
    requires 0 in job.stages
    ensures var s0 := s.(jobs := s.jobs[id := job]);
            var job1 := WithStage(job, 0, Started(job.stages[0], s.nextStageAttemptID));
            Entered(s, s0.(jobs := s0.jobs[id := job1], nextStageAttemptID := s.nextStageAttemptID + 1,
                           launched := s.launched + [TaskSet(None, id, 0, s.nextStageAttemptID, job.stages[0].tasks)]), id, p, action)
  {
    hide *;
    WaitsEmpty(id, s.maxStageAttempts, job);
    FollowsAt(job, p);
    EntersOn(s, id, p, job, action);
  }

  lemma FollowsAt(job: JobState, p: StagePlan)
    requires (forall i :: 0 <= i < |p.stages| ==> p.stages[i].numPartitions > 0) && DagRecovery.Follows(job, p)
    ensures forall k :: k in job.stages ==>
      k < |p.stages| && job.stages[k].stage == p.stages[k] && job.stages[k].tasks == TasksOfStage(AllTasks(p.stages), k)
  {
    hide TasksOfStage, AllTasks;
  }

  lemma EntersOn(s: State, id: JobID, p: StagePlan, job: JobState, action: ActionSpec)
    requires !job.cancelled && job.runID == "" && job.action == action
    requires forall i :: 0 <= i < |p.stages| ==> p.stages[i].numPartitions > 0
    requires (forall k: StageID :: k in job.stages <==> k < |p.stages|) && job.resultStageID == |p.stages| - 1 && 0 in job.stages
    requires forall k :: k in job.stages ==>
      && job.stages[k].stage == p.stages[k] && job.stages[k].tasks == TasksOfStage(AllTasks(p.stages), k)
      && job.stages[k].attempts == 0 && job.stages[k].outputs == map[]
      && job.stages[k].status == StagePending && job.stages[k].remaining == |job.stages[k].tasks|
    ensures var s0 := s.(jobs := s.jobs[id := job]);
            var job1 := WithStage(job, 0, Started(job.stages[0], s.nextStageAttemptID));
            Entered(s, s0.(jobs := s0.jobs[id := job1], nextStageAttemptID := s.nextStageAttemptID + 1,
                           launched := s.launched + [TaskSet(None, id, 0, s.nextStageAttemptID, job.stages[0].tasks)]), id, p, action)
  {
    hide TasksOfStage, AllTasks;
    var job1 := WithStage(job, 0, Started(job.stages[0], s.nextStageAttemptID));
    assert s.jobs[id := job][id := job1] == s.jobs[id := job1];
  }

  lemma WaitsEmpty(id: JobID, max: nat, job: JobState)
    requires AllPending(id, max, job)
    ensures forall k :: k in job.stages ==>
      job.stages[k].status == StagePending && job.stages[k].outputs == map[] && job.stages[k].remaining == |job.stages[k].tasks|
  {
    hide ShuffleShape, NarrowShape, TasksOK, OutputsOK;
  }

  // ---------------------------------------------------------------- lost inputs

  /** The reference names bucket `p` of an output the stage has accepted. */
  predicate NamesBucket(parent: StageState, input: Option<InputReference>, p: PartitionID) {
    exists m :: m in parent.outputs && parent.outputs[m].shuffleOutput.Some?
                && input == Some(InputReference(parent.outputs[m].shuffleOutput.value.attempt, p))
  }

  /** The error that ends the job, if the failure is not a lost input that can be recovered. */
  ghost function Verdict(s: State, report: TaskAttemptFailure): Option<DagError>
    requires report.jobID in s.jobs
  {
    var job := s.jobs[report.jobID];
    if job.cancelled then Some(ErrContext)
    else if report.kind != FailureShuffleInput then Some(ErrTaskFailed)
    else if report.stageID != 1 || 0 !in job.stages || 1 !in job.stages
            || !NamesBucket(job.stages[0], report.shuffleInput, report.partitionID) then Some(ErrNotRecoverable)
    else if job.stages[0].attempts >= s.maxStageAttempts || job.stages[1].attempts >= s.maxStageAttempts then Some(ErrRecoveryExhausted)
    else None
  }

  /** Both stages have forgotten their progress, the map stage runs under a new attempt
      and the result stage waits for it. */
  ghost predicate StartedOver(s: State, s1: State, id: JobID) {
    && id in s.jobs && id in s1.jobs && s1.responses == s.responses && s1.jobs == s.jobs[id := s1.jobs[id]]
    && var job, job1 := s.jobs[id], s1.jobs[id];
       && job.stages.Keys == job1.stages.Keys == {0, 1} && job1 == job.(stages := job1.stages)
       && var parent, parent1, child, child1 := job.stages[0], job1.stages[0], job.stages[1], job1.stages[1];
          && parent1 == StageState(parent.stage, s.nextStageAttemptID, StageRunning, parent.attempts + 1, parent.tasks,
                                   |parent.tasks|, map[])
          && child1 == StageState(child.stage, child.attemptID, StagePending, child.attempts, child.tasks, |child.tasks|, map[])
          && s1.nextStageAttemptID == s.nextStageAttemptID + 1
          && s1.launched == s.launched + [TaskSet(None, id, 0, s.nextStageAttemptID, parent.tasks)]
          && s1.retired == s.retired + {parent.attemptID, child.attemptID}
  }

  /** A failure report about an awaited task ends its job with its verdict's error, or,
      when there is none, starts both stages over; any other report changes nothing. */
  lemma FailureExactly(s: State, report: TaskAttemptFailure)
    requires Inv(s) && Ordered(s)
    ensures var s1, id := TaskFailed(s, report), report.jobID;
            if !Awaited(s, id, report.stageID, report.attempt, report.partitionID) then s1 == s
            else
              match Verdict(s, report)
              case Some(error) => EndsWith(s, s1, id, error)
              case None => StartedOver(s, s1, id)
  {
    hide Inv, Ordered, RecoveryError, StartReady, ResetPair, NamesBucket, FailJob, EndsWith, StartedOver;
    var id, k := report.jobID, report.stageID;
    AwaitedExactly(s, id, k, report.attempt, report.partitionID);
    hide PendingTask;
    if Awaited(s, id, k, report.attempt, report.partitionID) {
      Unanswered(s, id);
      VerdictExactly(s, report);
      forall error ensures EndsWith(s, FailJob(s, id, error), id, error) { FailJobEnds(s, id, error); }
      if Verdict(s, report).None? {
        Restarts(s, report);
      } else if !s.jobs[id].cancelled && report.kind == FailureShuffleInput {
        assert RecoveryError(s, report) == Verdict(s, report);
      }
    }
  }

  lemma FailJobEnds(s: State, id: JobID, error: DagError)
    requires id in s.jobs && Sent(s, id) == []
    ensures EndsWith(s, FailJob(s, id, error), id, error)
  {
    assert Sent(s, id) + [Failed(error)] == [Failed(error)];
  }

  lemma AwaitedExactly(s: State, id: JobID, k: StageID, attempt: TaskAttemptIdentity, p: PartitionID)
    ensures PendingTask(s, id, k, attempt, p) <==> Awaited(s, id, k, attempt, p)
  {
  }

  lemma Unanswered(s: State, id: JobID)
    requires Inv(s) && id in s.jobs
    ensures id !in s.responses && Sent(s, id) == []
  {
    assert AnswersOK(s);
    hide JobOK;
  }

  /** Past the job's context and the kind of failure, the scheduler's own check of a lost input agrees. */
  lemma VerdictExactly(s: State, report: TaskAttemptFailure)
    requires Inv(s) && Ordered(s)
    requires PendingTask(s, report.jobID, report.stageID, report.attempt, report.partitionID)
    ensures !s.jobs[report.jobID].cancelled && report.kind == FailureShuffleInput ==> RecoveryError(s, report) == Verdict(s, report)
  {
    hide Inv, Ordered, NamesAccepted, ValidFailure, NamesBucket;
    var id := report.jobID;
    var job := s.jobs[id];
    JobKinds(s, id);
    if ShuffleJob(job) {
      if report.kind == FailureShuffleInput { NamesExactly(s, id, report.kind, report.shuffleInput, report.partitionID); }
      hide ResultOK;
    } else {
      hide ResultOK;
    }
  }

  lemma NamesExactly(s: State, id: JobID, kind: FailureKind, input: Option<InputReference>, p: PartitionID)
    requires Inv(s) && id in s.jobs && ShuffleJob(s.jobs[id]) && kind == FailureShuffleInput && p >= 0
    ensures var parent := s.jobs[id].stages[0];
            ValidFailure(kind, input) && input.Some? && NamesAccepted(parent, input.value, p) <==> NamesBucket(parent, input, p)
  {
    hide ValidFailure, NamesAccepted, NamesBucket;
    var job := s.jobs[id];
    var parent := job.stages[0];
    JobStage(s.launched, s.retired, s.maxStageAttempts, id, job, 0);
    hide Inv, StageOK;
    forall m | m in parent.outputs
      ensures parent.outputs[m].shuffleOutput.Some? && ValidIdentity(parent.outputs[m].shuffleOutput.value.attempt)
      ensures parent.outputs[m].shuffleOutput.value.attempt.mapPartitionID == m
    {
      AcceptedAttempt(id, job.runID, s.maxStageAttempts, parent, m);
    }
    NamesFrom(parent, kind, input, p);
  }

  lemma NamesFrom(parent: StageState, kind: FailureKind, input: Option<InputReference>, p: PartitionID)
    requires kind == FailureShuffleInput && p >= 0
    requires forall m :: m in parent.outputs ==>
      && parent.outputs[m].shuffleOutput.Some? && ValidIdentity(parent.outputs[m].shuffleOutput.value.attempt)
      && parent.outputs[m].shuffleOutput.value.attempt.mapPartitionID == m
    ensures ValidFailure(kind, input) && input.Some? && NamesAccepted(parent, input.value, p) <==> NamesBucket(parent, input, p)
  {
    hide LowerHex;
    if NamesBucket(parent, input, p) {
      var m :| m in parent.outputs && input == Some(InputReference(parent.outputs[m].shuffleOutput.value.attempt, p));
    }
  }

  lemma AcceptedAttempt(id: JobID, runID: string, max: nat, st: StageState, m: PartitionID)
    requires StageOK(id, runID, 0, max, st) && st.stage.kind == StageShuffleMap && m in st.outputs
    ensures st.outputs[m].shuffleOutput.Some? && ValidIdentity(st.outputs[m].shuffleOutput.value.attempt)
    ensures st.outputs[m].shuffleOutput.value.attempt.mapPartitionID == m
  {
    assert OutputOK(id, runID, st.attemptID, st.tasks[m], st.outputs[m]);
  }

  lemma Restarts(s: State, report: TaskAttemptFailure)
    requires Inv(s) && Ordered(s) && PendingTask(s, report.jobID, report.stageID, report.attempt, report.partitionID)
    requires !s.jobs[report.jobID].cancelled && report.kind == FailureShuffleInput && RecoveryError(s, report).None?
    ensures StartedOver(s, TaskFailed(s, report), report.jobID)
  {
    hide *;
    var id := report.jobID;
    RecoverableShape(s, report);
    PendingJob(s, report);
    ResetPairInv(s, id);
    ResetPairState(s, id);
    var s1 := ResetPair(s, id, 0, 1);
    ResetFields(s, id);
    LaunchFirst(s1, id);
    StartReadyResult(s1, id);
    RestartIs(s, report);
    StartedOverFields(s, id);
  }

  lemma PendingJob(s: State, report: TaskAttemptFailure)
    requires Inv(s) && PendingTask(s, report.jobID, report.stageID, report.attempt, report.partitionID)
    ensures report.jobID in s.jobs
    ensures ShuffleJob(s.jobs[report.jobID]) ==>
      && s.jobs[report.jobID].stages.Keys == {0, 1} && s.jobs[report.jobID].order == [0, 1]
      && s.jobs[report.jobID].stages[1].stage.parentIDs == [0]
  {
    hide Inv;
  }

  lemma ResetFields(s: State, id: JobID)
    requires id in s.jobs && s.jobs[id].stages.Keys == {0, 1} && s.jobs[id].order == [0, 1]
    requires ResetPair(s, id, 0, 1) ==
             s.(jobs := s.jobs[id := ResetJob(s.jobs[id])],
                retired := s.retired + {s.jobs[id].stages[0].attemptID, s.jobs[id].stages[1].attemptID})
    ensures var s1 := ResetPair(s, id, 0, 1);
            && id in s1.jobs && s1.jobs[id].cancelled == s.jobs[id].cancelled && s1.jobs[id].stages.Keys == {0, 1}
            && (forall k :: k in s1.jobs[id].order ==> k in s1.jobs[id].stages)
            && s1.maxStageAttempts == s.maxStageAttempts
  {
    hide ResetPair;
  }

  lemma RestartIs(s: State, report: TaskAttemptFailure)
    requires Ordered(s) && PendingTask(s, report.jobID, report.stageID, report.attempt, report.partitionID)
    requires report.jobID in s.jobs
    requires !s.jobs[report.jobID].cancelled && report.kind == FailureShuffleInput && RecoveryError(s, report).None?
    requires s.jobs[report.jobID].stages.Keys == {0, 1} && report.stageID == 1 && s.jobs[report.jobID].stages[1].stage.parentIDs == [0]
    requires var s1 := ResetPair(s, report.jobID, 0, 1); forall k :: k in s1.jobs[report.jobID].order ==> k in s1.jobs[report.jobID].stages
    ensures TaskFailed(s, report) == StartReady(ResetPair(s, report.jobID, 0, 1), report.jobID)
  {
    hide Ordered, PendingTask, RecoveryError, ResetPair, StartReady;
    assert 0 in s.jobs[report.jobID].stages.Keys && 1 in s.jobs[report.jobID].stages.Keys;
    assert s.jobs[report.jobID].stages[1].stage.parentIDs[0] == 0;
  }

  lemma StartedOverFields(s: State, id: JobID)
    requires id in s.jobs && s.jobs[id].stages.Keys == {0, 1} && s.jobs[id].order == [0, 1]
    requires ResetPair(s, id, 0, 1) ==
             s.(jobs := s.jobs[id := ResetJob(s.jobs[id])],
                retired := s.retired + {s.jobs[id].stages[0].attemptID, s.jobs[id].stages[1].attemptID})
    ensures var s1 := ResetPair(s, id, 0, 1);
            var job1 := WithStage(s1.jobs[id], 0, Started(s1.jobs[id].stages[0], s1.nextStageAttemptID));
            StartedOver(s, s1.(jobs := s1.jobs[id := job1], nextStageAttemptID := s1.nextStageAttemptID + 1,
                               launched := s1.launched + [TaskSet(None, id, 0, s1.nextStageAttemptID, s1.jobs[id].stages[0].tasks)]), id)
  {
    hide ResetPair;
  }

  // ---------------------------------------------------------------- successes

  /** The output is just what the task's kind and action ask for, and a map output is
      of this very attempt and of the job's run. */
  ghost predicate Asked(job: JobState, id: JobID, t: Task, attempt: TaskAttemptIdentity, o: TaskOutput) {
    if t.kind == StageShuffleMap then
      t.shuffleWrite.Some? && t.finalAction.None?
      && exists m :: o == TaskOutput(None, 0, Some(m)) && ValidMapOutput(m)
           && (job.runID == "" || m.attempt.runID == job.runID)
           && m.attempt == AttemptIdentity(m.attempt.runID, id, t.shuffleWrite.value.shuffleID, t.stageID, attempt.stageAttemptID,
                                           t.id, attempt.id, t.partitionID)
           && m.numMapPartitions == t.numPartitions
           && m.numReducePartitions == t.shuffleWrite.value.partitioner.numPartitions
    else
      t.finalAction.Some?
      && match t.finalAction.value.kind
         case ActionCollect => o.records.Some? && o == TaskOutput(o.records, 0, None)
         case ActionCount => o.count >= 0 && o == TaskOutput(None, o.count, None)
         case ActionUnsupported => false
  }

  lemma AskedExactly(job: JobState, id: JobID, t: Task, attempt: TaskAttemptIdentity, o: TaskOutput)
    ensures AcceptableOutput(o, RunIDFor(job, o), id, t, attempt) <==> Asked(job, id, t, attempt, o)
  {
    hide ValidMapOutput;
    if AcceptableOutput(o, RunIDFor(job, o), id, t, attempt) && t.kind == StageShuffleMap {
      assert o == TaskOutput(None, 0, Some(o.shuffleOutput.value));
    }
  }

  /** A job learns its run from the first map output it stores. */
  function LearntRun(runID: string, kind: StageKind, output: TaskOutput): string {
    if kind == StageShuffleMap && |runID| == 0 && output.shuffleOutput.Some? then output.shuffleOutput.value.attempt.runID else runID
  }

  lemma LearnsRun(job: JobState, k: StageID, p: PartitionID, output: TaskOutput)
    requires k in job.stages
    ensures Accept(job, k, p, output).runID == LearntRun(job.runID, job.stages[k].stage.kind, output)
  {
  }

  /** The stage has stored one more output. */
  ghost predicate Stored(s: State, s1: State, id: JobID, k: StageID, p: PartitionID, output: TaskOutput) {
    && id in s.jobs && k in s.jobs[id].stages && id in s1.jobs && k in s1.jobs[id].stages
    && var st, st1 := s.jobs[id].stages[k], s1.jobs[id].stages[k];
       && s1.jobs[id].stages.Keys == s.jobs[id].stages.Keys
       && st1.outputs == st.outputs[p := output] && st1.remaining == st.remaining - 1
       && st1.status == (if st.remaining == 1 then StageSucceeded else st.status)
       && st1.attemptID == st.attemptID && st1.attempts == st.attempts && st1.tasks == st.tasks && st1.stage == st.stage
       && s1.jobs[id].action == s.jobs[id].action && s1.jobs[id].cancelled == s.jobs[id].cancelled
       && s1.jobs[id].resultStageID == s.jobs[id].resultStageID
       && s1.jobs[id].runID == LearntRun(s.jobs[id].runID, st.stage.kind, output)
       && s1.jobs == s.jobs[id := s1.jobs[id]] && s1.responses == s.responses
  }

  /** The result stage has been launched on the outputs of the finished map stage. */
  ghost predicate ChildStarted(s: State, s1: State, id: JobID) {
    && id in s.jobs && id in s1.jobs && s.jobs[id].stages.Keys == s1.jobs[id].stages.Keys == {0, 1}
    && var child, child1, parent1 := s.jobs[id].stages[1], s1.jobs[id].stages[1], s1.jobs[id].stages[0];
       && child1 == child.(attemptID := s.nextStageAttemptID, status := StageRunning, attempts := child.attempts + 1)
       && s1.nextStageAttemptID == s.nextStageAttemptID + 1 && |s1.launched| == |s.launched| + 1 && s.launched <= s1.launched
       && var set1 := s1.launched[|s.launched|];
          && set1.jobID == id && set1.stageID == 1 && set1.stageAttemptID == s.nextStageAttemptID && set1.tasks == child.tasks
          && set1.inputs.Some? && |set1.inputs.value.outputs| == |parent1.tasks|
          && forall m :: 0 <= m < |parent1.tasks| ==>
               m in parent1.outputs && parent1.outputs[m].shuffleOutput == Some(set1.inputs.value.outputs[m])
  }

  ghost predicate OthersStay(s: State, s1: State, id: JobID, k: StageID) {
    id in s.jobs && id in s1.jobs
    && forall j :: j in s.jobs[id].stages && j != k ==> j in s1.jobs[id].stages && s1.jobs[id].stages[j] == s.jobs[id].stages[j]
  }

  /** The output is stored. The last output of the map stage also starts the result
      stage, if its width is the shuffle's; the last of the result stage answers the job. */
  ghost predicate MovesOn(s: State, s1: State, id: JobID, k: StageID, p: PartitionID, output: TaskOutput) {
    id in s.jobs && k in s.jobs[id].stages
    && var job := s.jobs[id];
       if job.stages[k].remaining > 1 then
         Stored(s, s1, id, k, p, output) && s1.launched == s.launched && s1.nextStageAttemptID == s.nextStageAttemptID
         && OthersStay(s, s1, id, k)
       else if k == job.resultStageID then id !in s1.jobs && DagRuns.GotSuccess(s1, id)
       else
         && 0 in job.stages && 1 in job.stages && job.stages[0].stage.shuffleWrite.Some? && k == 0
         && if job.stages[1].stage.numPartitions == job.stages[0].stage.shuffleWrite.value.partitioner.numPartitions
            then Stored(s, s1, id, 0, p, output) && ChildStarted(s, s1, id)
            else DagRecovery.FailsWith(s1, id, ErrInputs)
  }

  /** A success about an awaited task: an output that is not what was asked for, or a
      cancelled job, ends the job. What was asked for is stored, and the last output of
      the map stage starts the result stage if its width is the shuffle's; the last of
      the result stage answers the job. Any other report changes nothing. */
  lemma SuccessExactly(s: State, report: TaskAttemptSuccess)
    requires Inv(s) && Ordered(s)
    ensures var s1, id, k, p := TaskSucceeded(s, report), report.jobID, report.stageID, report.partitionID;
            if !Awaited(s, id, k, report.attempt, p) then s1 == s
            else
              var job := s.jobs[id];
              var st := job.stages[k];
              if job.cancelled then EndsWith(s, s1, id, ErrContext)
              else if !Asked(job, id, st.tasks[p], report.attempt, report.output) then EndsWith(s, s1, id, ErrOutput)
              else MovesOn(s, s1, id, k, p, report.output)
  {
    hide *;
    var s1, id, k, p := TaskSucceeded(s, report), report.jobID, report.stageID, report.partitionID;
    AwaitedExactly(s, id, k, report.attempt, p);
    SuccessSteps(s, report);
    if PendingTask(s, id, k, report.attempt, p) {
      AwaitedParts(s, id, k, report.attempt, p);
      Unanswered(s, id);
      FailJobEnds(s, id, ErrContext);
      FailJobEnds(s, id, ErrOutput);
      var st := s.jobs[id].stages[k];
      AskedExactly(s.jobs[id], id, st.tasks[p], report.attempt, report.output);
      if !s.jobs[id].cancelled && AcceptableOutput(report.output, RunIDFor(s.jobs[id], report.output), id, st.tasks[p], report.attempt) {
        AcceptsExactly(s, report);
      }
    }
  }

  lemma AwaitedParts(s: State, id: JobID, k: StageID, attempt: TaskAttemptIdentity, p: PartitionID)
    requires Awaited(s, id, k, attempt, p)
    ensures id in s.jobs && k in s.jobs[id].stages && 0 <= p < |s.jobs[id].stages[k].tasks|
  {
  }

  lemma SuccessSteps(s: State, report: TaskAttemptSuccess)
    requires Ordered(s)
    ensures var s1, id, k, p := TaskSucceeded(s, report), report.jobID, report.stageID, report.partitionID;
            if !PendingTask(s, id, k, report.attempt, p) then s1 == s
            else
              && id in s.jobs && k in s.jobs[id].stages && 0 <= p < |s.jobs[id].stages[k].tasks|
              && s1 == if s.jobs[id].cancelled then FailJob(s, id, ErrContext)
                       else if !AcceptableOutput(report.output, RunIDFor(s.jobs[id], report.output), id, s.jobs[id].stages[k].tasks[p], report.attempt)
                       then FailJob(s, id, ErrOutput)
                       else AcceptSuccess(s, id, k, p, report.output)
  {
    hide Ordered, AcceptableOutput, AcceptSuccess, FailJob;
  }

  lemma AcceptsExactly(s: State, report: TaskAttemptSuccess)
    requires Inv(s) && Ordered(s) && Awaited(s, report.jobID, report.stageID, report.attempt, report.partitionID)
    requires !s.jobs[report.jobID].cancelled
    requires AcceptableOutput(report.output, RunIDFor(s.jobs[report.jobID], report.output), report.jobID,
                              s.jobs[report.jobID].stages[report.stageID].tasks[report.partitionID], report.attempt)
    ensures var id, k, p := report.jobID, report.stageID, report.partitionID;
            var s1 := AcceptSuccess(s, id, k, p, report.output);
            MovesOn(s, s1, id, k, p, report.output)
  {
    hide *;
    var id, k, p := report.jobID, report.stageID, report.partitionID;
    AwaitedParts(s, id, k, report.attempt, p);
    AwaitedExactly(s, id, k, report.attempt, p);
    PendingHasMore(s, id, k, report.attempt, p);
    Unanswered(s, id);
    if s.jobs[id].stages[k].remaining > 1 {
      StoresOne(s, id, k, p, report.output);
    } else {
      DagRecovery.ResultIsLast(s, id, k);
      if k == s.jobs[id].resultStageID {
        Finishes(s, id, k, p, report.output);
      } else {
        StartsResult(s, report);
      }
    }
    MovesOnFrom(s, AcceptSuccess(s, id, k, p, report.output), id, k, p, report.output);
  }

  lemma MovesOnFrom(s: State, s1: State, id: JobID, k: StageID, p: PartitionID, output: TaskOutput)
    requires id in s.jobs && k in s.jobs[id].stages
    requires s.jobs[id].stages[k].remaining > 1 ==>
      Stored(s, s1, id, k, p, output) && s1.launched == s.launched && s1.nextStageAttemptID == s.nextStageAttemptID
      && OthersStay(s, s1, id, k)
    requires s.jobs[id].stages[k].remaining <= 1 && k == s.jobs[id].resultStageID ==> id !in s1.jobs && DagRuns.GotSuccess(s1, id)
    requires s.jobs[id].stages[k].remaining <= 1 && k != s.jobs[id].resultStageID ==>
      && 0 in s.jobs[id].stages && 1 in s.jobs[id].stages && s.jobs[id].stages[0].stage.shuffleWrite.Some? && k == 0
      && if s.jobs[id].stages[1].stage.numPartitions == s.jobs[id].stages[0].stage.shuffleWrite.value.partitioner.numPartitions
         then Stored(s, s1, id, 0, p, output) && ChildStarted(s, s1, id)
         else DagRecovery.FailsWith(s1, id, ErrInputs)
    ensures MovesOn(s, s1, id, k, p, output)
  {
    hide Stored, ChildStarted, OthersStay, DagRuns.GotSuccess, DagRecovery.FailsWith;
  }

  lemma StoresOne(s: State, id: JobID, k: StageID, p: PartitionID, output: TaskOutput)
    requires Ordered(s) && id in s.jobs && k in s.jobs[id].stages && s.jobs[id].stages[k].remaining > 1
    ensures var s1 := AcceptSuccess(s, id, k, p, output);
            Stored(s, s1, id, k, p, output) && s1.launched == s.launched && s1.nextStageAttemptID == s.nextStageAttemptID
            && OthersStay(s, s1, id, k)
  {
    LearnsRun(s.jobs[id], k, p, output);
    hide LearntRun;
    hide Ordered, StartReady, MergeOutputs, RunIDFor;
  }

  lemma Finishes(s: State, id: JobID, k: StageID, p: PartitionID, output: TaskOutput)
    requires Ordered(s) && id in s.jobs && k in s.jobs[id].stages && s.jobs[id].stages[k].remaining == 1 && Sent(s, id) == []
    requires k == s.jobs[id].resultStageID
    ensures var s1 := AcceptSuccess(s, id, k, p, output); id !in s1.jobs && DagRuns.GotSuccess(s1, id)
  {
    hide Ordered, StartReady, MergeOutputs, RunIDFor;
  }

  /** The last map output: the state in which the result stage is then started, or not. */
  lemma StartsResult(s: State, report: TaskAttemptSuccess)
    requires Inv(s) && Ordered(s) && PendingTask(s, report.jobID, report.stageID, report.attempt, report.partitionID)
    requires report.jobID in s.jobs && !s.jobs[report.jobID].cancelled && Sent(s, report.jobID) == [] && report.jobID !in s.responses
    requires AcceptableOutput(report.output, RunIDFor(s.jobs[report.jobID], report.output), report.jobID,
                              s.jobs[report.jobID].stages[report.stageID].tasks[report.partitionID], report.attempt)
    requires ShuffleShape(s.jobs[report.jobID]) && report.stageID == 0 && s.jobs[report.jobID].resultStageID != 0
    requires s.jobs[report.jobID].stages[0].remaining == 1
    ensures var id := report.jobID;
            var s1, job := AcceptSuccess(s, id, 0, report.partitionID, report.output), s.jobs[id];
            && 0 in job.stages && 1 in job.stages && job.stages[0].stage.shuffleWrite.Some?
            && if job.stages[1].stage.numPartitions == job.stages[0].stage.shuffleWrite.value.partitioner.numPartitions
               then Stored(s, s1, id, 0, report.partitionID, report.output) && ChildStarted(s, s1, id)
               else DagRecovery.FailsWith(s1, id, ErrInputs)
  {
    hide *;
    var id := report.jobID;
    LastIsAccepted(s, report);
    assert 0 in s.jobs[id].stages.Keys;
    var job, job1 := s.jobs[id], Accept(s.jobs[id], 0, report.partitionID, report.output);
    var s1 := s.(jobs := s.jobs[id := job1]);
    StartReadySelf(s1, id);
    if ValidSnapshot(Snapshot(job1.runID, id, job1.stages[0], job1.stages[1].stage)) {
      StartReadyResult(s1, id);
      ChildIsStarted(s, s1, id, report.partitionID, report.output);
    } else {
      InputsRefused(s1, id);
    }
  }

  lemma InputsRefused(s: State, id: JobID)
    requires id in s.jobs && (forall k :: k in s.jobs[id].order ==> k in s.jobs[id].stages) && Sent(s, id) == []
    requires LaunchReady(s, id).error == Some(ErrInputs)
    ensures DagRecovery.FailsWith(StartReady(s, id), id, ErrInputs)
  {
    hide LaunchReady;
    assert [] + [Failed(ErrInputs)] == [Failed(ErrInputs)];
  }

  lemma LastIsAccepted(s: State, report: TaskAttemptSuccess)
    requires Inv(s) && Ordered(s) && PendingTask(s, report.jobID, report.stageID, report.attempt, report.partitionID)
    requires report.jobID in s.jobs && !s.jobs[report.jobID].cancelled && Sent(s, report.jobID) == [] && report.jobID !in s.responses
    requires AcceptableOutput(report.output, RunIDFor(s.jobs[report.jobID], report.output), report.jobID,
                              s.jobs[report.jobID].stages[report.stageID].tasks[report.partitionID], report.attempt)
    requires ShuffleShape(s.jobs[report.jobID]) && report.stageID == 0 && s.jobs[report.jobID].resultStageID != 0
    requires s.jobs[report.jobID].stages[0].remaining == 1
    ensures var id, p := report.jobID, report.partitionID;
            var job, job1 := s.jobs[id], Accept(s.jobs[id], 0, p, report.output);
            var s1 := s.(jobs := s.jobs[id := job1]);
            && AcceptSuccess(s, id, 0, p, report.output) == StartReady(s1, id)
            && job.stages.Keys == {0, 1} && job1.stages.Keys == {0, 1} && Sent(s1, id) == []
            && job1.stages[0] == job.stages[0].(outputs := job.stages[0].outputs[p := report.output], remaining := 0, status := StageSucceeded)
            && job1.stages[1] == job.stages[1] && job1 == job.(runID := job1.runID, stages := job1.stages)
            && (forall m :: 0 <= m < |job1.stages[0].tasks| ==> m in job1.stages[0].outputs && job1.stages[0].outputs[m].shuffleOutput.Some?)
            && (forall k :: k in s1.jobs[id].order ==> k in s1.jobs[id].stages)
            && job.stages[0].stage.shuffleWrite.Some?
            && (ValidSnapshot(Snapshot(job1.runID, id, job1.stages[0], job1.stages[1].stage)) <==>
                  job.stages[1].stage.numPartitions == job.stages[0].stage.shuffleWrite.value.partitioner.numPartitions)
            && LaunchReady(s1, id) ==
               if ValidSnapshot(Snapshot(job1.runID, id, job1.stages[0], job1.stages[1].stage)) then
                 Launch(WithStage(job1, 1, Started(job1.stages[1], s.nextStageAttemptID)), s.nextStageAttemptID + 1,
                        [TaskSet(Some(Snapshot(job1.runID, id, job1.stages[0], job1.stages[1].stage)), id, 1, s.nextStageAttemptID,
                                 job1.stages[1].tasks)], None)
               else Launch(job1, s.nextStageAttemptID, [], Some(ErrInputs))
  {
    var e, id := TaskSucceededEvent(report), report.jobID;
    var job, job1 := s.jobs[id], AfterAccept(s, e, id);
    assert JobOK(s.launched, s.retired, s.maxStageAttempts, id, job);
    AcceptedJob(s.launched, s.retired, s.maxStageAttempts, id, job, 0, report.partitionID, report.output, report.attempt);
    assert ChildReady(s.launched, s.retired, id, s.maxStageAttempts, job1);
    assert StageOK(id, job1.runID, 0, s.maxStageAttempts, job1.stages[0]);
    SnapshotValidity(id, job1.runID, 0, s.maxStageAttempts, job1.stages[0], job1.stages[1].stage);
    CompleteOutputs(id, job1.runID, 0, s.maxStageAttempts, job1.stages[0]);
    assert job.stages[0].attempts <= s.maxStageAttempts by { assert StageOK(id, job.runID, 0, s.maxStageAttempts, job.stages[0]); }
    hide JobOK, StageOK, AcceptableOutput, Inv, ValidSnapshot;
    LaunchSecond(s.(jobs := s.jobs[id := job1]), id);
  }

  lemma ChildIsStarted(s: State, s1: State, id: JobID, p: PartitionID, output: TaskOutput)
    requires id in s.jobs && s.jobs[id].stages.Keys == {0, 1} && s.jobs[id].stages[0].remaining == 1
    requires var job, job1 := s.jobs[id], Accept(s.jobs[id], 0, p, output);
             && s1 == s.(jobs := s.jobs[id := job1]) && job1.stages.Keys == {0, 1}
             && job1.stages[0] == job.stages[0].(outputs := job.stages[0].outputs[p := output], remaining := 0, status := StageSucceeded)
             && job1.stages[1] == job.stages[1] && job1 == job.(runID := job1.runID, stages := job1.stages)
             && (forall m :: 0 <= m < |job1.stages[0].tasks| ==> m in job1.stages[0].outputs && job1.stages[0].outputs[m].shuffleOutput.Some?)
    ensures var job1 := s1.jobs[id];
            var s2 := s1.(jobs := s1.jobs[id := WithStage(job1, 1, Started(job1.stages[1], s.nextStageAttemptID))],
                          nextStageAttemptID := s.nextStageAttemptID + 1,
                          launched := s1.launched + [TaskSet(Some(Snapshot(job1.runID, id, job1.stages[0], job1.stages[1].stage)), id, 1,
                                                             s.nextStageAttemptID, job1.stages[1].tasks)]);
            Stored(s, s2, id, 0, p, output) && ChildStarted(s, s2, id)
  {
    LearnsRun(s.jobs[id], 0, p, output);
    hide LearntRun;
    hide RunIDFor, Accept;
  }

  // ---------------------------------------------------------------- the other events

  /** A task set that ends while its stage attempt runs ends the job; any other changes nothing. */
  lemma SetFinishedExactly(s: State, id: JobID, k: StageID, attempt: StageAttemptID)
    requires Inv(s)
    ensures var s1 := TaskSetFinished(s, id, k, attempt);
            if id in s.jobs && k in s.jobs[id].stages && s.jobs[id].stages[k].status == StageRunning
               && s.jobs[id].stages[k].attemptID == attempt
            then EndsWith(s, s1, id, if s.jobs[id].cancelled then ErrContext else ErrTaskSetEnded)
            else s1 == s
  {
    hide Inv, EndsWith, FailJob;
    if id in s.jobs {
      Unanswered(s, id);
      FailJobEnds(s, id, ErrContext);
      FailJobEnds(s, id, ErrTaskSetEnded);
    }
  }

  /** A job whose caller has gone is answered with the context's error. */
  lemma CancelExactly(s: State, id: JobID)
    requires Inv(s) && Ordered(s)
    ensures if id in s.jobs then EndsWith(s, Step(s, JobCanceled(id)), id, ErrContext) else Step(s, JobCanceled(id)) == s
  {
    hide Inv, Ordered, EndsWith, FailJob;
    CancelSteps(s, id);
    if id in s.jobs {
      Unanswered(s, id);
      FailJobEnds(s, id, ErrContext);
    }
  }

  lemma CancelSteps(s: State, id: JobID)
    requires Ordered(s)
    ensures Step(s, JobCanceled(id)) == FailJob(s, id, ErrContext) && Step(s, Stopping) == Stop(s)
    ensures id !in s.jobs ==> FailJob(s, id, ErrContext) == s
  {
    hide Ordered, Stop;
  }

  /** Stopping answers every job with the stop error and refuses what comes later. */
  lemma StopExactly(s: State)
    requires Inv(s) && Ordered(s)
    ensures var s1 := Step(s, Stopping);
            && s1.stopping && s1.jobs == map[] && s1.launched == s.launched && s1.responses.Keys == s.responses.Keys + s.jobs.Keys
            && (forall id :: id in s.responses ==> s1.responses[id] == s.responses[id])
            && (forall id :: id in s.jobs ==> s1.responses[id] == [Failed(ErrStopped)])
  {
    hide *;
    CancelSteps(s, 0);
    forall id | id in s.jobs ensures Sent(s, id) == [] && id !in s.responses { Unanswered(s, id); }
    forall id | id in s.responses ensures Sent(s, id) == s.responses[id] { SentIs(s, id); }
    StopFields(s);
  }

  lemma SentIs(s: State, id: JobID)
    requires id in s.responses
    ensures Sent(s, id) == s.responses[id]
  {
  }

  lemma StopFields(s: State)
    requires forall id :: id in s.jobs ==> Sent(s, id) == [] && id !in s.responses
    requires forall id :: id in s.responses ==> Sent(s, id) == s.responses[id]
    ensures var s1 := Stop(s);
            && s1.stopping && s1.jobs == map[] && s1.launched == s.launched && s1.responses.Keys == s.responses.Keys + s.jobs.Keys
            && (forall id :: id in s.responses ==> s1.responses[id] == s.responses[id])
            && (forall id :: id in s.jobs ==> s1.responses[id] == [Failed(ErrStopped)])
  {
    hide Sent;
    forall id | id in s.responses ensures Stop(s).responses[id] == s.responses[id] { assert Sent(s, id) + [] == Sent(s, id); }
    assert [] + [Failed(ErrStopped)] == [Failed(ErrStopped)];
  }
}
