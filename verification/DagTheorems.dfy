/** What runs of the DAG scheduler guarantee. */
module DagTheorems {
  import opened Types
  import opened Lineage
  import opened Planner
  import opened Keyed
  import opened Dag
  import opened DagInvariant
  import opened DagSteps

  // ---------------------------------------------------------------- the barrier

  /** A stage with a parent runs only on a finished parent, and its task set
      carries a valid snapshot: for every map partition the one accepted output,
      all from the parent's current attempt and one run. */
  lemma BarrierAndSnapshot(s: State, id: JobID, k: StageID)
    requires Inv(s) && id in s.jobs && k in s.jobs[id].stages
    requires s.jobs[id].stages[k].status == StageRunning && s.jobs[id].stages[k].stage.parentIDs != []
    ensures var job := s.jobs[id];
            var st := job.stages[k];
            && st.stage.parentIDs[0] in job.stages && st.attemptID < |s.launched|
            && var parent, set0 := job.stages[st.stage.parentIDs[0]], s.launched[st.attemptID];
               && parent.status == StageSucceeded && set0.inputs.Some? && ValidSnapshot(set0.inputs.value)
               && set0.tasks == st.tasks && set0.jobID == id && set0.stageID == k
               && var outputs := set0.inputs.value.outputs;
                  && |outputs| == |parent.tasks|
                  && forall p :: 0 <= p < |outputs| ==>
                       && p in parent.outputs && parent.outputs[p].shuffleOutput == Some(outputs[p])
                       && outputs[p].attempt.stageAttemptID == parent.attemptID && outputs[p].attempt.mapPartitionID == p
                       && outputs[p].attempt.runID == job.runID && outputs[p].attempt.taskID == parent.tasks[p].id
                       && outputs[p].numReducePartitions == |st.tasks|
  {
    var job := s.jobs[id];
    assert JobOK(s.launched, s.retired, s.maxStageAttempts, id, job);
    assert k == 1 && ShuffleJob(job);
    var parent, child := job.stages[0], job.stages[1];
    assert Launched(s.launched, s.retired, id, 1, child, InputsOf(id, job, child.stage));
    assert StageOK(id, job.runID, 0, s.maxStageAttempts, parent) && StageOK(id, job.runID, 1, s.maxStageAttempts, child);
    CompleteOutputs(id, job.runID, 0, s.maxStageAttempts, parent);
    SnapshotTraces(id, job.runID, s.maxStageAttempts, parent, child.stage);
  }

  lemma SnapshotTraces(id: JobID, runID: string, max: nat, parent: StageState, child: Stage)
    requires StageOK(id, runID, 0, max, parent) && parent.status == StageSucceeded
    requires parent.stage.kind == StageShuffleMap && parent.stage.shuffleWrite.Some?
    requires ValidSnapshot(Snapshot(runID, id, parent, child))
    ensures var outputs := Snapshot(runID, id, parent, child).outputs;
            forall p :: 0 <= p < |outputs| ==>
              && p in parent.outputs && parent.outputs[p].shuffleOutput == Some(outputs[p])
              && outputs[p].attempt.stageAttemptID == parent.attemptID && outputs[p].attempt.mapPartitionID == p
              && outputs[p].attempt.runID == runID && outputs[p].attempt.taskID == parent.tasks[p].id
              && outputs[p].numReducePartitions == child.numPartitions
  {
    var snapshot := Snapshot(runID, id, parent, child);
    CompleteOutputs(id, runID, 0, max, parent);
    forall p | 0 <= p < |snapshot.outputs|
      ensures p in parent.outputs && parent.outputs[p].shuffleOutput == Some(snapshot.outputs[p])
              && snapshot.outputs[p].attempt.taskID == parent.tasks[p].id
    {
      assert OutputOK(id, runID, parent.attemptID, parent.tasks[p], parent.outputs[p]);
    }
    assert forall p :: 0 <= p < |snapshot.outputs| ==> FitsSnapshot(snapshot, snapshot.outputs[p], p);
  }

  /** Attempts of the two stages go in step and within the budget. */
  lemma AttemptsInStep(s: State, id: JobID)
    requires Inv(s) && id in s.jobs && |s.jobs[id].order| == 2
    ensures var job := s.jobs[id];
            && 0 in job.stages && 1 in job.stages
            && var parent, child := job.stages[0], job.stages[1];
               && child.attempts <= parent.attempts <= child.attempts + 1 && parent.attempts <= s.maxStageAttempts
               && (child.status == StageRunning ==> child.attempts == parent.attempts)
  {
    var job := s.jobs[id];
    assert JobOK(s.launched, s.retired, s.maxStageAttempts, id, job);
    assert StageOK(id, job.runID, 0, s.maxStageAttempts, job.stages[0]);
  }

  // ---------------------------------------------------------------- how a step changes a job

  predicate Accepts(s: State, e: Event, id: JobID) {
    && e.TaskSucceededEvent? && e.success.jobID == id
    && PendingTask(s, id, e.success.stageID, e.success.attempt, e.success.partitionID)
    && var job := s.jobs[id];
       AcceptableOutput(e.success.output, RunIDFor(job, e.success.output), id,
                        job.stages[e.success.stageID].tasks[e.success.partitionID], e.success.attempt)
  }

  /** The job after its event accepted an output. */
  function AfterAccept(s: State, e: Event, id: JobID): JobState
    requires Accepts(s, e, id)
  {
    Accept(s.jobs[id], e.success.stageID, e.success.partitionID, e.success.output)
  }

  predicate GrowsOutputs(s: State, e: Event, id: JobID, after: JobState) {
    Accepts(s, e, id) && s.jobs[id].stages[e.success.stageID].remaining > 1 && after == AfterAccept(s, e, id)
  }

  predicate StartsChild(s: State, e: Event, id: JobID, after: JobState) {
    && Accepts(s, e, id) && ShuffleShape(s.jobs[id]) && e.success.stageID == 0
    && s.jobs[id].stages[0].remaining == 1
    && after == WithStage(AfterAccept(s, e, id), 1, Started(s.jobs[id].stages[1], s.nextStageAttemptID))
  }

  predicate Recovers(s: State, e: Event, id: JobID, after: JobState)
    requires id in s.jobs
  {
    && e.TaskFailedEvent? && e.failure.jobID == id && ShuffleShape(s.jobs[id])
    && s.jobs[id].stages[0].status == StageSucceeded && s.jobs[id].stages[0].attempts < s.maxStageAttempts
    && after == WithStage(ResetJob(s.jobs[id]), 0, Started(ResetStage(s.jobs[id].stages[0]), s.nextStageAttemptID))
  }

  /** All the ways a job can change and stay unanswered. */
  predicate Moves(s: State, e: Event, id: JobID, after: JobState)
    requires id in s.jobs
  {
    || after == s.jobs[id]
    || (e == ContextCancelled(id) && after == s.jobs[id].(cancelled := true))
    || GrowsOutputs(s, e, id, after) || StartsChild(s, e, id, after) || Recovers(s, e, id, after)
  }

  lemma StartReadyOthers(s: State, id: JobID, other: JobID)
    requires id in s.jobs && (forall k :: k in s.jobs[id].order ==> k in s.jobs[id].stages) && other != id
    ensures other in StartReady(s, id).jobs <==> other in s.jobs
    ensures other in s.jobs ==> StartReady(s, id).jobs[other] == s.jobs[other]
    ensures Sent(StartReady(s, id), other) == Sent(s, other)
    ensures other in StartReady(s, id).responses <==> other in s.responses
  {
    hide LaunchReady;
  }

  lemma StartReadySelf(s: State, id: JobID)
    requires id in s.jobs && (forall k :: k in s.jobs[id].order ==> k in s.jobs[id].stages)
    ensures var l := LaunchReady(s, id);
            var after := StartReady(s, id);
            if l.error.None? then id in after.jobs && after.jobs[id] == l.job && Sent(after, id) == Sent(s, id)
                                  && after.responses == s.responses
            else id !in after.jobs && Sent(after, id) == Sent(s, id) + [Failed(l.error.value)] && id in after.responses
  {
    hide LaunchReady;
  }

  lemma SuccessMoves(s: State, report: TaskAttemptSuccess, id: JobID)
    requires Inv(s) && Ordered(s) && id in s.jobs && id in TaskSucceeded(s, report).jobs
    ensures Moves(s, TaskSucceededEvent(report), id, TaskSucceeded(s, report).jobs[id])
  {
    var e := TaskSucceededEvent(report);
    hide Inv, Ordered, AcceptableOutput, AcceptSuccess;
    if Accepts(s, e, report.jobID) && !s.jobs[report.jobID].cancelled {
      if id == report.jobID { AcceptMoves(s, report); } else { AcceptOthers(s, report, id); }
    }
  }

  lemma AcceptOthers(s: State, report: TaskAttemptSuccess, other: JobID)
    requires Inv(s) && Ordered(s) && Accepts(s, TaskSucceededEvent(report), report.jobID) && other != report.jobID
    ensures var after := AcceptSuccess(s, report.jobID, report.stageID, report.partitionID, report.output);
            && (other in after.jobs <==> other in s.jobs) && Sent(after, other) == Sent(s, other)
            && (other in s.jobs ==> after.jobs[other] == s.jobs[other])
            && (other in after.responses <==> other in s.responses)
  {
    hide Inv, Ordered, AcceptableOutput, StartReady, MergeOutputs, RunIDFor;
    var job1 := AfterAccept(s, TaskSucceededEvent(report), report.jobID);
    PendingHasMore(s, report.jobID, report.stageID, report.attempt, report.partitionID);
    if job1.stages[report.stageID].remaining == 0 && report.stageID != s.jobs[report.jobID].resultStageID {
      StartReadyOthers(s.(jobs := s.jobs[report.jobID := job1]), report.jobID, other);
    }
  }

  lemma AcceptMoves(s: State, report: TaskAttemptSuccess)
    requires Inv(s) && Ordered(s) && Accepts(s, TaskSucceededEvent(report), report.jobID) && !s.jobs[report.jobID].cancelled
    requires report.jobID in AcceptSuccess(s, report.jobID, report.stageID, report.partitionID, report.output).jobs
    ensures Moves(s, TaskSucceededEvent(report), report.jobID,
                  AcceptSuccess(s, report.jobID, report.stageID, report.partitionID, report.output).jobs[report.jobID])
  {
    var id, k := report.jobID, report.stageID;
    PendingHasMore(s, id, k, report.attempt, report.partitionID);
    var job1 := AfterAccept(s, TaskSucceededEvent(report), id);
    assert job1.stages[k].remaining == s.jobs[id].stages[k].remaining - 1;
    if s.jobs[id].stages[k].remaining == 1 && k != s.jobs[id].resultStageID { ChildMoves(s, report); }
  }

  lemma PendingHasMore(s: State, id: JobID, k: StageID, attempt: TaskAttemptIdentity, p: PartitionID)
    requires Inv(s) && PendingTask(s, id, k, attempt, p)
    ensures s.jobs[id].stages[k].remaining >= 1
    ensures forall j :: j in s.jobs[id].order ==> j in s.jobs[id].stages
  {
    var job := s.jobs[id];
    assert JobOK(s.launched, s.retired, s.maxStageAttempts, id, job);
    assert StageOK(id, job.runID, k, s.maxStageAttempts, job.stages[k]);
  }

  lemma ChildMoves(s: State, report: TaskAttemptSuccess)
    requires Inv(s) && Ordered(s) && Accepts(s, TaskSucceededEvent(report), report.jobID)
    requires s.jobs[report.jobID].stages[report.stageID].remaining == 1 && report.stageID != s.jobs[report.jobID].resultStageID
    requires !s.jobs[report.jobID].cancelled
    requires report.jobID in AcceptSuccess(s, report.jobID, report.stageID, report.partitionID, report.output).jobs
    ensures StartsChild(s, TaskSucceededEvent(report), report.jobID,
                        AcceptSuccess(s, report.jobID, report.stageID, report.partitionID, report.output).jobs[report.jobID])
  {
    var id := report.jobID;
    var job := s.jobs[id];
    assert JobOK(s.launched, s.retired, s.maxStageAttempts, id, job);
    AcceptedJob(s.launched, s.retired, s.maxStageAttempts, id, job, report.stageID, report.partitionID, report.output, report.attempt);
    var s1 := s.(jobs := s.jobs[id := AfterAccept(s, TaskSucceededEvent(report), id)]);
    assert StageOK(id, job.runID, 0, s.maxStageAttempts, job.stages[0]);
    hide JobOK, StageOK, AcceptableOutput;
    LaunchSecond(s1, id);
    StartReadySelf(s1, id);
  }

  lemma FailureMoves(s: State, report: TaskAttemptFailure, id: JobID)
    requires Inv(s) && Ordered(s) && id in s.jobs && id in TaskFailed(s, report).jobs
    ensures Moves(s, TaskFailedEvent(report), id, TaskFailed(s, report).jobs[id])
  {
    hide Inv, Ordered, TaskFailed, StartReady, ResetPair, Moves, Recovering;
    TaskFailedCases(s, report);
    SameMoves(s, TaskFailedEvent(report), id);
    if TaskFailed(s, report) != s && !FailsJob(s, report.jobID, TaskFailed(s, report)) {
      RecoveringFacts(s, report.jobID);
      RecoveryMoves(s, report, id);
    }
  }

  lemma SameMoves(s: State, e: Event, id: JobID)
    requires id in s.jobs
    ensures Moves(s, e, id, s.jobs[id])
  {
  }

  lemma RecoveringFacts(s: State, id: JobID)
    requires Recovering(s, id)
    ensures id in s.jobs && ShuffleJob(s.jobs[id]) && s.jobs[id].stages[0].status == StageSucceeded
    ensures s.jobs[id].stages[0].attempts < s.maxStageAttempts && !s.jobs[id].cancelled
  {
  }

  lemma RecoveryMoves(s: State, report: TaskAttemptFailure, id: JobID)
    requires Inv(s) && id in s.jobs && report.jobID in s.jobs && ShuffleJob(s.jobs[report.jobID])
    requires s.jobs[report.jobID].stages[0].status == StageSucceeded
    requires s.jobs[report.jobID].stages[0].attempts < s.maxStageAttempts && !s.jobs[report.jobID].cancelled
    ensures var s1 := ResetPair(s, report.jobID, 0, 1);
            && (forall k :: k in s1.jobs[report.jobID].order ==> k in s1.jobs[report.jobID].stages)
            && (id in StartReady(s1, report.jobID).jobs ==>
                  Moves(s, TaskFailedEvent(report), id, StartReady(s1, report.jobID).jobs[id]))
  {
    var j := report.jobID;
    ResetPairInv(s, j);
    ResetPairState(s, j);
    var s1 := ResetPair(s, j, 0, 1);
    hide Inv, AllPending, InvExcept, ResetPair, StartReady;
    if id == j {
      LaunchFirst(s1, j);
      StartReadySelf(s1, j);
    } else {
      StartReadyOthers(s1, j, id);
    }
  }

  /** A step changes an unanswered job in no other way. */
  lemma StepMoves(s: State, e: Event, id: JobID)
    requires Inv(s) && Ordered(s) && Enabled(s, e) && id in s.jobs && id in Step(s, e).jobs
    ensures Moves(s, e, id, Step(s, e).jobs[id])
  {
    hide Inv, Ordered, SubmitJob, TaskSucceeded, TaskFailed, FailJob, Moves;
    SameMoves(s, e, id);
    match e
    case JobSubmitted(j, nodes, action, cancelled) => SubmitMoves(s, j, nodes, action, cancelled, id);
    case TaskSucceededEvent(report) => SuccessMoves(s, report, id);
    case TaskFailedEvent(report) => FailureMoves(s, report, id);
    case TaskSetFinishedEvent(j, k, attempt) => FailMoves(s, j, id);
    case JobCanceled(j) => FailMoves(s, j, id);
    case ContextCancelled(j) => CancelMoves(s, j, id);
    case Stopping =>
  }

  lemma FailMoves(s: State, j: JobID, id: JobID)
    requires id in s.jobs
    ensures forall error :: id in FailJob(s, j, error).jobs ==> FailJob(s, j, error).jobs[id] == s.jobs[id]
  {
  }

  lemma CancelMoves(s: State, j: JobID, id: JobID)
    requires id in s.jobs
    ensures Moves(s, ContextCancelled(j), id, CancelContext(s, j).jobs[id])
  {
  }

  lemma SubmitMoves(s: State, id: JobID, nodes: Nodes, action: ActionSpec, cancelled: bool, other: JobID)
    requires Inv(s) && Ordered(s) && id !in s.jobs && other != id
    ensures var after := SubmitJob(s, id, nodes, action, cancelled);
            && (other in after.jobs <==> other in s.jobs) && Sent(after, other) == Sent(s, other)
            && (other in s.jobs ==> after.jobs[other] == s.jobs[other])
            && (other in after.responses <==> other in s.responses)
  {
    assert s.maxStageAttempts > 0;
    hide Inv, Ordered, SubmitJob, StartReady, AllPending;
    SubmitCases(s, id, nodes, action, cancelled);
    var after := SubmitJob(s, id, nodes, action, cancelled);
    if job :| !s.stopping && Enters(s, id, job, after) {
      StartReadyOthers(s.(jobs := s.jobs[id := job]), id, other);
    }
  }
}
