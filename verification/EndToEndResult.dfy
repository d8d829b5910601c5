/** The end-to-end theorem: in every run, a job that succeeds answers with the
    sequential evaluation of its lineage. */
module EndToEndResult {
  import opened Types
  import opened Lineage
  import opened Planner
  import opened Streams
  import opened Evaluation
  import opened JobMeaning
  import opened EndToEnd
  import Dag
  import DagInvariant
  import DagSteps
  import DagTheorems
  import DagRuns
  import DagRecovery
  import Fifo
  import FifoInvariant

  // ---------------------------------------------------------------- the DAG scheduler's steps

  lemma StepLaunches(s: Dag.State, d: Dag.Event)
    requires Dag.Ordered(s)
    ensures s.launched <= Dag.Step(s, d).launched
  {
    hide Dag.LaunchReady, Dag.Ordered, AcceptableOutput, Dag.RecoveryError, Dag.NewJob, Dag.ExecutionPlan;
  }

  /** A job after a step: the job as it moved, or a new one. */
  lemma JobBefore(s: Dag.State, d: Dag.Event, id: JobID)
    requires DagInvariant.Inv(s) && Dag.Ordered(s) && Dag.Enabled(s, d) && id in Dag.Step(s, d).jobs
    ensures id in s.jobs || (d.JobSubmitted? && d.id == id && id !in s.responses)
    ensures id in s.jobs ==> DagTheorems.Moves(s, d, id, Dag.Step(s, d).jobs[id])
  {
    hide DagInvariant.Inv, Dag.Ordered, Dag.Step;
    DagRuns.StepAccounts(s, d, id);
    if id in s.jobs { DagTheorems.StepMoves(s, d, id); }
  }

  lemma SourcedStep(seen: iset<TaskAttemptSuccess>, s: Dag.State, d: Dag.Event)
    requires DagInvariant.Inv(s) && Dag.Ordered(s) && Dag.Enabled(s, d) && DagRecovery.Sourced(seen, s)
    requires d.TaskSucceededEvent? ==> d.success in seen
    ensures DagRecovery.Sourced(seen, Dag.Step(s, d))
  {
    forall id | id in Dag.Step(s, d).jobs ensures DagRecovery.SourcedJob(seen, id, Dag.Step(s, d).jobs[id]) {
      JobBefore(s, d, id);
      SourcedStepJob(seen, s, d, id);
    }
  }

  lemma SourcedStepJob(seen: iset<TaskAttemptSuccess>, s: Dag.State, d: Dag.Event, id: JobID)
    requires DagInvariant.Inv(s) && Dag.Ordered(s) && Dag.Enabled(s, d) && DagRecovery.Sourced(seen, s)
    requires d.TaskSucceededEvent? ==> d.success in seen
    requires id in Dag.Step(s, d).jobs && (id in s.jobs || (d.JobSubmitted? && d.id == id && id !in s.responses))
    requires id in s.jobs ==> DagTheorems.Moves(s, d, id, Dag.Step(s, d).jobs[id])
    ensures DagRecovery.SourcedJob(seen, id, Dag.Step(s, d).jobs[id])
  {
    hide DagInvariant.Inv, Dag.Ordered, Dag.Step, DagTheorems.Moves, DagRecovery.SourcedJob;
    if id in s.jobs {
      assert DagRecovery.SourcedJob(seen, id, s.jobs[id]);
      if DagInvariant.ShuffleShape(s.jobs[id]) { DagRecovery.WaitingChild(s, id); }
      hide DagRecovery.Sourced;
      DagRecovery.MovesSourced(seen, s, d, id, Dag.Step(s, d).jobs[id]);
      assert DagRecovery.SeenAfter(seen, d) == seen;
    } else {
      NewJobSourced(seen, s, id, d);
    }
  }

  lemma NewJobSourced(seen: iset<TaskAttemptSuccess>, s: Dag.State, id: JobID, d: Dag.Event)
    requires DagInvariant.Inv(s) && Dag.Ordered(s) && Dag.Enabled(s, d) && d.JobSubmitted? && d.id == id
    requires id !in s.jobs && id !in s.responses && id in Dag.Step(s, d).jobs
    ensures DagRecovery.SourcedJob(seen, id, Dag.Step(s, d).jobs[id])
  {
    hide DagInvariant.Inv, Dag.Ordered, Dag.SubmitJob, Dag.ExecutionPlan, DagRecovery.SourcedStage, DagRecovery.Follows;
    DagRecovery.NewJobFollows(s, id, d.nodes, d.action, d.cancelled);
    var after := Dag.Step(s, d).jobs[id];
    forall k | k in after.stages ensures DagRecovery.SourcedStage(seen, id, k, after.stages[k]) {
      DagRecovery.EmptySourced(seen, id, k, after.stages[k]);
    }
  }

  function Recorded(subs: map<JobID, Submission>, d: Dag.Event): map<JobID, Submission> {
    if d.JobSubmitted? then subs[d.id := Submission(d.nodes, d.action)] else subs
  }

  lemma JobsFitStep(s: Dag.State, d: Dag.Event, subs: map<JobID, Submission>)
    requires DagInvariant.Inv(s) && Dag.Ordered(s) && Dag.Enabled(s, d) && JobsFit(s, subs)
    requires d.JobSubmitted? ==> d.id !in subs
    ensures JobsFit(Dag.Step(s, d), Recorded(subs, d))
  {
    DagRecovery.StepKeeps(s, d);
    forall id | id in Dag.Step(s, d).jobs
      ensures JobFits(s.functions, Recorded(subs, d), id, Dag.Step(s, d).jobs[id])
    {
      JobBefore(s, d, id);
      JobFitsStep(s, d, subs, id);
    }
    forall id | id in Dag.Step(s, d).responses ensures id in Recorded(subs, d) {
      DagRuns.StepAccounts(s, d, id);
      assert id in s.jobs ==> JobFits(s.functions, subs, id, s.jobs[id]);
    }
  }

  lemma JobFitsStep(s: Dag.State, d: Dag.Event, subs: map<JobID, Submission>, id: JobID)
    requires DagInvariant.Inv(s) && Dag.Ordered(s) && Dag.Enabled(s, d) && JobsFit(s, subs)
    requires d.JobSubmitted? ==> d.id !in subs
    requires id in Dag.Step(s, d).jobs && (id in s.jobs || (d.JobSubmitted? && d.id == id && id !in s.responses))
    requires id in s.jobs ==> DagTheorems.Moves(s, d, id, Dag.Step(s, d).jobs[id])
    ensures JobFits(s.functions, Recorded(subs, d), id, Dag.Step(s, d).jobs[id])
  {
    hide DagInvariant.Inv, Dag.Ordered, Dag.Step, DagTheorems.Moves, JobFits;
    if id in s.jobs {
      assert JobFits(s.functions, subs, id, s.jobs[id]);
      DagRecovery.MovesKeepPlan(s, d, id, Dag.Step(s, d).jobs[id]);
      OldJobFits(s.functions, subs, d, id, s.jobs[id], Dag.Step(s, d).jobs[id]);
    } else {
      NewJobFits(s, id, d, subs);
    }
  }

  lemma OldJobFits(names: FunctionNames, subs: map<JobID, Submission>, d: Dag.Event, id: JobID,
                   before: Dag.JobState, after: Dag.JobState)
    requires JobFits(names, subs, id, before) && DagRecovery.SamePlan(before, after)
    requires d.JobSubmitted? ==> d.id !in subs
    ensures JobFits(names, Recorded(subs, d), id, after)
  {
    hide Dag.ExecutionPlan, AllTasks, TasksOfStage;
  }

  lemma NewJobFits(s: Dag.State, id: JobID, d: Dag.Event, subs: map<JobID, Submission>)
    requires DagInvariant.Inv(s) && Dag.Ordered(s) && Dag.Enabled(s, d) && d.JobSubmitted? && d.id == id
    requires id !in s.jobs && id !in s.responses && id in Dag.Step(s, d).jobs
    ensures JobFits(s.functions, Recorded(subs, d), id, Dag.Step(s, d).jobs[id])
  {
    DagRecovery.NewJobFollows(s, id, d.nodes, d.action, d.cancelled);
    hide DagInvariant.Inv, Dag.Ordered, Dag.SubmitJob, Dag.ExecutionPlan, DagRecovery.Follows;
  }

  // ---------------------------------------------------------------- what launched sets read

  /** Every map output the job has accepted describes what was published. */
  ghost predicate JobDescribes(w: World, published: Published, job: Dag.JobState) {
    forall k, p :: k in job.stages && p in job.stages[k].outputs && job.stages[k].outputs[p].shuffleOutput.Some? ==>
      Describes(w, published, job.stages[k].outputs[p].shuffleOutput.value)
  }

  lemma YieldsDescribes(w: World, published: Published, t: Task, inputs: Option<InputSnapshot>, output: TaskOutput)
    requires Yields(w, published, t, inputs, output) && output.shuffleOutput.Some?
    ensures Describes(w, published, output.shuffleOutput.value)
  {
    hide Describes, Runs;
  }

  lemma SourcedDescribes(w: World, launched: seq<TaskSet>, published: Published, inbox: iset<TaskAttemptSuccess>, id: JobID,
                         job: Dag.JobState)
    requires DagRecovery.SourcedJob(inbox, id, job) && InboxGood(w, launched, published, inbox)
    ensures JobDescribes(w, published, job)
  {
    hide Describes, Yields;
    forall k, p | k in job.stages && p in job.stages[k].outputs && job.stages[k].outputs[p].shuffleOutput.Some?
      ensures Describes(w, published, job.stages[k].outputs[p].shuffleOutput.value)
    {
      assert DagRecovery.SourcedStage(inbox, id, k, job.stages[k]);
      var r :| r in inbox && DagRecovery.ReportsTask(r, id, k, job.stages[k], p) && r.output == job.stages[k].outputs[p];
      assert Good(w, launched, published, r);
      var t :| Yields(w, published, t, launched[r.attempt.stageAttemptID].inputs, r.output);
      YieldsDescribes(w, published, t, launched[r.attempt.stageAttemptID].inputs, r.output);
    }
  }

  /** A valid snapshot of a job's stage holds outputs the job accepted. */
  lemma SnapshotDescribes(w: World, published: Published, job: Dag.JobState, id: JobID, k: StageID, child: Stage)
    requires JobDescribes(w, published, job) && k in job.stages
    requires ValidSnapshot(Dag.Snapshot(job.runID, id, job.stages[k], child))
    ensures forall i :: 0 <= i < |Dag.AcceptedOutputs(job.stages[k])| ==> Describes(w, published, Dag.AcceptedOutputs(job.stages[k])[i])
  {
    hide Describes;
    var snapshot := Dag.Snapshot(job.runID, id, job.stages[k], child);
    forall i | 0 <= i < |snapshot.outputs| ensures Describes(w, published, snapshot.outputs[i]) {
      assert FitsSnapshot(snapshot, snapshot.outputs[i], i);
      assert snapshot.outputs[i] == Dag.AcceptedOutput(job.stages[k], i) != Dag.NO_OUTPUT;
    }
  }

  lemma StartStageReadsGood(w: World, published: Published, l: Dag.Launch, id: JobID, max: nat, k: StageID)
    requires k in l.job.stages && JobDescribes(w, published, l.job) && InputsGood(w, l.sets, published)
    ensures var l1 := Dag.StartStage(l, id, max, k); JobDescribes(w, published, l1.job) && InputsGood(w, l1.sets, published)
  {
    hide Describes, ValidSnapshot, Dag.Snapshot;
    var st := l.job.stages[k];
    if Dag.Ready(l.job, st.stage) && st.stage.parentIDs != [] {
      var inputs := Dag.StageInputs(l.job, id, st.stage).value;
      if ValidSnapshot(inputs) {
        SnapshotDescribes(w, published, l.job, id, st.stage.parentIDs[0], st.stage);
        SnapshotOutputs(l.job.runID, id, l.job.stages[st.stage.parentIDs[0]], st.stage);
      }
    }
  }

  lemma SnapshotOutputs(runID: string, id: JobID, parent: Dag.StageState, child: Stage)
    ensures Dag.Snapshot(runID, id, parent, child).outputs == Dag.AcceptedOutputs(parent)
  {
  }

  lemma {:induction false} StartStagesReadGood(w: World, published: Published, l: Dag.Launch, id: JobID, max: nat, order: seq<StageID>)
    requires (forall k :: k in order ==> k in l.job.stages) && JobDescribes(w, published, l.job) && InputsGood(w, l.sets, published)
    ensures InputsGood(w, Dag.StartStages(l, id, max, order).sets, published)
    decreases |order|
  {
    hide JobDescribes, InputsGood, Dag.StartStage;
    if order != [] && l.error.None? {
      StartStageReadsGood(w, published, l, id, max, order[0]);
      StartStagesReadGood(w, published, Dag.StartStage(l, id, max, order[0]), id, max, order[1..]);
    }
  }

  lemma StartReadyReadsGood(w: World, published: Published, s: Dag.State, id: JobID)
    requires id in s.jobs && (forall k :: k in s.jobs[id].order ==> k in s.jobs[id].stages)
    requires JobDescribes(w, published, s.jobs[id]) && InputsGood(w, s.launched, published)
    ensures InputsGood(w, Dag.StartReady(s, id).launched, published)
  {
    hide JobDescribes, SetReadsGood, Dag.StartStages;
    var l := Dag.Launch(s.jobs[id], s.nextStageAttemptID, [], None);
    if !s.jobs[id].cancelled { StartStagesReadGood(w, published, l, id, s.maxStageAttempts, s.jobs[id].order); }
  }

  lemma PendingDescribes(w: World, published: Published, id: JobID, max: nat, job: Dag.JobState)
    requires DagSteps.AllPending(id, max, job)
    ensures JobDescribes(w, published, job)
  {
    hide Describes, DagInvariant.TasksOK, DagInvariant.OutputsOK, DagInvariant.NarrowShape, DagInvariant.ShuffleShape;
    forall k | k in job.stages ensures job.stages[k].outputs == map[] {
      assert DagInvariant.StageOK(id, job.runID, k, max, job.stages[k]);
    }
  }

  /** What a step launches reads only outputs that describe what was published. */
  lemma StepInputsGood(w: World, s: System, d: Dag.Event)
    requires Inv(w, s) && Ready(s) && Enabled(w, s, DagEvent(d))
    ensures InputsGood(w, Dag.Step(s.dag, d).launched, s.published)
  {
    assert DagInvariant.Inv(s.dag) && Dag.Ordered(s.dag) && InputsGood(w, s.dag.launched, s.published);
    hide Inv, Ready, DagInvariant.Inv, Dag.Ordered, InputsGood, Dag.SubmitJob, Dag.TaskSucceeded, Dag.TaskFailed;
    match d
    case JobSubmitted(id, nodes, action, cancelled) => SubmitReadsGood(w, s.published, s.dag, id, nodes, action, cancelled);
    case TaskSucceededEvent(report) => SuccessReadsGood(w, s, report);
    case TaskFailedEvent(report) => FailureReadsGood(w, s.published, s.dag, report);
    case TaskSetFinishedEvent(_, _, _) =>
    case JobCanceled(_) =>
    case ContextCancelled(_) =>
    case Stopping =>
  }

  lemma SubmitReadsGood(w: World, published: Published, s: Dag.State, id: JobID, nodes: Nodes, action: ActionSpec, cancelled: bool)
    requires DagInvariant.Inv(s) && InputsGood(w, s.launched, published)
    ensures InputsGood(w, Dag.SubmitJob(s, id, nodes, action, cancelled).launched, published)
  {
    assert s.maxStageAttempts > 0;
    hide DagInvariant.Inv, InputsGood, Dag.SubmitJob, Dag.StartReady, DagSteps.AllPending, JobDescribes;
    DagSteps.SubmitCases(s, id, nodes, action, cancelled);
    var after := Dag.SubmitJob(s, id, nodes, action, cancelled);
    if job :| DagSteps.Enters(s, id, job, after) {
      PendingDescribes(w, published, id, s.maxStageAttempts, job);
      StartReadyReadsGood(w, published, s.(jobs := s.jobs[id := job]), id);
    }
  }

  lemma SuccessReadsGood(w: World, s: System, report: TaskAttemptSuccess)
    requires Inv(w, s) && Ready(s) && Enabled(w, s, DagEvent(Dag.TaskSucceededEvent(report)))
    ensures InputsGood(w, Dag.TaskSucceeded(s.dag, report).launched, s.published)
  {
    hide *;
    var d, id := Dag.TaskSucceededEvent(report), report.jobID;
    StoreParts(w, s, report);
    AcceptedJob(s.dag, d, id);
    if DagTheorems.Accepts(s.dag, d, id) && !s.dag.jobs[id].cancelled {
      SourcedNow(s, d, id);
      var job1 := DagTheorems.AfterAccept(s.dag, d, id);
      SourcedDescribes(w, s.dag.launched, s.published, s.inbox, id, job1);
      AcceptedOrder(s.dag, report);
      StartReadyReadsGood(w, s.published, s.dag.(jobs := s.dag.jobs[id := job1]), id);
    }
    SuccessLaunches(w, s.published, s.dag, report);
  }

  lemma AcceptedJob(s: Dag.State, d: Dag.Event, id: JobID)
    ensures DagTheorems.Accepts(s, d, id) ==> id in s.jobs
  {
    hide AcceptableOutput;
  }

  lemma StoreParts(w: World, s: System, report: TaskAttemptSuccess)
    requires Inv(w, s) && Enabled(w, s, DagEvent(Dag.TaskSucceededEvent(report)))
    ensures DagInvariant.Inv(s.dag) && Dag.Ordered(s.dag) && DagRecovery.Sourced(s.inbox, s.dag) && report in s.inbox
    ensures InputsGood(w, s.dag.launched, s.published) && InboxGood(w, s.dag.launched, s.published, s.inbox)
  {
    hide DagInvariant.Inv, Dag.Ordered, DagRecovery.Sourced, InputsGood, InboxGood;
  }

  lemma AcceptedOrder(s: Dag.State, report: TaskAttemptSuccess)
    requires Dag.Ordered(s) && DagTheorems.Accepts(s, Dag.TaskSucceededEvent(report), report.jobID)
    ensures report.jobID in s.jobs
    ensures var job1 := DagTheorems.AfterAccept(s, Dag.TaskSucceededEvent(report), report.jobID);
            forall k :: k in job1.order ==> k in job1.stages
  {
    hide AcceptableOutput;
  }

  /** A success launches nothing, or what is ready once its output is recorded. */
  lemma SuccessLaunches(w: World, published: Published, s: Dag.State, report: TaskAttemptSuccess)
    requires Dag.Ordered(s) && InputsGood(w, s.launched, published)
    requires var d, id := Dag.TaskSucceededEvent(report), report.jobID;
             DagTheorems.Accepts(s, d, id) && !s.jobs[id].cancelled ==>
               var job1 := DagTheorems.AfterAccept(s, d, id);
               (forall k :: k in job1.order ==> k in job1.stages)
               && InputsGood(w, Dag.StartReady(s.(jobs := s.jobs[id := job1]), id).launched, published)
    ensures InputsGood(w, Dag.TaskSucceeded(s, report).launched, published)
  {
    hide Dag.Ordered, InputsGood, Dag.StartReady, AcceptableOutput, Dag.MergeOutputs, Dag.Accept;
  }

  lemma FailureReadsGood(w: World, published: Published, s: Dag.State, report: TaskAttemptFailure)
    requires DagInvariant.Inv(s) && Dag.Ordered(s) && InputsGood(w, s.launched, published)
    ensures InputsGood(w, Dag.TaskFailed(s, report).launched, published)
  {
    hide DagInvariant.Inv, Dag.Ordered, InputsGood, Dag.TaskFailed, Dag.StartReady, DagSteps.Recovering, JobDescribes, DagInvariant.ShuffleJob;
    DagSteps.TaskFailedCases(s, report);
    var after, id := Dag.TaskFailed(s, report), report.jobID;
    if after != s && !DagSteps.FailsJob(s, id, after) {
      DagTheorems.RecoveringFacts(s, id);
      DagSteps.ResetPairInv(s, id);
      hide DagSteps.AllPending;
      var s1 := Dag.ResetPair(s, id, 0, 1);
      PendingDescribes(w, published, id, s1.maxStageAttempts, s1.jobs[id]);
      StartReadyReadsGood(w, published, s1, id);
    }
  }

  lemma DagEventInv(w: World, s: System, d: Dag.Event)
    requires Inv(w, s) && Ready(s) && Enabled(w, s, DagEvent(d))
    ensures Inv(w, Step(w, s, DagEvent(d)))
  {
    hide DagInvariant.Inv, FifoInvariant.Inv, Fifo.Wired, Dag.Ordered, GoodWrite, Good, LogGood, InboxGood, DagRecovery.Sourced;
    hide JobsFit, SetsFit, InputsGood, Dag.Step, Dag.Enabled;
    DagSteps.StepInv(s.dag, d);
    StepInputsGood(w, s, d);
    StepLaunches(s.dag, d);
    HistoryGrows(w, s, Dag.Step(s.dag, d).launched, s.published);
    SourcedStep(s.inbox, s.dag, d);
    JobsFitStep(s.dag, d, s.submissions);
  }

  // ---------------------------------------------------------------- answers

  /** A job's result stage as the data layer sees it, once its last output is in. */
  lemma ResultStageFacts(w: World, s: System, d: Dag.Event, id: JobID)
    requires Inv(w, s) && Ready(s) && Enabled(w, s, DagEvent(d)) && DagTheorems.Accepts(s.dag, d, id) && !s.dag.jobs[id].cancelled
    requires d.success.stageID == s.dag.jobs[id].resultStageID
    requires DagTheorems.AfterAccept(s.dag, d, id).stages[d.success.stageID].remaining == 0
    ensures var job1, k := DagTheorems.AfterAccept(s.dag, d, id), d.success.stageID;
            StageFacts(w, s.dag.launched, s.published, s.inbox, id, job1.runID, k, s.dag.maxStageAttempts, job1.stages[k],
                       DagInvariant.InputsOf(id, job1, job1.stages[k].stage))
            && (DagInvariant.InputsOf(id, job1, job1.stages[k].stage).Some? ==>
                  ValidSnapshot(DagInvariant.InputsOf(id, job1, job1.stages[k].stage).value))
  {
    hide LogGood, SetsFit, JobsFit, FifoInvariant.Inv, Fifo.Wired, Good, GoodWrite, DagInvariant.Inv, Dag.Ordered, Dag.Enabled;
    ResultStageDag(s.dag, d, id);
    SourcedNow(s, d, id);
    hide DagTheorems.Accepts, DagTheorems.AfterAccept, DagInvariant.StageOK, DagInvariant.InputsOf, DagRecovery.SourcedStage;
  }

  lemma ResultStageDag(s: Dag.State, d: Dag.Event, id: JobID)
    requires DagInvariant.Inv(s) && Dag.Ordered(s) && DagTheorems.Accepts(s, d, id) && !s.jobs[id].cancelled
    requires d.success.stageID == s.jobs[id].resultStageID
    requires DagTheorems.AfterAccept(s, d, id).stages[d.success.stageID].remaining == 0
    ensures var job1, k := DagTheorems.AfterAccept(s, d, id), d.success.stageID;
            var st, inputs := job1.stages[k], DagInvariant.InputsOf(id, job1, job1.stages[k].stage);
            && DagInvariant.StageOK(id, job1.runID, k, s.maxStageAttempts, st) && st.attemptID < |s.launched|
            && s.launched[st.attemptID] == TaskSet(inputs, id, k, st.attemptID, st.tasks)
            && (inputs.Some? ==> ValidSnapshot(inputs.value))
  {
    hide DagInvariant.StageOK, AcceptableOutput, ValidSnapshot, Dag.RunIDFor;
    var job, job1, k := s.jobs[id], DagTheorems.AfterAccept(s, d, id), d.success.stageID;
    DagRuns.CompletedShape(s, d, id);
    assert DagInvariant.JobOK(s.launched, s.retired, s.maxStageAttempts, id, job);
    assert DagInvariant.Launched(s.launched, s.retired, id, k, job.stages[k], DagInvariant.InputsOf(id, job, job.stages[k].stage));
    assert DagInvariant.InputsOf(id, job1, job1.stages[k].stage) == DagInvariant.InputsOf(id, job, job.stages[k].stage);
  }

  lemma SourcedNow(s: System, d: Dag.Event, id: JobID)
    requires DagRecovery.Sourced(s.inbox, s.dag) && DagTheorems.Accepts(s.dag, d, id) && d.success in s.inbox
    ensures DagRecovery.SourcedJob(s.inbox, id, DagTheorems.AfterAccept(s.dag, d, id))
  {
    DagRecovery.AcceptSourced(s.inbox, s.dag, d, id);
    assert s.inbox + iset{d.success} == s.inbox;
  }

  /** Its finished map stage. */
  lemma MapStageFacts(w: World, s: System, id: JobID)
    requires Inv(w, s) && id in s.dag.jobs && DagInvariant.ShuffleJob(s.dag.jobs[id])
    requires s.dag.jobs[id].stages[0].status == Dag.StageSucceeded
    ensures var job := s.dag.jobs[id];
            && StageFacts(w, s.dag.launched, s.published, s.inbox, id, job.runID, 0, s.dag.maxStageAttempts, job.stages[0], None)
            && (forall m :: 0 <= m < |job.stages[0].tasks| ==> m in job.stages[0].outputs)
  {
    hide LogGood, SetsFit, JobsFit, FifoInvariant.Inv, Fifo.Wired, Dag.Ordered, Good, GoodWrite;
    var job := s.dag.jobs[id];
    MapStageDag(s.dag, id);
    assert DagRecovery.SourcedJob(s.inbox, id, job);
    hide DagInvariant.Inv, DagInvariant.StageOK, DagInvariant.ShuffleJob, DagRecovery.Sourced, DagRecovery.SourcedStage;
  }

  lemma MapStageDag(s: Dag.State, id: JobID)
    requires DagInvariant.Inv(s) && id in s.jobs && DagInvariant.ShuffleJob(s.jobs[id])
    requires s.jobs[id].stages[0].status == Dag.StageSucceeded
    ensures var job := s.jobs[id];
            var st := job.stages[0];
            && DagInvariant.StageOK(id, job.runID, 0, s.maxStageAttempts, st) && st.attemptID < |s.launched|
            && s.launched[st.attemptID] == TaskSet(None, id, 0, st.attemptID, st.tasks)
            && (forall m :: 0 <= m < |st.tasks| ==> m in st.outputs)
  {
    var job := s.jobs[id];
    assert DagInvariant.JobOK(s.launched, s.retired, s.maxStageAttempts, id, job);
    assert DagInvariant.Launched(s.launched, s.retired, id, 0, job.stages[0], None);
    assert DagInvariant.StageOK(id, job.runID, 0, s.maxStageAttempts, job.stages[0]);
    DagInvariant.CompleteOutputs(id, job.runID, 0, s.maxStageAttempts, job.stages[0]);
  }

  /** The chain an executable submission plans. */
  lemma PlanFacts(names: FunctionNames, sub: Submission)
    requires Dag.ExecutionPlan(names, sub.nodes, sub.action).Some?
    ensures Founded(sub.nodes, sub.action.targetRDD) && sub.action.kind != ActionUnsupported
    ensures var c := ChainOf(sub.nodes, sub.action.targetRDD);
            && WellFormed(c) && c.width == sub.nodes[sub.action.targetRDD].numPartitions
            && Dag.ExecutionPlan(names, sub.nodes, sub.action) == Some(PlanOf(c, sub.action))
            && Dag.Executable(PlanOf(c, sub.action))
  {
    var target := sub.action.targetRDD;
    var n: nat :| Grounded(sub.nodes, target, n) && ChainOf(sub.nodes, target) == ChainFrom(sub.nodes, target, n);
    ValidatedChain(sub.nodes, target, n);
  }

  /** A valid snapshot shows that the child is as wide as the shuffle. */
  lemma SnapshotWidths(id: JobID, runID: string, max: nat, parent: Dag.StageState, child: Stage)
    requires DagInvariant.StageOK(id, runID, 0, max, parent) && 0 in parent.outputs
    requires parent.stage.kind == StageShuffleMap && parent.stage.shuffleWrite.Some?
    requires ValidSnapshot(Dag.Snapshot(runID, id, parent, child))
    ensures child.numPartitions == parent.stage.shuffleWrite.value.partitioner.numPartitions
  {
    var s := Dag.Snapshot(runID, id, parent, child);
    assert DagInvariant.OutputOK(id, runID, parent.attemptID, parent.tasks[0], parent.outputs[0]);
    assert FitsSnapshot(s, s.outputs[0], 0) && s.outputs[0] == Dag.AcceptedOutput(parent, 0);
  }

  lemma FactsHaveStage(w: World, launched: seq<TaskSet>, published: Published, seen: iset<TaskAttemptSuccess>, id: JobID,
                       runID: string, k: StageID, max: nat, st: Dag.StageState, inputs: Option<InputSnapshot>)
    requires StageFacts(w, launched, published, seen, id, runID, k, max, st, inputs)
    ensures DagInvariant.StageOK(id, runID, k, max, st) && DagInvariant.TasksOK(st) && |st.tasks| > 0
  {
  }

  lemma NarrowParts(w: World, launched: seq<TaskSet>, published: Published, seen: iset<TaskAttemptSuccess>, id: JobID,
                    runID: string, max: nat, st: Dag.StageState, c: Chain, action: ActionSpec, p: nat)
    requires StageFacts(w, launched, published, seen, id, runID, 0, max, st, None)
    requires WellFormed(c) && PlanOf(c, action).stages == [st.stage] && p in st.outputs
    ensures PartComputed(w, c, action, p, st.outputs[p])
  {
    OutputYields(w, launched, published, seen, id, runID, 0, max, st, None, p);
    NarrowPart(w, published, c, action, st, p);
  }

  lemma ShuffleParts(w: World, launched: seq<TaskSet>, published: Published, seen: iset<TaskAttemptSuccess>, id: JobID,
                     runID: string, max: nat, parent: Dag.StageState, st: Dag.StageState, c: Chain, action: ActionSpec, p: nat)
    requires StageFacts(w, launched, published, seen, id, runID, 0, max, parent, None)
    requires StageFacts(w, launched, published, seen, id, runID, 1, max, st, Some(Dag.Snapshot(runID, id, parent, st.stage)))
    requires ValidSnapshot(Dag.Snapshot(runID, id, parent, st.stage))
    requires forall m :: 0 <= m < |parent.tasks| ==> m in parent.outputs
    requires WellFormed(c) && PlanOf(c, action).stages == [parent.stage, st.stage] && p in st.outputs
    requires parent.stage.kind == StageShuffleMap && parent.stage.shuffleWrite.Some? && parent.stage.parentIDs == []
    requires st.stage.parentIDs == [0]
    ensures PartComputed(w, c, action, p, st.outputs[p])
  {
    hide *;
    FactsHaveStage(w, launched, published, seen, id, runID, 0, max, parent, None);
    SnapshotWidths(id, runID, max, parent, st.stage);
    DagRecovery.WidthsAgreeExactly(c, action);
    PlanKeepsMeaning(w, c, action, p);
    FactsHaveStage(w, launched, published, seen, id, runID, 1, max, st, Some(Dag.Snapshot(runID, id, parent, st.stage)));
    OutputYields(w, launched, published, seen, id, runID, 1, max, st, Some(Dag.Snapshot(runID, id, parent, st.stage)), p);
    MapStageHolds(w, launched, published, seen, id, runID, max, parent, PlanOf(c, action).stages);
    ShufflePart(w, published, c, action, parent, st, runID, id, p);
  }

  /** The stages of a job that fits an executable plan. */
  lemma JobStages(s: System, id: JobID, c: Chain)
    requires DagInvariant.Inv(s.dag) && id in s.dag.jobs && Dag.Executable(PlanOf(c, s.dag.jobs[id].action))
    requires forall i :: 0 <= i < |PlanOf(c, s.dag.jobs[id].action).stages| ==> PlanOf(c, s.dag.jobs[id].action).stages[i].numPartitions > 0
    requires DagRecovery.Follows(s.dag.jobs[id], PlanOf(c, s.dag.jobs[id].action))
    ensures var job := s.dag.jobs[id];
            var stages := PlanOf(c, job.action).stages;
            || (DagInvariant.NarrowJob(job) && stages == [job.stages[0].stage])
            || (DagInvariant.ShuffleJob(job) && stages == [job.stages[0].stage, job.stages[1].stage])
  {
    DagSteps.JobKinds(s.dag, id);
    hide DagInvariant.Inv, PlanOf, TasksOfStage, AllTasks;
    var job := s.dag.jobs[id];
    assert 0 in job.stages;
    assert DagInvariant.ShuffleJob(job) ==> 1 in job.stages;
  }

  /** Every output of a completed result stage is what its task computes. */
  lemma PartsComputed(w: World, s: System, d: Dag.Event, id: JobID, c: Chain, parts: seq<TaskOutput>)
    requires Inv(w, s) && Ready(s) && Enabled(w, s, DagEvent(d)) && DagTheorems.Accepts(s.dag, d, id) && !s.dag.jobs[id].cancelled
    requires d.success.stageID == s.dag.jobs[id].resultStageID
    requires DagTheorems.AfterAccept(s.dag, d, id).stages[d.success.stageID].remaining == 0
    requires DagRuns.CompleteStage(id, DagTheorems.AfterAccept(s.dag, d, id), parts)
    requires var action := s.dag.jobs[id].action;
             && WellFormed(c) && Dag.Executable(PlanOf(c, action))
             && (forall i :: 0 <= i < |PlanOf(c, action).stages| ==> PlanOf(c, action).stages[i].numPartitions > 0)
             && DagRecovery.Follows(s.dag.jobs[id], PlanOf(c, action))
    ensures |parts| == c.width && ReaderFits(c, c.width)
    ensures forall p: nat :: p < |parts| ==> PartComputed(w, c, s.dag.jobs[id].action, p, parts[p])
  {
    hide *;
    InvParts(w, s, d);
    SameStages(s, d, id);
    var job, job1 := s.dag.jobs[id], DagTheorems.AfterAccept(s.dag, d, id);
    JobStages(s, id, c);
    CompletedParts(id, job1, parts);
    LastStage(c, job.action);
    if |PlanOf(c, job.action).stages| == 1 {
      NarrowReader(c, job.action);
      NarrowStages(w, s, d, id, c);
    } else {
      ShuffleReader(w, s, d, id, c);
      ShuffleStages(w, s, d, id, c);
    }
  }

  /** Accepting an output leaves the plan of a job as it is. */
  lemma SameStages(s: System, d: Dag.Event, id: JobID)
    requires DagTheorems.Accepts(s.dag, d, id)
    ensures id in s.dag.jobs
    ensures var job1 := DagTheorems.AfterAccept(s.dag, d, id);
            && job1.resultStageID == s.dag.jobs[id].resultStageID && job1.stages.Keys == s.dag.jobs[id].stages.Keys
            && forall k :: k in job1.stages ==> job1.stages[k].stage == s.dag.jobs[id].stages[k].stage
  {
  }

  lemma NarrowStages(w: World, s: System, d: Dag.Event, id: JobID, c: Chain)
    requires Inv(w, s) && Ready(s) && Enabled(w, s, DagEvent(d)) && DagTheorems.Accepts(s.dag, d, id) && !s.dag.jobs[id].cancelled
    requires d.success.stageID == s.dag.jobs[id].resultStageID
    requires DagTheorems.AfterAccept(s.dag, d, id).stages[d.success.stageID].remaining == 0
    requires DagInvariant.NarrowJob(s.dag.jobs[id]) && WellFormed(c)
    requires PlanOf(c, s.dag.jobs[id].action).stages == [s.dag.jobs[id].stages[0].stage]
    ensures d.success.stageID == 0
    ensures forall p: nat :: p in DagTheorems.AfterAccept(s.dag, d, id).stages[0].outputs ==>
      PartComputed(w, c, s.dag.jobs[id].action, p, DagTheorems.AfterAccept(s.dag, d, id).stages[0].outputs[p])
  {
    var job, job1 := s.dag.jobs[id], DagTheorems.AfterAccept(s.dag, d, id);
    ResultStageFacts(w, s, d, id);
    SameStages(s, d, id);
    assert DagInvariant.InputsOf(id, job1, job1.stages[0].stage) == None;
    hide Inv, Ready, Enabled, StageFacts, DagTheorems.Accepts, DagTheorems.AfterAccept;
    forall p: nat | p in job1.stages[0].outputs ensures PartComputed(w, c, job.action, p, job1.stages[0].outputs[p]) {
      NarrowParts(w, s.dag.launched, s.published, s.inbox, id, job1.runID, s.dag.maxStageAttempts, job1.stages[0], c, job.action, p);
    }
  }

  lemma ShuffleStages(w: World, s: System, d: Dag.Event, id: JobID, c: Chain)
    requires Inv(w, s) && Ready(s) && Enabled(w, s, DagEvent(d)) && DagTheorems.Accepts(s.dag, d, id) && !s.dag.jobs[id].cancelled
    requires d.success.stageID == s.dag.jobs[id].resultStageID
    requires DagTheorems.AfterAccept(s.dag, d, id).stages[d.success.stageID].remaining == 0
    requires DagInvariant.ShuffleJob(s.dag.jobs[id]) && WellFormed(c)
    requires PlanOf(c, s.dag.jobs[id].action).stages == [s.dag.jobs[id].stages[0].stage, s.dag.jobs[id].stages[1].stage]
    ensures d.success.stageID == 1
    ensures forall p: nat :: p in DagTheorems.AfterAccept(s.dag, d, id).stages[1].outputs ==>
      PartComputed(w, c, s.dag.jobs[id].action, p, DagTheorems.AfterAccept(s.dag, d, id).stages[1].outputs[p])
  {
    hide *;
    SameStages(s, d, id);
    ShuffleFacts(w, s, d, id);
    var job1 := DagTheorems.AfterAccept(s.dag, d, id);
    var parent, st := job1.stages[0], job1.stages[1];
    forall p: nat | p in st.outputs ensures PartComputed(w, c, s.dag.jobs[id].action, p, st.outputs[p]) {
      ShuffleParts(w, s.dag.launched, s.published, s.inbox, id, job1.runID, s.dag.maxStageAttempts, parent, st, c, s.dag.jobs[id].action, p);
    }
  }

  lemma NarrowReader(c: Chain, action: ActionSpec)
    requires WellFormed(c) && |PlanOf(c, action).stages| == 1
    ensures ReaderFits(c, c.width)
  {
    UpstreamShape(c);
    ReaderWidth(c, c.width);
  }

  /** A result stage that completes was as wide as its shuffle. */
  lemma ShuffleReader(w: World, s: System, d: Dag.Event, id: JobID, c: Chain)
    requires Inv(w, s) && Ready(s) && Enabled(w, s, DagEvent(d)) && DagTheorems.Accepts(s.dag, d, id) && !s.dag.jobs[id].cancelled
    requires d.success.stageID == s.dag.jobs[id].resultStageID
    requires DagTheorems.AfterAccept(s.dag, d, id).stages[d.success.stageID].remaining == 0
    requires DagInvariant.ShuffleJob(s.dag.jobs[id]) && WellFormed(c)
    requires PlanOf(c, s.dag.jobs[id].action).stages == [s.dag.jobs[id].stages[0].stage, s.dag.jobs[id].stages[1].stage]
    ensures ReaderFits(c, c.width)
  {
    hide *;
    SameStages(s, d, id);
    ShuffleFacts(w, s, d, id);
    var job1 := DagTheorems.AfterAccept(s.dag, d, id);
    FactsHaveStage(w, s.dag.launched, s.published, s.inbox, id, job1.runID, 0, s.dag.maxStageAttempts, job1.stages[0], None);
    SnapshotWidths(id, job1.runID, s.dag.maxStageAttempts, job1.stages[0], job1.stages[1].stage);
    DagRecovery.WidthsAgreeExactly(c, s.dag.jobs[id].action);
  }

  /** Both stages of a completing shuffle job, as the data layer sees them. */
  lemma ShuffleFacts(w: World, s: System, d: Dag.Event, id: JobID)
    requires Inv(w, s) && Ready(s) && Enabled(w, s, DagEvent(d)) && DagTheorems.Accepts(s.dag, d, id) && !s.dag.jobs[id].cancelled
    requires d.success.stageID == s.dag.jobs[id].resultStageID && DagInvariant.ShuffleJob(s.dag.jobs[id])
    requires DagTheorems.AfterAccept(s.dag, d, id).stages[d.success.stageID].remaining == 0
    ensures d.success.stageID == 1
    ensures var job1 := DagTheorems.AfterAccept(s.dag, d, id);
            && 0 in job1.stages && 1 in job1.stages
            && var parent, st := job1.stages[0], job1.stages[1];
               && job1.stages.Keys == s.dag.jobs[id].stages.Keys
               && parent.stage == s.dag.jobs[id].stages[0].stage && st.stage == s.dag.jobs[id].stages[1].stage
               && StageFacts(w, s.dag.launched, s.published, s.inbox, id, job1.runID, 0, s.dag.maxStageAttempts, parent, None)
               && StageFacts(w, s.dag.launched, s.published, s.inbox, id, job1.runID, 1, s.dag.maxStageAttempts, st,
                             Some(Dag.Snapshot(job1.runID, id, parent, st.stage)))
               && ValidSnapshot(Dag.Snapshot(job1.runID, id, parent, st.stage))
               && (forall m :: 0 <= m < |parent.tasks| ==> m in parent.outputs)
               && parent.stage.kind == StageShuffleMap && parent.stage.shuffleWrite.Some? && parent.stage.parentIDs == []
               && st.stage.parentIDs == [0]
  {
    hide Inv, Ready, Enabled, StageFacts, Dag.Snapshot, ValidSnapshot, DagTheorems.Accepts, DagTheorems.AfterAccept;
    var job1 := DagTheorems.AfterAccept(s.dag, d, id);
    SameStages(s, d, id);
    ResultKeepsRun(s, d, id);
    ResultStageFacts(w, s, d, id);
    MapStageFacts(w, s, id);
    assert DagInvariant.InputsOf(id, job1, job1.stages[1].stage) ==
           Some(Dag.Snapshot(job1.runID, id, job1.stages[0], job1.stages[1].stage));
  }

  lemma LastStage(c: Chain, action: ActionSpec)
    ensures var stages := PlanOf(c, action).stages;
            stages != [] && stages[|stages| - 1].numPartitions == c.width
  {
  }

  lemma CompletedParts(id: JobID, job: Dag.JobState, parts: seq<TaskOutput>)
    requires DagRuns.CompleteStage(id, job, parts)
    ensures job.resultStageID in job.stages && |parts| == job.stages[job.resultStageID].stage.numPartitions
    ensures forall p: nat :: p < |parts| ==>
      p in job.stages[job.resultStageID].outputs && parts[p] == job.stages[job.resultStageID].outputs[p]
  {
  }

  /** Accepting a result output changes neither the run nor the map stage. */
  lemma ResultKeepsRun(s: System, d: Dag.Event, id: JobID)
    requires DagTheorems.Accepts(s.dag, d, id) && DagInvariant.ShuffleJob(s.dag.jobs[id]) && d.success.stageID == 1
    ensures DagTheorems.AfterAccept(s.dag, d, id).runID == s.dag.jobs[id].runID
    ensures DagTheorems.AfterAccept(s.dag, d, id).stages[0] == s.dag.jobs[id].stages[0]
    ensures s.dag.jobs[id].stages[0].status == Dag.StageSucceeded
  {
  }

  /** A job answered with success is answered with what its lineage's partitions hold, all of them, in order. */
  lemma CompletedIsRight(w: World, s: System, d: Dag.Event, id: JobID)
    requires Inv(w, s) && Ready(s) && Enabled(w, s, DagEvent(d))
    requires id !in s.dag.responses && DagRuns.GotSuccess(Dag.Step(s.dag, d), id)
    requires id in s.submissions
    ensures Right(w, s.submissions[id], Dag.Step(s.dag, d).responses[id][0].result)
  {
    hide *;
    InvParts(w, s, d);
    DagRuns.OnlySuccessCompletes(s.dag, d, id);
    DagRuns.SuccessIsTheMerge(s.dag, d, id);
    AcceptedJob(s.dag, d, id);
    AnswerSent(Dag.Step(s.dag, d), id);
    JobPlan(s, id);
    var sub := s.submissions[id];
    var c := ChainOf(sub.nodes, sub.action.targetRDD);
    var parts :| DagRuns.CompleteStage(id, DagTheorems.AfterAccept(s.dag, d, id), parts)
                 && Dag.Step(s.dag, d).responses[id] == [Dag.Completed(DagRuns.InOrder(s.dag.jobs[id].action.kind, parts))];
    PartsComputed(w, s, d, id, c, parts);
    AnswerIsComputed(w, c, sub.action, parts);
    RightFrom(w, sub, DagRuns.InOrder(sub.action.kind, parts));
  }

  lemma AnswerSent(s: Dag.State, id: JobID)
    requires DagRuns.GotSuccess(s, id)
    ensures id in s.responses
  {
  }

  lemma InvParts(w: World, s: System, d: Dag.Event)
    requires Inv(w, s) && Enabled(w, s, DagEvent(d))
    ensures DagInvariant.Inv(s.dag) && Dag.Ordered(s.dag) && Dag.Enabled(s.dag, d) && JobsFit(s.dag, s.submissions)
  {
    hide DagInvariant.Inv, Dag.Ordered, Dag.Enabled, JobsFit;
  }

  /** A running job follows the plan of its submission. */
  lemma JobPlan(s: System, id: JobID)
    requires JobsFit(s.dag, s.submissions) && id in s.dag.jobs
    ensures id in s.submissions && s.dag.jobs[id].action == s.submissions[id].action
    ensures var sub := s.submissions[id];
            && Founded(sub.nodes, sub.action.targetRDD) && sub.action.kind != ActionUnsupported
            && var c := ChainOf(sub.nodes, sub.action.targetRDD);
               && WellFormed(c) && c.width == sub.nodes[sub.action.targetRDD].numPartitions
               && Dag.Executable(PlanOf(c, sub.action))
               && (forall i :: 0 <= i < |PlanOf(c, sub.action).stages| ==> PlanOf(c, sub.action).stages[i].numPartitions > 0)
               && DagRecovery.Follows(s.dag.jobs[id], PlanOf(c, sub.action))
  {
    hide Dag.ExecutionPlan, DagRecovery.Follows, PlanOf, Founded, WellFormed, ChainOf, Dag.Executable;
    assert JobFits(s.dag.functions, s.submissions, id, s.dag.jobs[id]);
    PlanFacts(s.dag.functions, s.submissions[id]);
  }

  lemma RightFrom(w: World, sub: Submission, result: Dag.JobResult)
    requires Founded(sub.nodes, sub.action.targetRDD) && sub.action.kind != ActionUnsupported
    requires var c := ChainOf(sub.nodes, sub.action.targetRDD);
             WellFormed(c) && ReaderFits(c, c.width) && ComputedAs(w, c, sub.action, result)
    ensures Right(w, sub, result)
  {
    hide Founded, WellFormed, ReaderFits, ChainOf, ComputedAs;
  }

  // ---------------------------------------------------------------- runs

  lemma StepInv(w: World, s: System, e: Event)
    requires Inv(w, s) && Ready(s) && Enabled(w, s, e)
    ensures Inv(w, Step(w, s, e)) && Ready(Step(w, s, e))
  {
    match e {
      case DagEvent(d) => DagEventInv(w, s, d);
      case LaunchEvent(i, cancelled) => LaunchInv(w, s, i, cancelled);
      case FifoEvent(f) => FifoEventInv(w, s, f);
      case DeliverEvent(key) => DeliverInv(w, s, key);
      case PublishEvent(id, writes) => PublishInv(w, s, id, writes);
    }
    hide DagInvariant.Inv, FifoInvariant.Inv, Fifo.Wired, Dag.Ordered, Step;
  }

  lemma AnswersStep(w: World, s: System, e: Event)
    requires Inv(w, s) && Ready(s) && Enabled(w, s, e) && AnswersRight(w, s)
    ensures AnswersRight(w, Step(w, s, e))
  {
    if e.DagEvent? {
      var s1 := Step(w, s, e);
      forall id | id in s1.dag.responses && DagRuns.GotSuccess(s1.dag, id) && id in s1.submissions
        ensures Right(w, s1.submissions[id], s1.dag.responses[id][0].result)
      {
        AnswerStep(w, s, e.e, id);
      }
    }
  }

  lemma AnswerStep(w: World, s: System, d: Dag.Event, id: JobID)
    requires Inv(w, s) && Ready(s) && Enabled(w, s, DagEvent(d)) && AnswersRight(w, s)
    requires var s1 := Step(w, s, DagEvent(d));
             id in s1.dag.responses && DagRuns.GotSuccess(s1.dag, id) && id in s1.submissions
    ensures var s1 := Step(w, s, DagEvent(d)); Right(w, s1.submissions[id], s1.dag.responses[id][0].result)
  {
    DagRuns.StepAccounts(s.dag, d, id);
    hide DagInvariant.Inv, FifoInvariant.Inv, Fifo.Wired, Dag.Ordered, Right, Dag.Step, LogGood, InboxGood, StoreGood, SetsFit;
    hide DagRecovery.Sourced, JobFits;
    if id !in s.dag.responses {
      SubmittedFails(s.dag, d, id);
      assert id in s.dag.jobs;
      assert id in s.submissions by { JobsAreSubmitted(s, id); }
      CompletedIsRight(w, s, d, id);
    } else {
      assert DagRuns.GotSuccess(s.dag, id);
    }
  }

  lemma JobsAreSubmitted(s: System, id: JobID)
    requires JobsFit(s.dag, s.submissions) && id in s.dag.jobs
    ensures id in s.submissions
  {
    assert JobFits(s.dag.functions, s.submissions, id, s.dag.jobs[id]);
  }

  lemma SubmittedFails(s: Dag.State, d: Dag.Event, id: JobID)
    requires DagInvariant.Inv(s) && Dag.Ordered(s) && Dag.Enabled(s, d)
    requires id !in s.responses && DagRuns.GotSuccess(Dag.Step(s, d), id)
    ensures id in s.jobs
  {
    DagRuns.OnlySuccessCompletes(s, d, id);
  }

  ghost predicate Legal(w: World, s: System, events: seq<Event>)
    requires Inv(w, s) && Ready(s)
    decreases |events|
  {
    events == [] || (Enabled(w, s, events[0]) && (StepInv(w, s, events[0]); Legal(w, Step(w, s, events[0]), events[1..])))
  }

  ghost function Run(w: World, s: System, events: seq<Event>): (r: System)
    requires Inv(w, s) && Ready(s) && Legal(w, s, events)
    ensures Inv(w, r) && Ready(r)
    decreases |events|
  {
    if events == [] then s
    else
      StepInv(w, s, events[0]);
      Run(w, Step(w, s, events[0]), events[1..])
  }

  ghost function Start(w: World, maxStageAttempts: nat, maxTaskAttempts: nat, names: FunctionNames, runID: string): (s: System)
    requires maxStageAttempts > 0 && maxTaskAttempts > 0
    ensures Inv(w, s) && Ready(s)
    ensures s.dag.responses == map[]
  {
    StartInv(w, maxStageAttempts, maxTaskAttempts, names, runID);
    System(Dag.Initial(maxStageAttempts, names), Fifo.Initial(maxTaskAttempts, runID), map[], iset{}, map[])
  }

  lemma StartInv(w: World, maxStageAttempts: nat, maxTaskAttempts: nat, names: FunctionNames, runID: string)
    requires maxStageAttempts > 0 && maxTaskAttempts > 0
    ensures var s := System(Dag.Initial(maxStageAttempts, names), Fifo.Initial(maxTaskAttempts, runID), map[], iset{}, map[]);
            Inv(w, s) && Ready(s)
  {
    DagInvariant.InitialInv(maxStageAttempts, names);
    DagInvariant.InvOrdered(Dag.Initial(maxStageAttempts, names));
    FifoInvariant.InitialInv(maxTaskAttempts, runID);
    FifoInvariant.CoreWired(Fifo.Initial(maxTaskAttempts, runID));
    hide DagInvariant.Inv, FifoInvariant.Inv, Fifo.Wired, Dag.Ordered;
  }

  lemma {:induction false} AnswersStayRight(w: World, s: System, events: seq<Event>)
    requires Inv(w, s) && Ready(s) && Legal(w, s, events) && AnswersRight(w, s)
    ensures AnswersRight(w, Run(w, s, events))
    decreases |events|
  {
    if events != [] {
      StepInv(w, s, events[0]);
      AnswersStep(w, s, events[0]);
      AnswersStayRight(w, Step(w, s, events[0]), events[1..]);
    }
  }

  /** After any run of submissions, offers, honest reports sent late or twice,
      retries, cancellations, worker losses, damaged reads and shuffle recoveries,
      every job answered with success was answered once, with its action over all
      partitions of its lineage, in order, each computed in full. Nothing is asked of
      functions, widths or storage. */
  lemma SuccessIsComputed(
    w: World, maxStageAttempts: nat, maxTaskAttempts: nat,
    names: FunctionNames, runID: string, events: seq<Event>, id: JobID, result: Dag.JobResult)
    requires maxStageAttempts > 0 && maxTaskAttempts > 0
    requires Legal(w, Start(w, maxStageAttempts, maxTaskAttempts, names, runID), events)
    requires var s := Run(w, Start(w, maxStageAttempts, maxTaskAttempts, names, runID), events);
             id in s.dag.responses && Dag.Completed(result) in s.dag.responses[id]
    ensures var s := Run(w, Start(w, maxStageAttempts, maxTaskAttempts, names, runID), events);
            && s.dag.responses[id] == [Dag.Completed(result)] && id in s.submissions
            && Right(w, s.submissions[id], result)
  {
    hide *;
    var s0 := Start(w, maxStageAttempts, maxTaskAttempts, names, runID);
    NothingAnswered(w, s0);
    AnswersStayRight(w, s0, events);
    OneAnswer(w, Run(w, s0, events), id, result);
    RightNow(w, Run(w, s0, events), id, result);
  }

  /** End to end: after any such run, every answer of a job that succeeded agrees with
      the sequential evaluation of its lineage: its records in order for Collect,
      their number for Count. Only what `Covered` names is asked of the lineage's
      functions and of storage. */
  lemma SuccessIsSequentialEvaluation(
    w: World, sense: Sense, maxStageAttempts: nat, maxTaskAttempts: nat,
    names: FunctionNames, runID: string, events: seq<Event>, id: JobID, result: Dag.JobResult)
    requires maxStageAttempts > 0 && maxTaskAttempts > 0
    requires Legal(w, Start(w, maxStageAttempts, maxTaskAttempts, names, runID), events)
    requires var s := Run(w, Start(w, maxStageAttempts, maxTaskAttempts, names, runID), events);
             id in s.dag.responses && Dag.Completed(result) in s.dag.responses[id]
             && id in s.submissions && Covered(w, sense, s.submissions[id])
    ensures var s := Run(w, Start(w, maxStageAttempts, maxTaskAttempts, names, runID), events);
            var sub := s.submissions[id];
            && s.dag.responses[id] == [Dag.Completed(result)]
            && Founded(sub.nodes, sub.action.targetRDD) && WellFormed(ChainOf(sub.nodes, sub.action.targetRDD))
            && var c := ChainOf(sub.nodes, sub.action.targetRDD);
               var records := Evaluate(w, sense.total, c);
               records.Ok? && Answers(sense.meaning, c, sub.action, result, records.value)
  {
    hide *;
    SuccessIsComputed(w, maxStageAttempts, maxTaskAttempts, names, runID, events, id, result);
    RightAnswers(w, sense, Run(w, Start(w, maxStageAttempts, maxTaskAttempts, names, runID), events).submissions[id], result);
  }

  lemma RightAnswers(w: World, sense: Sense, sub: Submission, result: Dag.JobResult)
    requires Right(w, sub, result) && Covered(w, sense, sub)
    ensures Founded(sub.nodes, sub.action.targetRDD) && WellFormed(ChainOf(sub.nodes, sub.action.targetRDD))
    ensures var c := ChainOf(sub.nodes, sub.action.targetRDD);
            var records := Evaluate(w, sense.total, c);
            records.Ok? && Answers(sense.meaning, c, sub.action, result, records.value)
  {
    hide Founded, WellFormed, ReaderFits, ChainOf, ComputedAs, Lawful, Evaluate, Answers;
    AnswerIsEvaluation(w, sense, ChainOf(sub.nodes, sub.action.targetRDD), sub.action, result);
  }

  lemma NothingAnswered(w: World, s: System)
    requires s.dag.responses == map[]
    ensures AnswersRight(w, s)
  {
  }

  lemma OneAnswer(w: World, s: System, id: JobID, result: Dag.JobResult)
    requires Inv(w, s) && id in s.dag.responses && Dag.Completed(result) in s.dag.responses[id]
    ensures s.dag.responses[id] == [Dag.Completed(result)] && DagRuns.GotSuccess(s.dag, id) && id in s.submissions
  {
    assert DagInvariant.AnswersOK(s.dag) && JobsFit(s.dag, s.submissions);
  }

  lemma RightNow(w: World, s: System, id: JobID, result: Dag.JobResult)
    requires AnswersRight(w, s) && id in s.dag.responses && s.dag.responses[id] == [Dag.Completed(result)]
    requires DagRuns.GotSuccess(s.dag, id) && id in s.submissions
    ensures Right(w, s.submissions[id], result)
  {
    hide Right;
    assert Right(w, s.submissions[id], s.dag.responses[id][0].result);
  }

  // ---------------------------------------------------------------- lineages without a shuffle

  /** A job without a shuffle answers with exactly the sequential evaluation, with
      nothing asked of its functions, its widths or storage. */
  lemma NarrowJobIsExact(
    w: World, total: string -> ((Record, Record) -> Record), maxStageAttempts: nat, maxTaskAttempts: nat,
    names: FunctionNames, runID: string, events: seq<Event>, id: JobID, result: Dag.JobResult)
    requires maxStageAttempts > 0 && maxTaskAttempts > 0
    requires Legal(w, Start(w, maxStageAttempts, maxTaskAttempts, names, runID), events)
    requires var s := Run(w, Start(w, maxStageAttempts, maxTaskAttempts, names, runID), events);
             && id in s.dag.responses && Dag.Completed(result) in s.dag.responses[id] && id in s.submissions
             && var sub := s.submissions[id];
                Founded(sub.nodes, sub.action.targetRDD) ==> Shuffles(ChainOf(sub.nodes, sub.action.targetRDD)) == 0
    ensures var s := Run(w, Start(w, maxStageAttempts, maxTaskAttempts, names, runID), events);
            var sub := s.submissions[id];
            && Founded(sub.nodes, sub.action.targetRDD) && WellFormed(ChainOf(sub.nodes, sub.action.targetRDD))
            && var records := Evaluate(w, total, ChainOf(sub.nodes, sub.action.targetRDD));
               records.Ok? && result == Expected(sub.action, records.value)
  {
    hide *;
    var sense := Sense(r => r, total);
    var sub := Run(w, Start(w, maxStageAttempts, maxTaskAttempts, names, runID), events).submissions[id];
    NarrowIsCovered(w, sense, sub);
    SuccessIsSequentialEvaluation(w, sense, maxStageAttempts, maxTaskAttempts, names, runID, events, id, result);
    ExactAnswer(sense.meaning, ChainOf(sub.nodes, sub.action.targetRDD), sub.action, result,
                Evaluate(w, total, ChainOf(sub.nodes, sub.action.targetRDD)).value);
  }

  lemma NarrowIsCovered(w: World, sense: Sense, sub: Submission)
    requires Founded(sub.nodes, sub.action.targetRDD) ==> Shuffles(ChainOf(sub.nodes, sub.action.targetRDD)) == 0
    ensures Covered(w, sense, sub)
  {
    if Founded(sub.nodes, sub.action.targetRDD) {
      NothingAskedWithoutShuffle(w, sense, ChainOf(sub.nodes, sub.action.targetRDD));
    }
    hide Lawful, Founded, ChainOf;
  }

  lemma ExactAnswer(meaning: Record -> Record, c: Chain, action: ActionSpec, result: Dag.JobResult, expected: seq<Record>)
    requires Answers(meaning, c, action, result, expected) && Shuffles(c) == 0
    ensures result == Expected(action, expected)
  {
  }

  // ---------------------------------------------------------------- lineages that cannot be read

  /** The submitted lineage changes width between its last shuffle and its target. */
  ghost predicate Misfits(sub: Submission) {
    Founded(sub.nodes, sub.action.targetRDD)
    && !ReaderFits(ChainOf(sub.nodes, sub.action.targetRDD), sub.nodes[sub.action.targetRDD].numPartitions)
  }

  /** Building a stage's inputs fails exactly when the last map output of a lineage
      that misfits arrives: a property of the lineage, known when it is submitted. */
  lemma InputsFailOnLineage(w: World, s: System, d: Dag.Event, id: JobID)
    requires Inv(w, s) && Ready(s) && Enabled(w, s, DagEvent(d)) && id !in s.dag.responses
    ensures DagRecovery.FailsWith(Dag.Step(s.dag, d), id, Dag.ErrInputs)
            <==> DagRecovery.CompletesMap(s.dag, d, id) && id in s.submissions && Misfits(s.submissions[id])
  {
    assert DagInvariant.Inv(s.dag) && Dag.Ordered(s.dag) && Dag.Enabled(s.dag, d) && JobsFit(s.dag, s.submissions);
    hide Inv, Ready, Enabled, DagInvariant.Inv, Dag.Ordered, Dag.Enabled, JobsFit, Misfits, Dag.Step;
    DagRecovery.InputsFailExactly(s.dag, d, id);
    if DagRecovery.CompletesMap(s.dag, d, id) { MisfitIsMismatch(s, id); }
  }

  lemma MisfitIsMismatch(s: System, id: JobID)
    requires DagInvariant.Inv(s.dag) && JobsFit(s.dag, s.submissions) && id in s.dag.jobs && DagInvariant.ShuffleShape(s.dag.jobs[id])
    ensures id in s.submissions
    ensures Misfits(s.submissions[id]) <==>
      s.dag.jobs[id].stages[1].stage.numPartitions
      != s.dag.jobs[id].stages[0].stage.shuffleWrite.value.partitioner.numPartitions
  {
    JobPlan(s, id);
    var sub := s.submissions[id];
    var c := ChainOf(sub.nodes, sub.action.targetRDD);
    hide DagInvariant.Inv, PlanOf, Dag.ExecutionPlan, TasksOfStage, AllTasks, Founded, ChainOf, ReaderFits, WellFormed, JobsFit;
    JobStages(s, id, c);
    DagRecovery.WidthsAgreeExactly(c, sub.action);
  }
}
