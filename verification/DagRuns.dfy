/** Whole runs of the DAG scheduler: every job is answered exactly once, a
    success is the merge of one complete stage attempt, and recovery ends. */
module DagRuns {
  import opened Types
  import opened FiniteSets
  import opened Lineage
  import opened Planner
  import opened Keyed
  import opened Dag
  import opened DagInvariant
  import opened DagSteps
  import opened DagTheorems

  // ---------------------------------------------------------------- answers

  /** What happens to one job: nothing is unsaid, an unanswered job is kept or
      answered, and only its submission brings a job in. */
  predicate Accounts(s: State, after: State, id: JobID, submitted: bool) {
    && (id in s.responses ==> id in after.responses && after.responses[id] == s.responses[id] && id !in after.jobs)
    && (id in s.jobs || submitted ==> id in after.jobs || id in after.responses)
    && (id !in s.jobs && id !in s.responses && !submitted ==> id !in after.jobs && id !in after.responses)
  }

  lemma FailAccounts(s: State, id: JobID, error: DagError, other: JobID)
    requires Inv(s)
    ensures Accounts(s, FailJob(s, id, error), other, false)
  {
    hide JobOK, LogOK;
  }

  lemma StartAccounts(s: State, s1: State, id: JobID, other: JobID, submitted: bool)
    requires id in s1.jobs && (forall k :: k in s1.jobs[id].order ==> k in s1.jobs[id].stages)
    requires s1.responses == s.responses && s1.jobs.Keys == s.jobs.Keys + {id} && id !in s.responses
    requires id !in s.jobs ==> submitted
    requires AnswersOK(s)
    ensures Accounts(s, StartReady(s1, id), other, submitted && other == id)
  {
    hide LaunchReady;
    if other == id { StartReadySelf(s1, id); } else { StartReadyOthers(s1, id, other); }
  }

  lemma SuccessAccounts(s: State, report: TaskAttemptSuccess, other: JobID)
    requires Inv(s) && Ordered(s)
    ensures Accounts(s, TaskSucceeded(s, report), other, false)
  {
    var e := TaskSucceededEvent(report);
    var id := report.jobID;
    FailAccounts(s, id, ErrContext, other);
    FailAccounts(s, id, ErrOutput, other);
    if Accepts(s, e, id) && !s.jobs[id].cancelled {
      assert id !in s.responses;
      if other != id {
        AcceptOthers(s, report, other);
      } else {
        PendingHasMore(s, id, report.stageID, report.attempt, report.partitionID);
        hide Inv, AcceptableOutput, Ordered;
        StartAccountsIf(s, AfterAccept(s, e, id), id, report);
      }
    }
  }

  lemma StartAccountsIf(s: State, job1: JobState, id: JobID, report: TaskAttemptSuccess)
    requires Ordered(s) && Accepts(s, TaskSucceededEvent(report), id) && job1 == AfterAccept(s, TaskSucceededEvent(report), id)
    requires id !in s.responses && (forall k :: k in s.jobs[id].order ==> k in s.jobs[id].stages)
    ensures Accounts(s, AcceptSuccess(s, id, report.stageID, report.partitionID, report.output), id, false)
  {
    hide AcceptableOutput;
    if job1.stages[report.stageID].remaining == 0 && report.stageID != s.jobs[id].resultStageID {
      StartReadySelf(s.(jobs := s.jobs[id := job1]), id);
    }
  }

  lemma FailureAccounts(s: State, report: TaskAttemptFailure, other: JobID)
    requires Inv(s) && Ordered(s)
    ensures Accounts(s, TaskFailed(s, report), other, false)
  {
    hide Inv, Ordered, TaskFailed, FailJob, StartReady, Accounts, Recovering;
    var id := report.jobID;
    TaskFailedCases(s, report);
    FailAccounts(s, id, ErrContext, other);
    NothingAccounts(s, other);
    if FailsJob(s, id, TaskFailed(s, report)) {
      var error :| error != ErrStageExhausted && error != ErrInputs && TaskFailed(s, report) == FailJob(s, id, error);
      FailAccounts(s, id, error, other);
    } else if TaskFailed(s, report) != s {
      RecoveryAccounts(s, id, other);
    }
  }

  lemma NothingAccounts(s: State, other: JobID)
    requires Inv(s)
    ensures Accounts(s, s, other, false)
  {
    hide JobOK, LogOK;
  }

  lemma RecoveryAccounts(s: State, id: JobID, other: JobID)
    requires Inv(s) && Ordered(s) && Recovering(s, id)
    ensures Accounts(s, StartReady(ResetPair(s, id, 0, 1), id), other, false)
  {
    hide *;
    RecoveringFacts(s, id);
    UnansweredNow(s, id);
    ResetKeeps(s, id);
    StartAccounts(s, ResetPair(s, id, 0, 1), id, other, false);
  }

  lemma ResetKeeps(s: State, id: JobID)
    requires id in s.jobs && ShuffleJob(s.jobs[id]) && forall k :: k in s.jobs[id].order ==> k in s.jobs[id].stages
    ensures 0 in s.jobs[id].stages && 1 in s.jobs[id].stages
    ensures var s1 := ResetPair(s, id, 0, 1);
            && id in s1.jobs && (forall k :: k in s1.jobs[id].order ==> k in s1.jobs[id].stages)
            && s1.responses == s.responses && s1.jobs.Keys == s.jobs.Keys + {id}
  {
  }

  lemma UnansweredNow(s: State, id: JobID)
    requires Inv(s) && Ordered(s) && id in s.jobs
    ensures AnswersOK(s) && id !in s.responses && forall k :: k in s.jobs[id].order ==> k in s.jobs[id].stages
  {
    hide JobOK, LogOK;
  }

  lemma SubmitAccounts(s: State, id: JobID, nodes: Nodes, action: ActionSpec, cancelled: bool, other: JobID)
    requires Inv(s) && id !in s.jobs && id !in s.responses
    ensures Accounts(s, SubmitJob(s, id, nodes, action, cancelled), other, other == id)
  {
    hide *;
    InvAnswers(s);
    SubmitCases(s, id, nodes, action, cancelled);
    RespondAccounts(s, id, Failed(ErrStopped), other);
    RespondAccounts(s, id, Failed(ErrPlan), other);
    var after := SubmitJob(s, id, nodes, action, cancelled);
    if job :| !s.stopping && Enters(s, id, job, after) {
      EnteringJob(s, id, job, after);
      StartAccounts(s, s.(jobs := s.jobs[id := job]), id, other, true);
    }
  }

  lemma InvAnswers(s: State)
    requires Inv(s)
    ensures AnswersOK(s) && s.maxStageAttempts > 0
  {
    hide AnswersOK, JobOK;
  }

  lemma EnteringJob(s: State, id: JobID, job: JobState, after: State)
    requires Enters(s, id, job, after)
    ensures AllPending(id, s.maxStageAttempts, job) && (forall k :: k in job.order ==> k in job.stages)
    ensures after == StartReady(s.(jobs := s.jobs[id := job]), id)
  {
    hide AllPending, StartReady;
  }

  lemma RespondAccounts(s: State, id: JobID, answer: Answer, other: JobID)
    requires AnswersOK(s) && id !in s.jobs && id !in s.responses
    ensures Accounts(s, Respond(s, id, answer), other, other == id)
  {
  }

  lemma StepAccounts(s: State, e: Event, id: JobID)
    requires Inv(s) && Ordered(s) && Enabled(s, e)
    ensures Accounts(s, Step(s, e), id, e.JobSubmitted? && e.id == id)
  {
    match e {
      case JobSubmitted(j, nodes, action, cancelled) => SubmitAccounts(s, j, nodes, action, cancelled, id);
      case TaskSucceededEvent(report) => SuccessAccounts(s, report, id);
      case TaskFailedEvent(report) => FailureAccounts(s, report, id);
      case TaskSetFinishedEvent(j, k, attempt) =>
        FailAccounts(s, j, ErrContext, id);
        FailAccounts(s, j, ErrTaskSetEnded, id);
      case JobCanceled(j) => FailAccounts(s, j, ErrContext, id);
      case ContextCancelled(j) => FailAccounts(s, j, ErrContext, id);
      case Stopping => FailAccounts(s, id, ErrContext, id);
    }
  }

  // ---------------------------------------------------------------- runs

  ghost predicate Legal(s: State, events: seq<Event>)
    requires Inv(s) && Ordered(s)
    decreases |events|
  {
    events == [] || (Enabled(s, events[0]) && (StepInv(s, events[0]); Legal(Step(s, events[0]), events[1..])))
  }

  ghost function Run(s: State, events: seq<Event>): (r: State)
    requires Inv(s) && Ordered(s) && Legal(s, events)
    ensures Inv(r) && Ordered(r)
    decreases |events|
  {
    if events == [] then s
    else
      StepInv(s, events[0]);
      Run(Step(s, events[0]), events[1..])
  }

  predicate Submits(events: seq<Event>, id: JobID) {
    exists i :: 0 <= i < |events| && events[i].JobSubmitted? && events[i].id == id
  }

  predicate Answered(s: State, id: JobID) {
    id in s.responses && id !in s.jobs && |s.responses[id]| == 1
  }

  /** In any run an answered job keeps its one answer and is forgotten, a
      submitted one is either still pending or answered once, and once the
      scheduler is stopping nothing is pending. */
  lemma {:induction false} AnsweredExactlyOnce(s: State, events: seq<Event>, id: JobID)
    requires Inv(s) && Ordered(s) && Legal(s, events)
    ensures var r := Run(s, events);
            && (id in s.responses ==> Answered(r, id) && r.responses[id] == s.responses[id])
            && (Submits(events, id) || id in s.jobs ==> Answered(r, id) || (id in r.jobs && id !in r.responses))
            && (s.stopping || Stopping in events ==> r.jobs == map[] && r.stopping)
            && (!Submits(events, id) && id !in s.jobs && id !in s.responses ==> id !in r.responses && id !in r.jobs)
    decreases |events|
  {
    if events != [] {
      var e := events[0];
      StepInv(s, e);
      StepAccounts(s, e, id);
      StepStopping(s, e);
      SubmitsFirst(events, id);
      assert Inv(s) && Inv(Step(s, e)) && (Step(s, e).stopping ==> Step(s, e).jobs == map[]);
      assert Legal(Step(s, e), events[1..]) && Run(s, events) == Run(Step(s, e), events[1..]);
      hide Inv, Ordered, Step, Legal, Enabled, Run, Submits;
      AnsweredExactlyOnce(Step(s, e), events[1..], id);
    } else {
      assert id in s.responses ==> Answered(s, id);
    }
  }

  lemma SubmitsFirst(events: seq<Event>, id: JobID)
    requires events != []
    ensures Submits(events, id) <==> (events[0].JobSubmitted? && events[0].id == id) || Submits(events[1..], id)
    ensures Stopping in events <==> events[0] == Stopping || Stopping in events[1..]
  {
    assert events == [events[0]] + events[1..];
    if Submits(events[1..], id) {
      var i :| 0 <= i < |events[1..]| && events[1..][i].JobSubmitted? && events[1..][i].id == id;
      assert events[i + 1] == events[1..][i];
    }
    if Submits(events, id) {
      var i :| 0 <= i < |events| && events[i].JobSubmitted? && events[i].id == id;
      assert i > 0 ==> events[1..][i - 1] == events[i];
    }
  }

  lemma StepStopping(s: State, e: Event)
    requires Inv(s) && Ordered(s) && Enabled(s, e)
    ensures s.stopping || e == Stopping ==> Step(s, e).stopping
    ensures Step(s, e).stopping ==> s.stopping || e == Stopping
  {
    hide Inv, Ordered, LaunchReady, AcceptableOutput, RecoveryError, NewJob, ExecutionPlan;
  }

  // ---------------------------------------------------------------- success

  /** The records, or the sum of the counts, of all partitions in order. */
  function InOrder(kind: ActionKind, outputs: seq<TaskOutput>): JobResult {
    match kind
    case ActionCollect =>
      JobResult(Flatten(seq(|outputs|, i requires 0 <= i < |outputs| =>
        if outputs[i].records.Some? then outputs[i].records.value else [])), 0)
    case ActionCount => JobResult([], Total(outputs))
    case ActionUnsupported => JobResult([], 0)
  }

  function Total(outputs: seq<TaskOutput>): int {
    if outputs == [] then 0 else Total(outputs[..|outputs| - 1]) + outputs[|outputs| - 1].count
  }

  lemma {:induction false} MergeIsInOrder(kind: ActionKind, outputs: map<PartitionID, TaskOutput>, parts: seq<TaskOutput>)
    requires forall p :: 0 <= p < |parts| ==> p in outputs && outputs[p] == parts[p]
    ensures MergeOutputs(kind, outputs, |parts|) == InOrder(kind, parts)
    decreases |parts|
  {
    if parts != [] {
      var init := parts[..|parts| - 1];
      MergeIsInOrder(kind, outputs, init);
      if kind == ActionCollect {
        var all := seq(|parts|, i requires 0 <= i < |parts| => if parts[i].records.Some? then parts[i].records.value else []);
        var before := seq(|init|, i requires 0 <= i < |init| => if init[i].records.Some? then init[i].records.value else []);
        FlattenLast(all, before, all[|parts| - 1]);
      }
    }
  }

  predicate GotSuccess(s: State, id: JobID) {
    id in s.responses && |s.responses[id]| > 0 && s.responses[id][0].Completed?
  }

  /** The outputs a completing stage merges: one per partition, each accepted
      from the stage's current attempt. */
  ghost predicate CompleteStage(id: JobID, job: JobState, parts: seq<TaskOutput>) {
    job.resultStageID in job.stages
    && var st := job.stages[job.resultStageID];
       && st.status == StageSucceeded && |parts| == |st.tasks| == st.stage.numPartitions && st.outputs.Keys == Upto(|parts|)
       && forall p :: 0 <= p < |parts| ==>
            p in st.outputs && parts[p] == st.outputs[p] && OutputOK(id, job.runID, st.attemptID, st.tasks[p], parts[p])
  }

  /** A job is answered with success only when a report completes its result
      stage, and the answer is the merge of that attempt's outputs, partition by partition. */
  lemma SuccessIsTheMerge(s: State, e: Event, id: JobID)
    requires Inv(s) && Ordered(s) && Enabled(s, e)
    requires id !in s.responses && GotSuccess(Step(s, e), id)
    ensures Accepts(s, e, id)
    ensures exists parts :: CompleteStage(id, AfterAccept(s, e, id), parts)
                            && Step(s, e).responses[id] == [Completed(InOrder(s.jobs[id].action.kind, parts))]
  {
    OnlySuccessCompletes(s, e, id);
    CompletedShape(s, e, id);
    var job1 := AfterAccept(s, e, id);
    assert job1.resultStageID == s.jobs[id].resultStageID && job1.action == s.jobs[id].action;
    hide Inv, Ordered, Step, Accepts, Enabled, AfterAccept;
    CompletePartsOK(id, job1, s.maxStageAttempts);
  }

  function Parts(st: StageState): (r: seq<TaskOutput>)
    requires forall p :: 0 <= p < |st.tasks| ==> p in st.outputs
    ensures |r| == |st.tasks|
    ensures forall p :: 0 <= p < |r| ==> r[p] == st.outputs[p]
  {
    seq(|st.tasks|, p requires 0 <= p < |st.tasks| => st.outputs[p])
  }

  lemma PartOK(id: JobID, runID: string, k: StageID, max: nat, st: StageState, p: PartitionID)
    requires StageOK(id, runID, k, max, st) && p in st.outputs
    ensures 0 <= p < |st.tasks| && OutputOK(id, runID, st.attemptID, st.tasks[p], st.outputs[p])
  {
  }

  /** A finished result stage is complete, and merging it goes in partition order. */
  lemma CompletePartsOK(id: JobID, job: JobState, max: nat)
    requires job.resultStageID in job.stages && job.stages[job.resultStageID].status == StageSucceeded
    requires StageOK(id, job.runID, job.resultStageID, max, job.stages[job.resultStageID])
    ensures var st := job.stages[job.resultStageID];
            && (forall p :: 0 <= p < |st.tasks| ==> p in st.outputs)
            && CompleteStage(id, job, Parts(st)) && |st.outputs| == |st.tasks|
            && MergeOutputs(job.action.kind, st.outputs, |st.tasks|) == InOrder(job.action.kind, Parts(st))
  {
    hide *;
    var k := job.resultStageID;
    var st := job.stages[k];
    CompleteOutputs(id, job.runID, k, max, st);
    CompleteCounts(id, job.runID, k, max, st);
    forall p | p in st.outputs ensures 0 <= p < |st.tasks| && OutputOK(id, job.runID, st.attemptID, st.tasks[p], st.outputs[p]) {
      PartOK(id, job.runID, k, max, st, p);
    }
    CompleteParts(id, job);
    MergeIsInOrder(job.action.kind, st.outputs, Parts(st));
  }

  lemma CompleteCounts(id: JobID, runID: string, k: StageID, max: nat, st: StageState)
    requires StageOK(id, runID, k, max, st) && st.status == StageSucceeded
    ensures |st.outputs| == |st.tasks| == st.stage.numPartitions
    ensures forall p :: p in st.outputs ==> 0 <= p < |st.tasks|
  {
    hide OutputOK;
  }

  lemma CompleteParts(id: JobID, job: JobState)
    requires job.resultStageID in job.stages && job.stages[job.resultStageID].status == StageSucceeded
    requires var st := job.stages[job.resultStageID];
             && |st.tasks| == st.stage.numPartitions && (forall p :: 0 <= p < |st.tasks| ==> p in st.outputs)
             && forall p :: p in st.outputs ==>
                  0 <= p < |st.tasks| && OutputOK(id, job.runID, st.attemptID, st.tasks[p], st.outputs[p])
    ensures var st := job.stages[job.resultStageID];
            && CompleteStage(id, job, Parts(st)) && |Parts(st)| == |st.tasks|
            && forall p :: 0 <= p < |st.tasks| ==> Parts(st)[p] == st.outputs[p]
  {
    hide OutputOK;
    var st := job.stages[job.resultStageID];
    assert st.outputs.Keys == Upto(|st.tasks|);
  }

  lemma CompletedShape(s: State, e: Event, id: JobID)
    requires Inv(s) && Ordered(s) && Accepts(s, e, id) && !s.jobs[id].cancelled
    requires AfterAccept(s, e, id).stages[e.success.stageID].remaining == 0 && e.success.stageID == s.jobs[id].resultStageID
    ensures var job1, k := AfterAccept(s, e, id), e.success.stageID;
            StageOK(id, job1.runID, k, s.maxStageAttempts, job1.stages[k]) && job1.stages[k].status == StageSucceeded
  {
    var job, job1 := s.jobs[id], AfterAccept(s, e, id);
    var k, p := e.success.stageID, e.success.partitionID;
    assert JobOK(s.launched, s.retired, s.maxStageAttempts, id, job);
    assert StageOK(id, job.runID, k, s.maxStageAttempts, job.stages[k]);
    AnyOutput(job.stages[k].tasks[p], e.success.output, id, RunIDFor(job, e.success.output), job.runID, e.success.attempt, job.stages[k]);
    GrownOK(id, job.runID, job1.runID, k, s.maxStageAttempts, job.stages[k], p, e.success.output, e.success.attempt);
  }

  /** Every way of answering but one answers with an error. */
  lemma OnlySuccessCompletes(s: State, e: Event, id: JobID)
    requires Inv(s) && Ordered(s) && Enabled(s, e)
    requires id !in s.responses && GotSuccess(Step(s, e), id)
    ensures Accepts(s, e, id) && !s.jobs[id].cancelled && e.success.stageID == s.jobs[id].resultStageID
    ensures AfterAccept(s, e, id).stages[e.success.stageID].remaining == 0
    ensures var outputs := AfterAccept(s, e, id).stages[e.success.stageID].outputs;
            Step(s, e).responses[id] == [Completed(MergeOutputs(s.jobs[id].action.kind, outputs, |outputs|))]
  {
    hide Inv, Ordered, SubmitJob, TaskSucceeded, TaskFailed, AcceptableOutput, MergeOutputs;
    match e {
      case JobSubmitted(j, nodes, action, cancelled) => SubmitFails(s, j, nodes, action, cancelled, id);
      case TaskSucceededEvent(report) => SuccessAnswers(s, report, id);
      case TaskFailedEvent(report) => FailureFails(s, report, id);
      case TaskSetFinishedEvent(j, k, attempt) => FailJobFails(s, j, id);
      case JobCanceled(j) => FailJobFails(s, j, id);
      case ContextCancelled(j) =>
      case Stopping =>
    }
  }

  lemma FailJobFails(s: State, j: JobID, id: JobID)
    requires id !in s.responses
    ensures forall error :: !GotSuccess(FailJob(s, j, error), id)
  {
  }

  lemma SuccessAnswers(s: State, report: TaskAttemptSuccess, id: JobID)
    requires Inv(s) && Ordered(s) && id !in s.responses && GotSuccess(TaskSucceeded(s, report), id)
    ensures var e := TaskSucceededEvent(report);
            && Accepts(s, e, id) && !s.jobs[id].cancelled && report.stageID == s.jobs[id].resultStageID
            && var st := AfterAccept(s, e, id).stages[report.stageID];
               && st.remaining == 0
               && TaskSucceeded(s, report).responses[id] ==
                  [Completed(MergeOutputs(s.jobs[id].action.kind, st.outputs, |st.outputs|))]
  {
    var e := TaskSucceededEvent(report);
    FailJobFails(s, report.jobID, id);
    hide Inv, Ordered, AcceptSuccess, AcceptableOutput;
    if Accepts(s, e, report.jobID) && !s.jobs[report.jobID].cancelled {
      if id == report.jobID { AcceptAnswers(s, report); } else { AcceptOthers(s, report, id); }
    }
  }

  lemma AcceptAnswers(s: State, report: TaskAttemptSuccess)
    requires Inv(s) && Ordered(s) && Accepts(s, TaskSucceededEvent(report), report.jobID) && report.jobID !in s.responses
    ensures var after := AcceptSuccess(s, report.jobID, report.stageID, report.partitionID, report.output);
            var st := AfterAccept(s, TaskSucceededEvent(report), report.jobID).stages[report.stageID];
            GotSuccess(after, report.jobID) ==>
              && st.remaining == 0 && report.stageID == s.jobs[report.jobID].resultStageID
              && after.responses[report.jobID] ==
                 [Completed(MergeOutputs(s.jobs[report.jobID].action.kind, st.outputs, |st.outputs|))]
  {
    hide Inv, Ordered, AcceptableOutput, StartReady, MergeOutputs, RunIDFor;
    var job1 := AfterAccept(s, TaskSucceededEvent(report), report.jobID);
    PendingHasMore(s, report.jobID, report.stageID, report.attempt, report.partitionID);
    if job1.stages[report.stageID].remaining == 0 && report.stageID != s.jobs[report.jobID].resultStageID {
      StartReadySelf(s.(jobs := s.jobs[report.jobID := job1]), report.jobID);
    }
  }

  lemma SubmitFails(s: State, id: JobID, nodes: Nodes, action: ActionSpec, cancelled: bool, other: JobID)
    requires Inv(s) && Ordered(s) && id !in s.jobs && id !in s.responses && other !in s.responses
    ensures var after := SubmitJob(s, id, nodes, action, cancelled); !GotSuccess(after, other)
  {
    assert s.maxStageAttempts > 0;
    hide Inv, SubmitJob, StartReady, AllPending;
    if other != id { SubmitMoves(s, id, nodes, action, cancelled, other); }
    SubmitCases(s, id, nodes, action, cancelled);
    var after := SubmitJob(s, id, nodes, action, cancelled);
    if job :| !s.stopping && Enters(s, id, job, after) {
      if other == id { StartReadySelf(s.(jobs := s.jobs[id := job]), id); }
    }
  }

  lemma FailureFails(s: State, report: TaskAttemptFailure, id: JobID)
    requires Inv(s) && Ordered(s) && id !in s.responses
    ensures var after := TaskFailed(s, report); !GotSuccess(after, id)
  {
    hide Inv, Ordered, TaskFailed, StartReady, Recovering;
    TaskFailedCases(s, report);
    if TaskFailed(s, report) != s && !FailsJob(s, report.jobID, TaskFailed(s, report)) {
      RecoveringFacts(s, report.jobID);
      UnansweredNow(s, report.jobID);
      var s1 := ResetPair(s, report.jobID, 0, 1);
      hide ShuffleJob, FailsJob;
      if id == report.jobID { StartReadySelf(s1, id); } else { StartReadyOthers(s1, report.jobID, id); }
    }
  }
}
