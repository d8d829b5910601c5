/** Bounded recovery, the origin of accepted outputs, and when building a
    stage's inputs fails. */
module DagRecovery {
  import opened Types
  import opened Lineage
  import opened Planner
  import opened Dag
  import opened DagInvariant
  import opened DagSteps
  import opened DagTheorems
  import opened DagRuns

  // ---------------------------------------------------------------- recovery ends

  function TaskCount(job: JobState): nat
    requires 0 in job.stages
  {
    |job.stages[0].tasks| + if 1 in job.stages then |job.stages[1].tasks| else 0
  }

  function SpareAttempts(max: nat, job: JobState): int
    requires 0 in job.stages
  {
    max - job.stages[0].attempts + if 1 in job.stages then max - job.stages[1].attempts else 0
  }

  function Unfinished(job: JobState): int
    requires 0 in job.stages
  {
    job.stages[0].remaining + if 1 in job.stages then job.stages[1].remaining else 0
  }

  /** Orders spare stage attempts before unfinished tasks before cancellation. */
  function Potential(max: nat, job: JobState): int
    requires 0 in job.stages
  {
    Times(SpareAttempts(max, job), TaskCount(job) + 2) + Unfinished(job) + if job.cancelled then 0 else 1
  }

  function Times(a: int, b: int): int { a * b }

  lemma JobBounds(s: State, id: JobID)
    requires Inv(s) && id in s.jobs
    ensures var job := s.jobs[id];
            && 0 in job.stages && (job.stages.Keys == {0} || (job.stages.Keys == {0, 1} && ShuffleShape(job)))
            && 0 <= SpareAttempts(s.maxStageAttempts, job)
            && 0 <= Unfinished(job) <= TaskCount(job)
            && (job.stages[0].status == StageSucceeded ==> job.stages[0].remaining == 0)
  {
    var job := s.jobs[id];
    assert JobOK(s.launched, s.retired, s.maxStageAttempts, id, job);
    assert StageOK(id, job.runID, 0, s.maxStageAttempts, job.stages[0]);
    StageBounds(id, job.runID, 0, s.maxStageAttempts, job.stages[0]);
    if 1 in job.stages {
      assert StageOK(id, job.runID, 1, s.maxStageAttempts, job.stages[1]);
      StageBounds(id, job.runID, 1, s.maxStageAttempts, job.stages[1]);
    }
  }

  lemma StageBounds(id: JobID, runID: string, k: StageID, max: nat, st: StageState)
    requires StageOK(id, runID, k, max, st)
    ensures 0 <= st.remaining <= |st.tasks| && st.attempts <= max
    ensures st.status == StageSucceeded ==> st.remaining == 0
  {
  }

  lemma Lexicographic(spare: int, spare1: int, w: nat, rest: int, rest1: int)
    requires 0 <= rest1 <= w && 0 <= rest
    requires spare1 <= spare && (spare1 == spare ==> rest1 < rest)
    ensures Times(spare1, w + 1) + rest1 < Times(spare, w + 1) + rest
  {
    assert spare1 < spare ==> spare1 * (w + 1) + (w + 1) <= spare * (w + 1) by {
      if spare1 < spare { Products(spare1 + 1, spare, w + 1); }
    }
  }

  lemma Products(a: int, b: int, c: nat)
    requires a <= b
    ensures a * c <= b * c
  {
  }

  /** Any change to an unanswered job uses up attempts, or else tasks or its
      context: the pair (spare attempts, unfinished tasks) falls lexicographically. */
  lemma ChangeFalls(s: State, e: Event, id: JobID)
    requires Inv(s) && Ordered(s) && Enabled(s, e) && id in s.jobs && id in Step(s, e).jobs
    ensures 0 in s.jobs[id].stages && 0 in Step(s, e).jobs[id].stages
    ensures var before, after, max := s.jobs[id], Step(s, e).jobs[id], s.maxStageAttempts;
            after != before && !(e == ContextCancelled(id)) ==>
              && SpareAttempts(max, after) <= SpareAttempts(max, before)
              && (SpareAttempts(max, after) == SpareAttempts(max, before) ==> Unfinished(after) < Unfinished(before))
    ensures Step(s, e).jobs[id] != s.jobs[id] ==>
              0 <= Potential(s.maxStageAttempts, Step(s, e).jobs[id]) < Potential(s.maxStageAttempts, s.jobs[id])
  {
    hide Inv, Ordered, Step, Enabled, Moves, Times, SpareAttempts, Unfinished, Potential, ShuffleShape;
    StepMoves(s, e, id);
    StepInv(s, e);
    StepKeeps(s, e);
    JobBounds(s, id);
    JobBounds(Step(s, e), id);
    var after := Step(s, e).jobs[id];
    MovesFall(s, e, id, after);
  }

  lemma StepKeeps(s: State, e: Event)
    requires Inv(s) && Ordered(s) && Enabled(s, e)
    ensures Step(s, e).maxStageAttempts == s.maxStageAttempts && Step(s, e).functions == s.functions
  {
    hide Inv, Ordered, LaunchReady, AcceptableOutput, RecoveryError, NewJob, ExecutionPlan;
  }

  predicate Bounded(max: nat, job: JobState)
    requires 0 in job.stages
  {
    0 <= SpareAttempts(max, job) && 0 <= Unfinished(job) <= TaskCount(job)
  }

  /** A move loses spare attempts or finishes a task, or is the context's. */
  lemma MovesLower(s: State, e: Event, id: JobID, after: JobState)
    requires id in s.jobs && Moves(s, e, id, after) && after != s.jobs[id]
    requires var job := s.jobs[id];
             0 in job.stages && (job.stages.Keys == {0} || (job.stages.Keys == {0, 1} && ShuffleShape(job)))
    requires s.jobs[id].stages[0].status == StageSucceeded ==> s.jobs[id].stages[0].remaining == 0
    ensures 0 in after.stages && TaskCount(after) == TaskCount(s.jobs[id])
    ensures var before, max := s.jobs[id], s.maxStageAttempts;
            if e == ContextCancelled(id) then
              SpareAttempts(max, after) == SpareAttempts(max, before) && Unfinished(after) == Unfinished(before)
              && after.cancelled && !before.cancelled
            else
              && after.cancelled == before.cancelled && SpareAttempts(max, after) <= SpareAttempts(max, before)
              && (SpareAttempts(max, after) == SpareAttempts(max, before) ==> Unfinished(after) < Unfinished(before))
  {
    hide AcceptableOutput, RunIDFor;
  }

  lemma MovesFall(s: State, e: Event, id: JobID, after: JobState)
    requires id in s.jobs && Moves(s, e, id, after)
    requires var job := s.jobs[id];
             0 in job.stages && (job.stages.Keys == {0} || (job.stages.Keys == {0, 1} && ShuffleShape(job)))
    requires s.jobs[id].stages[0].status == StageSucceeded ==> s.jobs[id].stages[0].remaining == 0
    requires 0 in after.stages && Bounded(s.maxStageAttempts, after) && Bounded(s.maxStageAttempts, s.jobs[id])
    ensures var before, max := s.jobs[id], s.maxStageAttempts;
            after != before && !(e == ContextCancelled(id)) ==>
              && SpareAttempts(max, after) <= SpareAttempts(max, before)
              && (SpareAttempts(max, after) == SpareAttempts(max, before) ==> Unfinished(after) < Unfinished(before))
    ensures after != s.jobs[id] ==> 0 <= Potential(s.maxStageAttempts, after) < Potential(s.maxStageAttempts, s.jobs[id])
  {
    var before, max := s.jobs[id], s.maxStageAttempts;
    hide Moves, Times, TaskCount, SpareAttempts, Unfinished;
    if after != before {
      MovesLower(s, e, id, after);
      var flag := (job: JobState) => if job.cancelled then 0 else 1;
      Lexicographic(SpareAttempts(max, before), SpareAttempts(max, after), TaskCount(before) + 1,
                    Unfinished(before) + flag(before), Unfinished(after) + flag(after));
      NonNegative(SpareAttempts(max, after), TaskCount(after) + 2);
    }
  }

  lemma NonNegative(a: int, b: int)
    requires a >= 0 && b >= 0
    ensures Times(a, b) >= 0
  {
  }

  /** Events of a run that change a job and leave it unanswered. */
  ghost function Changes(s: State, events: seq<Event>, id: JobID): nat
    requires Inv(s) && Ordered(s) && Legal(s, events)
    decreases |events|
  {
    if events == [] || id !in s.jobs then 0
    else
      StepInv(s, events[0]);
      var s1 := Step(s, events[0]);
      (if id in s1.jobs && s1.jobs[id] != s.jobs[id] then 1 else 0) + Changes(s1, events[1..], id)
  }

  /** However a run goes on, an unanswered job changes only so often. */
  lemma {:induction false} RecoveryTerminates(s: State, events: seq<Event>, id: JobID)
    requires Inv(s) && Ordered(s) && Legal(s, events) && id in s.jobs
    ensures 0 in s.jobs[id].stages && Changes(s, events, id) <= Potential(s.maxStageAttempts, s.jobs[id])
    decreases |events|
  {
    PotentialNonNegative(s, id);
    if events != [] {
      var s1 := Step(s, events[0]);
      ChangesStep(s, events, id);
      StepKeeps(s, events[0]);
      if id in s1.jobs {
        ChangeFalls(s, events[0], id);
        hide Inv, Ordered, Step, Potential, Legal, Enabled, Changes;
        RecoveryTerminates(s1, events[1..], id);
      }
    }
  }

  lemma PotentialNonNegative(s: State, id: JobID)
    requires Inv(s) && id in s.jobs
    ensures 0 in s.jobs[id].stages && 0 <= Potential(s.maxStageAttempts, s.jobs[id])
  {
    hide Inv, Potential, SpareAttempts, Unfinished;
    JobBounds(s, id);
    BoundedPotential(s.maxStageAttempts, s.jobs[id]);
  }

  lemma BoundedPotential(max: nat, job: JobState)
    requires 0 in job.stages && Bounded(max, job)
    ensures 0 <= Potential(max, job)
  {
    hide Times, SpareAttempts, Unfinished;
    NonNegative(SpareAttempts(max, job), TaskCount(job) + 2);
  }

  lemma ChangesStep(s: State, events: seq<Event>, id: JobID)
    requires Inv(s) && Ordered(s) && Legal(s, events) && events != [] && id in s.jobs
    ensures Enabled(s, events[0])
    ensures var s1 := Step(s, events[0]);
            && Inv(s1) && Ordered(s1) && Legal(s1, events[1..])
            && Changes(s, events, id) ==
               (if id in s1.jobs && s1.jobs[id] != s.jobs[id] then 1 else 0) + Changes(s1, events[1..], id)
            && (id !in s1.jobs ==> Changes(s, events, id) == 0)
  {
    StepInv(s, events[0]);
    hide Inv, Ordered, Step;
  }

  // ---------------------------------------------------------------- where outputs come from

  /** The report is the success of this task in this stage attempt. */
  predicate ReportsTask(r: TaskAttemptSuccess, id: JobID, k: StageID, st: StageState, p: PartitionID) {
    && r.jobID == id && r.stageID == k && r.partitionID == p && r.attempt.stageAttemptID == st.attemptID
    && 0 <= p < |st.tasks| && r.attempt.taskID == st.tasks[p].id
  }

  ghost predicate SourcedStage(seen: iset<TaskAttemptSuccess>, id: JobID, k: StageID, st: StageState) {
    forall p :: p in st.outputs ==> exists r :: r in seen && ReportsTask(r, id, k, st, p) && r.output == st.outputs[p]
  }

  ghost predicate SourcedJob(seen: iset<TaskAttemptSuccess>, id: JobID, job: JobState) {
    forall k :: k in job.stages ==> SourcedStage(seen, id, k, job.stages[k])
  }

  ghost predicate Sourced(seen: iset<TaskAttemptSuccess>, s: State) {
    forall id :: id in s.jobs ==> SourcedJob(seen, id, s.jobs[id])
  }

  ghost function SeenAfter(seen: iset<TaskAttemptSuccess>, e: Event): iset<TaskAttemptSuccess> {
    if e.TaskSucceededEvent? then seen + iset{e.success} else seen
  }

  lemma GrownSourced(seen: iset<TaskAttemptSuccess>, id: JobID, k: StageID, st: StageState, r: TaskAttemptSuccess)
    requires SourcedStage(seen, id, k, st) && ReportsTask(r, id, k, st, r.partitionID)
    ensures SourcedStage(seen + iset{r}, id, k, Grown(st, r.partitionID, r.output))
  {
    var st1 := Grown(st, r.partitionID, r.output);
    forall p | p in st1.outputs
      ensures exists q :: q in seen + iset{r} && ReportsTask(q, id, k, st1, p) && q.output == st1.outputs[p]
    {
      if p == r.partitionID {
        assert ReportsTask(r, id, k, st1, p);
      } else {
        var q :| q in seen && ReportsTask(q, id, k, st, p) && q.output == st.outputs[p];
        assert ReportsTask(q, id, k, st1, p);
      }
    }
  }

  lemma SourcedMore(seen: iset<TaskAttemptSuccess>, more: iset<TaskAttemptSuccess>, id: JobID, k: StageID, st: StageState)
    requires SourcedStage(seen, id, k, st)
    ensures SourcedStage(seen + more, id, k, st)
  {
    forall p | p in st.outputs ensures exists r :: r in seen + more && ReportsTask(r, id, k, st, p) && r.output == st.outputs[p] {
      var r :| r in seen && ReportsTask(r, id, k, st, p) && r.output == st.outputs[p];
    }
  }

  /** Accepting a report leaves every output explained by a report of its own attempt. */
  lemma AcceptSourced(seen: iset<TaskAttemptSuccess>, s: State, e: Event, id: JobID)
    requires Accepts(s, e, id) && SourcedJob(seen, id, s.jobs[id])
    ensures SourcedJob(seen + iset{e.success}, id, AfterAccept(s, e, id))
  {
    var job, k := s.jobs[id], e.success.stageID;
    hide AcceptableOutput, SourcedStage;
    forall j | j in job.stages ensures SourcedStage(seen + iset{e.success}, id, j, AfterAccept(s, e, id).stages[j]) {
      if j == k {
        GrownSourced(seen, id, k, job.stages[k], e.success);
      } else {
        SourcedMore(seen, iset{e.success}, id, j, job.stages[j]);
      }
    }
  }

  lemma EmptySourced(seen: iset<TaskAttemptSuccess>, id: JobID, k: StageID, st: StageState)
    requires st.outputs == map[]
    ensures SourcedStage(seen, id, k, st)
  {
  }

  lemma MovesSourced(seen: iset<TaskAttemptSuccess>, s: State, e: Event, id: JobID, after: JobState)
    requires id in s.jobs && Moves(s, e, id, after) && SourcedJob(seen, id, s.jobs[id])
    requires ShuffleShape(s.jobs[id]) ==> s.jobs[id].stages[1].status == StageRunning || s.jobs[id].stages[1].outputs == map[]
    requires ShuffleShape(s.jobs[id]) && s.jobs[id].stages[0].status == StageRunning ==> s.jobs[id].stages[1].outputs == map[]
    ensures SourcedJob(SeenAfter(seen, e), id, after)
  {
    var before := s.jobs[id];
    hide AcceptableOutput, SourcedStage;
    var seen1 := SeenAfter(seen, e);
    forall k | k in after.stages ensures SourcedStage(seen1, id, k, after.stages[k]) {
      if Recovers(s, e, id, after) {
        EmptySourced(seen1, id, k, after.stages[k]);
      } else if GrowsOutputs(s, e, id, after) {
        AcceptSourced(seen, s, e, id);
      } else if StartsChild(s, e, id, after) {
        AcceptSourced(seen, s, e, id);
        if k == 1 { EmptySourced(seen1, id, k, after.stages[k]); }
      } else if e.TaskSucceededEvent? {
        SourcedMore(seen, iset{e.success}, id, k, before.stages[k]);
      }
    }
  }

  lemma WaitingChild(s: State, id: JobID)
    requires Inv(s) && id in s.jobs && ShuffleShape(s.jobs[id])
    ensures s.jobs[id].stages[1].status == StageRunning || s.jobs[id].stages[1].outputs == map[]
    ensures s.jobs[id].stages[0].status == StageRunning ==> s.jobs[id].stages[1].outputs == map[]
  {
    var job := s.jobs[id];
    assert JobOK(s.launched, s.retired, s.maxStageAttempts, id, job);
    assert StageOK(id, job.runID, 1, s.maxStageAttempts, job.stages[1]);
  }

  // ---------------------------------------------------------------- jobs keep to their plan

  /** The job runs these stages, each with its own tasks. */
  predicate Follows(job: JobState, p: StagePlan)
    requires forall i :: 0 <= i < |p.stages| ==> p.stages[i].numPartitions > 0
  {
    forall k :: k in job.stages ==>
      k < |p.stages| && job.stages[k].stage == p.stages[k] && job.stages[k].tasks == TasksOfStage(AllTasks(p.stages), k)
  }

  /** A job that has just been submitted follows its plan and has no outputs. */
  lemma NewJobFollows(s: State, id: JobID, nodes: Nodes, action: ActionSpec, cancelled: bool)
    requires Inv(s) && id !in s.jobs && id !in s.responses && id in SubmitJob(s, id, nodes, action, cancelled).jobs
    ensures ExecutionPlan(s.functions, nodes, action).Some?
    ensures var job := SubmitJob(s, id, nodes, action, cancelled).jobs[id];
            && job.action == action && Follows(job, ExecutionPlan(s.functions, nodes, action).value)
            && forall k :: k in job.stages ==> job.stages[k].outputs == map[]
  {
    var p := ExecutionPlan(s.functions, nodes, action);
    assert !s.stopping && p.Some?;
    var job := NewJob(action, p.value, AllTasks(p.value.stages), cancelled);
    ExecutionPlanPending(s.functions, nodes, id, s.maxStageAttempts, action, cancelled);
    FreshJobFollows(s.functions, nodes, action, cancelled);
    NewJobOrdered(action, p.value, AllTasks(p.value.stages), cancelled);
    hide Inv, NewJob, AllTasks, ExecutionPlan;
    FirstStartFollows(s.(jobs := s.jobs[id := job]), id, p.value);
  }

  lemma FreshJobFollows(names: FunctionNames, nodes: Nodes, action: ActionSpec, cancelled: bool)
    requires ExecutionPlan(names, nodes, action).Some?
    ensures var p := ExecutionPlan(names, nodes, action).value;
            var job := NewJob(action, p, AllTasks(p.stages), cancelled);
            && job.action == action && Follows(job, p) && forall k :: k in job.stages ==> job.stages[k].outputs == map[]
  {
    var p := ExecutionPlan(names, nodes, action).value;
    PlannedShape(names, nodes, action);
    var c :| WellFormed(c) && Some(p) == Some(PlanOf(c, action));
    ExecutableStages(c, action);
    hide *;
    FreshTableFollows(action, p, cancelled);
  }

  lemma FreshTableFollows(action: ActionSpec, p: StagePlan, cancelled: bool)
    requires 1 <= |p.stages| <= 2 && forall i :: 0 <= i < |p.stages| ==> p.stages[i].id == i && p.stages[i].numPartitions > 0
    ensures var job := NewJob(action, p, AllTasks(p.stages), cancelled);
            && job.action == action && Follows(job, p) && forall k :: k in job.stages ==> job.stages[k].outputs == map[]
  {
    NewJobTable(action, p, AllTasks(p.stages), cancelled);
    hide AllTasks, TasksOfStage, NewJob;
  }

  lemma FirstStartFollows(s: State, id: JobID, p: StagePlan)
    requires forall i :: 0 <= i < |p.stages| ==> p.stages[i].numPartitions > 0
    requires id in s.jobs && AllPending(id, s.maxStageAttempts, s.jobs[id]) && Follows(s.jobs[id], p)
    requires forall k :: k in s.jobs[id].stages ==> s.jobs[id].stages[k].outputs == map[]
    requires (forall k :: k in s.jobs[id].order ==> k in s.jobs[id].stages) && id in StartReady(s, id).jobs
    ensures var job := StartReady(s, id).jobs[id];
            && job.action == s.jobs[id].action && Follows(job, p)
            && forall k :: k in job.stages ==> job.stages[k].outputs == map[]
  {
    hide TasksOfStage, AllTasks, AllPending, StartReady, Follows;
    StartReadySelf(s, id);
    LaunchesFirst(s, id);
    StartedFollows(s.jobs[id], p, s.nextStageAttemptID);
  }

  lemma LaunchesFirst(s: State, id: JobID)
    requires id in s.jobs && AllPending(id, s.maxStageAttempts, s.jobs[id])
    requires forall k :: k in s.jobs[id].order ==> k in s.jobs[id].stages
    requires LaunchReady(s, id).error.None?
    ensures 0 in s.jobs[id].stages
    ensures LaunchReady(s, id).job == WithStage(s.jobs[id], 0, Started(s.jobs[id].stages[0], s.nextStageAttemptID))
  {
    assert !s.jobs[id].cancelled;
    LaunchFirst(s, id);
  }

  lemma StartedFollows(job: JobState, p: StagePlan, next: StageAttemptID)
    requires forall i :: 0 <= i < |p.stages| ==> p.stages[i].numPartitions > 0
    requires 0 in job.stages && Follows(job, p) && forall k :: k in job.stages ==> job.stages[k].outputs == map[]
    ensures var job1 := WithStage(job, 0, Started(job.stages[0], next));
            job1.action == job.action && Follows(job1, p) && forall k :: k in job1.stages ==> job1.stages[k].outputs == map[]
  {
    hide TasksOfStage, AllTasks;
  }

  lemma NewJobTable(action: ActionSpec, p: StagePlan, tasks: seq<Task>, cancelled: bool)
    requires 1 <= |p.stages| <= 2 && forall i :: 0 <= i < |p.stages| ==> p.stages[i].id == i
    ensures var job := NewJob(action, p, tasks, cancelled);
            && job.action == action
            && forall k :: k in job.stages ==> k < |p.stages| && job.stages[k] == NewStage(p.stages[k], tasks)
  {
    if |p.stages| == 1 { TableOfOne(p.stages, tasks); } else { TableOfTwo(p.stages, tasks); }
  }

  predicate SamePlan(before: JobState, after: JobState) {
    && after.action == before.action && after.stages.Keys == before.stages.Keys
    && after.order == before.order && after.resultStageID == before.resultStageID
    && forall k :: k in before.stages ==>
         after.stages[k].stage == before.stages[k].stage && after.stages[k].tasks == before.stages[k].tasks
  }

  lemma MovesKeepPlan(s: State, e: Event, id: JobID, after: JobState)
    requires id in s.jobs && Moves(s, e, id, after)
    ensures SamePlan(s.jobs[id], after)
  {
    hide AcceptableOutput, RunIDFor;
  }

  // ---------------------------------------------------------------- when inputs do not fit

  /** The last map output of a job with a shuffle. */
  predicate CompletesMap(s: State, e: Event, id: JobID) {
    && Accepts(s, e, id) && !s.jobs[id].cancelled && ShuffleShape(s.jobs[id])
    && e.success.stageID == 0 && s.jobs[id].stages[0].remaining == 1
  }

  /** The result stage it completes is not as wide as its shuffle. */
  predicate CompletesMismatch(s: State, e: Event, id: JobID) {
    && CompletesMap(s, e, id)
    && s.jobs[id].stages[1].stage.numPartitions != s.jobs[id].stages[0].stage.shuffleWrite.value.partitioner.numPartitions
  }

  predicate FailsWith(s: State, id: JobID, error: DagError) {
    id in s.responses && |s.responses[id]| > 0 && s.responses[id][0] == Failed(error)
  }

  /** Building a stage's inputs fails exactly when the map stage completes and the
      widths differ: validation lets such plans through. */
  lemma InputsFailExactly(s: State, e: Event, id: JobID)
    requires Inv(s) && Ordered(s) && Enabled(s, e) && id !in s.responses
    ensures FailsWith(Step(s, e), id, ErrInputs) <==> CompletesMismatch(s, e, id)
  {
    hide Inv, Ordered, SubmitJob, TaskSucceeded, TaskFailed, AcceptableOutput;
    match e {
      case JobSubmitted(j, nodes, action, cancelled) => SubmitInputs(s, j, nodes, action, cancelled, id);
      case TaskSucceededEvent(report) => SuccessInputs(s, report, id);
      case TaskFailedEvent(report) => FailureInputs(s, report, id);
      case TaskSetFinishedEvent(j, k, attempt) =>
      case JobCanceled(j) =>
      case ContextCancelled(j) =>
      case Stopping =>
    }
  }

  lemma SubmitInputs(s: State, id: JobID, nodes: Nodes, action: ActionSpec, cancelled: bool, other: JobID)
    requires Inv(s) && Ordered(s) && id !in s.jobs && id !in s.responses && other !in s.responses
    ensures !FailsWith(SubmitJob(s, id, nodes, action, cancelled), other, ErrInputs)
  {
    assert s.maxStageAttempts > 0;
    hide Inv, SubmitJob, StartReady, AllPending;
    if other != id { SubmitMoves(s, id, nodes, action, cancelled, other); }
    SubmitCases(s, id, nodes, action, cancelled);
    var after := SubmitJob(s, id, nodes, action, cancelled);
    if job :| !s.stopping && Enters(s, id, job, after) {
      if other == id { FirstNeedsNoInputs(s.(jobs := s.jobs[id := job]), id); }
    }
  }

  lemma FirstNeedsNoInputs(s: State, id: JobID)
    requires id in s.jobs && AllPending(id, s.maxStageAttempts, s.jobs[id])
    requires (forall k :: k in s.jobs[id].order ==> k in s.jobs[id].stages) && Sent(s, id) == []
    ensures !FailsWith(StartReady(s, id), id, ErrInputs)
  {
    if !s.jobs[id].cancelled {
      LaunchFirst(s, id);
    }
    hide AllPending;
    StartReadySelf(s, id);
  }

  lemma FailureInputs(s: State, report: TaskAttemptFailure, id: JobID)
    requires Inv(s) && Ordered(s) && id !in s.responses
    ensures !FailsWith(TaskFailed(s, report), id, ErrInputs)
  {
    hide Inv, Ordered, TaskFailed, StartReady, Recovering;
    var j := report.jobID;
    TaskFailedCases(s, report);
    if TaskFailed(s, report) != s && !FailsJob(s, j, TaskFailed(s, report)) {
      RecoveringFacts(s, j);
      UnansweredNow(s, j);
      ResetPairInv(s, j);
      var s1 := ResetPair(s, j, 0, 1);
      hide ShuffleJob, FailsJob, AllPending, InvExcept;
      if id == j { FirstNeedsNoInputs(s1, j); } else { StartReadyOthers(s1, j, id); }
    }
  }

  lemma SuccessInputs(s: State, report: TaskAttemptSuccess, id: JobID)
    requires Inv(s) && Ordered(s) && id !in s.responses
    ensures FailsWith(TaskSucceeded(s, report), id, ErrInputs) <==> CompletesMismatch(s, TaskSucceededEvent(report), id)
  {
    var e := TaskSucceededEvent(report);
    hide Inv, Ordered, AcceptSuccess, AcceptableOutput, ShuffleShape;
    if Accepts(s, e, report.jobID) && !s.jobs[report.jobID].cancelled {
      if id == report.jobID { AcceptInputs(s, report); } else { AcceptOthers(s, report, id); }
    }
  }

  lemma AcceptInputs(s: State, report: TaskAttemptSuccess)
    requires Inv(s) && Ordered(s) && report.jobID !in s.responses
    requires Accepts(s, TaskSucceededEvent(report), report.jobID) && !s.jobs[report.jobID].cancelled
    ensures FailsWith(AcceptSuccess(s, report.jobID, report.stageID, report.partitionID, report.output), report.jobID, ErrInputs)
            <==> CompletesMismatch(s, TaskSucceededEvent(report), report.jobID)
  {
    hide Inv, Ordered, AcceptableOutput, StartReady, MergeOutputs, RunIDFor, ShuffleShape;
    var e, id, k := TaskSucceededEvent(report), report.jobID, report.stageID;
    var job, job1 := s.jobs[id], AfterAccept(s, e, id);
    PendingHasMore(s, id, k, report.attempt, report.partitionID);
    assert job1.stages[k].remaining == job.stages[k].remaining - 1;
    ResultIsLast(s, id, k);
    if job.stages[k].remaining == 1 && k != job.resultStageID {
      LastMapOutput(s, report);
    }
  }

  lemma ResultIsLast(s: State, id: JobID, k: StageID)
    requires Inv(s) && id in s.jobs && k in s.jobs[id].stages
    ensures k != s.jobs[id].resultStageID <==> ShuffleShape(s.jobs[id]) && k == 0
  {
    assert JobOK(s.launched, s.retired, s.maxStageAttempts, id, s.jobs[id]);
  }

  lemma LastMapOutput(s: State, report: TaskAttemptSuccess)
    requires Inv(s) && Ordered(s) && report.jobID !in s.responses
    requires Accepts(s, TaskSucceededEvent(report), report.jobID) && !s.jobs[report.jobID].cancelled
    requires report.stageID != s.jobs[report.jobID].resultStageID && s.jobs[report.jobID].stages[report.stageID].remaining == 1
    ensures FailsWith(AcceptSuccess(s, report.jobID, report.stageID, report.partitionID, report.output), report.jobID, ErrInputs)
            <==> CompletesMismatch(s, TaskSucceededEvent(report), report.jobID)
  {
    var e, id := TaskSucceededEvent(report), report.jobID;
    var job, job1 := s.jobs[id], AfterAccept(s, e, id);
    ResultIsLast(s, id, report.stageID);
    assert JobOK(s.launched, s.retired, s.maxStageAttempts, id, job);
    AcceptedJob(s.launched, s.retired, s.maxStageAttempts, id, job, 0, report.partitionID, report.output, report.attempt);
    var s1 := s.(jobs := s.jobs[id := job1]);
    assert ChildReady(s.launched, s.retired, id, s.maxStageAttempts, job1);
    assert StageOK(id, job1.runID, 0, s.maxStageAttempts, job1.stages[0]);
    SnapshotValidity(id, job1.runID, 0, s.maxStageAttempts, job1.stages[0], job1.stages[1].stage);
    assert job.stages[0].attempts <= s.maxStageAttempts by { assert StageOK(id, job.runID, 0, s.maxStageAttempts, job.stages[0]); }
    hide JobOK, StageOK, AcceptableOutput, Inv, ValidSnapshot;
    LaunchSecond(s1, id);
    StartReadySelf(s1, id);
  }

  /** In a plan with one shuffle the widths match exactly when the target is as wide
      as the shuffle's partitioner: something to check on the lineage, before submitting it. */
  lemma WidthsAgreeExactly(c: Chain, action: ActionSpec)
    requires WellFormed(c) && |PlanOf(c, action).stages| == 2
    ensures var stages := PlanOf(c, action).stages;
            && stages[0].shuffleWrite.Some? && stages[1].numPartitions == c.width
            && (stages[1].numPartitions == stages[0].shuffleWrite.value.partitioner.numPartitions <==> ReaderFits(c, c.width))
  {
    UpstreamShape(c);
    ReaderWidth(c, c.width);
  }

  /** Plans of driver-built lineages have matching widths, so their inputs never fail. */
  lemma BuiltWidthsAgree(c: Chain, action: ActionSpec)
    requires WellFormed(c) && UniformChain(c) && |PlanOf(c, action).stages| == 2
    ensures var stages := PlanOf(c, action).stages;
            stages[0].shuffleWrite.Some? && stages[1].numPartitions == stages[0].shuffleWrite.value.partitioner.numPartitions
  {
    UniformReaderFits(c);
    WidthsAgreeExactly(c, action);
  }

  /** A map of width 4 over a reduction into 3 partitions. */
  function WidenedReader(path: string, f: string, g: string, h: string): Nodes {
    map[0 := SourceNode(0, path, 2), 1 := NarrowNode(1, SourceNode(0, path, 2), 0, OpMapToPair, f),
        2 := ReduceNode(2, 1, g, 0, PartitionerSpec(true, 3)),
        3 := NarrowNode(3, SourceNode(2, "", 4), 2, OpMap, h)]
  }

  /** Its chain. */
  function WidenedChain(path: string, f: string, g: string, h: string): Chain {
    var source := SourceRDD(0, OperatorSpec(OpSource, "", path), 2);
    var pairs := NarrowRDD(source, 1, OperatorSpec(OpMapToPair, f, ""), 2);
    var shuffle := ShuffleDependencySpec(0, PartitionerSpec(true, 3), g, true);
    NarrowRDD(ShuffledRDD(pairs, 2, OperatorSpec(OpReduceByKey, g, ""), 3, shuffle), 3, OperatorSpec(OpMap, h, ""), 4)
  }

  lemma WidenedIsChain(path: string, f: string, g: string, h: string)
    requires path != "" && f != "" && g != "" && h != ""
    ensures Grounded(WidenedReader(path, f, g, h), 3, 4)
    ensures ChainFrom(WidenedReader(path, f, g, h), 3, 4) == WidenedChain(path, f, g, h)
  {
    var nodes, c := WidenedReader(path, f, g, h), WidenedChain(path, f, g, h);
    assert Grounded(nodes, 0, 1);
    assert ChainFrom(nodes, 0, 1) == c.parent.parent.parent;
    assert Grounded(nodes, 1, 2);
    assert ChainFrom(nodes, 1, 2) == c.parent.parent;
    assert Grounded(nodes, 2, 3);
    assert ChainFrom(nodes, 2, 3) == c.parent;
  }

  lemma WidenedIsExecutable(path: string, f: string, g: string, h: string)
    ensures var p := PlanOf(WidenedChain(path, f, g, h), ActionSpec(ActionCollect, 3));
            Executable(p) && forall i :: 0 <= i < |p.stages| ==> p.stages[i].numPartitions > 0
    ensures !ReaderFits(WidenedChain(path, f, g, h), 4)
  {
    var c := WidenedChain(path, f, g, h);
    var stages := PlanOf(c, ActionSpec(ActionCollect, 3)).stages;
    assert Upstream(c.parent.parent.parent) == [] && Upstream(c.parent.parent) == [];
    assert Upstream(c) == Upstream(c.parent) == [MapStage(c.parent.parent, c.parent.shuffle)];
    assert stages == [MapStage(c.parent.parent, c.parent.shuffle), ResultStage(c, ActionSpec(ActionCollect, 3))];
    assert Parents(c.parent.parent) == Parents(c.parent.parent.parent) == [];
    assert Parents(c) == Parents(c.parent) == [0];
    assert Ops(c) == Ops(c.parent) + [RddOp(c)];
  }

  lemma WidenedIsRegistered(names: FunctionNames, path: string, f: string, g: string, h: string)
    requires f in names.pairMaps && g in names.reduces && h in names.maps
    ensures AllRegistered(names, WidenedChain(path, f, g, h))
  {
    var c := WidenedChain(path, f, g, h);
    assert AllRegistered(names, c.parent.parent.parent);
    assert AllRegistered(names, c.parent.parent);
    assert AllRegistered(names, c.parent);
  }

  /** Validation and planning let it through, although its inputs never fit. */
  lemma WidenedReaderIsPlanned(names: FunctionNames, path: string, f: string, g: string, h: string)
    requires path != "" && f != "" && g != "" && h != ""
    requires f in names.pairMaps && g in names.reduces && h in names.maps
    ensures var nodes, action := WidenedReader(path, f, g, h), ActionSpec(ActionCollect, 3);
            && Acceptable(nodes, 3) && Founded(nodes, 3) && ExecutionPlan(names, nodes, action).Some?
            && !ReaderFits(ChainOf(nodes, 3), nodes[3].numPartitions)
  {
    var nodes := WidenedReader(path, f, g, h);
    WidenedIsChain(path, f, g, h);
    WidenedIsExecutable(path, f, g, h);
    WidenedIsRegistered(names, path, f, g, h);
    hide AllRegistered, Executable, Grounded, ChainFrom, PlanOf, ReaderFits, Acceptable, WidenedChain;
    FoundedIsAcceptable(nodes, 3);
    var n: nat :| Grounded(nodes, 3, n) && ChainOf(nodes, 3) == ChainFrom(nodes, 3, n);
    ChainUnique(nodes, 3, n, 4);
  }
}
