/** The DAG scheduler as a transition system over values (scheduler/dag_scheduler.go,
    dag_recovery.go, dag_stage_execution.go). One event loop owns all of its state,
    so every event is one step. `DAGScheduler` in DagScheduler.dfy refines it. */
module Dag {
  import opened Types
  import opened Lineage
  import opened Planner

  datatype StageStatus = StagePending | StageRunning | StageSucceeded

  datatype StageState = StageState(
    stage: Stage, attemptID: StageAttemptID, status: StageStatus, attempts: nat, tasks: seq<Task>, remaining: int,
    outputs: map<PartitionID, TaskOutput>)

  /** `cancelled` is the state of the job's context. */
  datatype JobState = JobState(
    action: ActionSpec, runID: string, stages: map<StageID, StageState>, order: seq<StageID>, resultStageID: StageID,
    cancelled: bool)

  datatype DagError =
    | ErrStopped | ErrContext | ErrPlan | ErrOutput | ErrTaskFailed | ErrTaskSetEnded | ErrStageExhausted | ErrInputs
    | ErrNotRecoverable | ErrRecoveryExhausted

  datatype JobResult = JobResult(records: seq<Record>, count: int)

  datatype Answer = Completed(result: JobResult) | Failed(error: DagError)

  /** `responses` holds what each job's response channel was sent and `launched`
      every task set handed to the task scheduler; `retired` are the stage attempts
      whose context recovery cancelled. */
  datatype State = State(
    maxStageAttempts: nat, functions: FunctionNames, jobs: map<JobID, JobState>, nextStageAttemptID: StageAttemptID,
    stopping: bool, responses: map<JobID, seq<Answer>>, launched: seq<TaskSet>, retired: set<StageAttemptID>)

  function Initial(maxStageAttempts: nat, functions: FunctionNames): State {
    State(maxStageAttempts, functions, map[], 0, false, map[], [], {})
  }

  // ---------------------------------------------------------------- answering

  function Sent(s: State, id: JobID): seq<Answer> {
    if id in s.responses then s.responses[id] else []
  }

  function Respond(s: State, id: JobID, answer: Answer): State {
    s.(responses := s.responses[id := Sent(s, id) + [answer]])
  }

  function EndJob(s: State, id: JobID, answer: Answer): State {
    Respond(s, id, answer).(jobs := s.jobs - {id})
  }

  function FailJob(s: State, id: JobID, error: DagError): State {
    if id in s.jobs then EndJob(s, id, Failed(error)) else s
  }

  // ---------------------------------------------------------------- starting stages

  /** Stands for an absent output; the invariant shows it is never used. */
  const NO_OUTPUT := MapOutput(0, AttemptIdentity("", 0, 0, 0, 0, 0, 0, 0), 0, 0, [])

  function AcceptedOutput(parent: StageState, p: PartitionID): MapOutput {
    if p in parent.outputs && parent.outputs[p].shuffleOutput.Some? then parent.outputs[p].shuffleOutput.value else NO_OUTPUT
  }

  function AcceptedOutputs(parent: StageState): (r: seq<MapOutput>)
    ensures |r| == |parent.tasks|
    ensures forall i :: 0 <= i < |r| ==> r[i] == AcceptedOutput(parent, i)
  {
    seq(|parent.tasks|, i requires 0 <= i < |parent.tasks| => AcceptedOutput(parent, i))
  }

  /** The inputs of a child: its parent's accepted outputs, in partition order. */
  function Snapshot(runID: string, id: JobID, parent: StageState, child: Stage): InputSnapshot {
    InputSnapshot(runID, id, if parent.stage.shuffleWrite.Some? then parent.stage.shuffleWrite.value.shuffleID else 0,
                  parent.stage.id, parent.attemptID, |parent.tasks|, child.numPartitions, AcceptedOutputs(parent))
  }

  predicate Ready(job: JobState, stage: Stage) {
    forall i :: 0 <= i < |stage.parentIDs| ==>
      stage.parentIDs[i] in job.stages && job.stages[stage.parentIDs[i]].status == StageSucceeded
  }

  /** Progress of startReadyStages: the job so far and the task sets it launched. */
  datatype Launch = Launch(job: JobState, next: StageAttemptID, sets: seq<TaskSet>, error: Option<DagError>)

  function StageInputs(job: JobState, id: JobID, stage: Stage): Option<InputSnapshot>
    requires Ready(job, stage)
  {
    if stage.parentIDs == [] then None
    else Some(Snapshot(job.runID, id, job.stages[stage.parentIDs[0]], stage))
  }

  function StartStage(l: Launch, id: JobID, max: nat, k: StageID): (r: Launch)
    requires k in l.job.stages
    ensures r.job.stages.Keys == l.job.stages.Keys
  {
    var st := l.job.stages[k];
    if st.status != StagePending || !Ready(l.job, st.stage) then l
    else if st.attempts >= max then l.(error := Some(ErrStageExhausted))
    else
      var inputs := StageInputs(l.job, id, st.stage);
      if inputs.Some? && !ValidSnapshot(inputs.value) then l.(error := Some(ErrInputs))
      else
        var started := st.(attemptID := l.next, status := StageRunning, attempts := st.attempts + 1);
        Launch(l.job.(stages := l.job.stages[k := started]), l.next + 1,
               l.sets + [TaskSet(inputs, id, k, l.next, st.tasks)], None)
  }

  function StartStages(l: Launch, id: JobID, max: nat, order: seq<StageID>): Launch
    requires forall k :: k in order ==> k in l.job.stages
    decreases |order|
  {
    if order == [] || l.error.Some? then l else StartStages(StartStage(l, id, max, order[0]), id, max, order[1..])
  }

  predicate Ordered(s: State) {
    forall id, k :: id in s.jobs && k in s.jobs[id].order ==> k in s.jobs[id].stages
  }

  function LaunchReady(s: State, id: JobID): Launch
    requires id in s.jobs && forall k :: k in s.jobs[id].order ==> k in s.jobs[id].stages
  {
    var l := Launch(s.jobs[id], s.nextStageAttemptID, [], None);
    if s.jobs[id].cancelled then l.(error := Some(ErrContext))
    else StartStages(l, id, s.maxStageAttempts, s.jobs[id].order)
  }

  /** startReadyStages with the handling every caller gives its error. */
  function StartReady(s: State, id: JobID): State
    requires id in s.jobs && forall k :: k in s.jobs[id].order ==> k in s.jobs[id].stages
  {
    var l := LaunchReady(s, id);
    var s1 := s.(jobs := s.jobs[id := l.job], nextStageAttemptID := l.next, launched := s.launched + l.sets);
    if l.error.Some? then FailJob(s1, id, l.error.value) else s1
  }

  // ---------------------------------------------------------------- submission

  /** Only a single narrow stage, or one shuffle and the stage that reads it. */
  predicate Executable(p: StagePlan) {
    || (|p.stages| == 1 && p.stages[0].kind == StageResult && p.stages[0].parentIDs == [] && p.stages[0].shuffleWrite.None?)
    || (|p.stages| == 2
        && var parent, child := p.stages[0], p.stages[1];
           && parent.kind == StageShuffleMap && parent.parentIDs == [] && parent.shuffleWrite.Some?
           && child.kind == StageResult && child.parentIDs == [parent.id] && child.operations != []
           && child.operations[0].ShuffleRead? && child.operations[0].shuffleID == parent.shuffleWrite.value.shuffleID)
  }

  function NewStage(stage: Stage, tasks: seq<Task>): StageState {
    StageState(stage, 0, StagePending, 0, TasksOfStage(tasks, stage.id), stage.numPartitions, map[])
  }

  function StageTable(stages: seq<Stage>, tasks: seq<Task>): (r: map<StageID, StageState>)
    ensures forall k :: k in StageOrder(stages) <==> k in r
  {
    if stages == [] then map[]
    else
      var last := stages[|stages| - 1];
      StageTable(stages[..|stages| - 1], tasks)[last.id := NewStage(last, tasks)]
  }

  function StageOrder(stages: seq<Stage>): seq<StageID> {
    if stages == [] then [] else StageOrder(stages[..|stages| - 1]) + [stages[|stages| - 1].id]
  }

  function ResultID(stages: seq<Stage>): StageID {
    if stages == [] then 0
    else if stages[|stages| - 1].kind == StageResult then stages[|stages| - 1].id
    else ResultID(stages[..|stages| - 1])
  }

  function NewJob(action: ActionSpec, p: StagePlan, tasks: seq<Task>, cancelled: bool): JobState {
    JobState(action, "", StageTable(p.stages, tasks), StageOrder(p.stages), ResultID(p.stages), cancelled)
  }

  /** The plan of a submission the scheduler can execute. */
  ghost function ExecutionPlan(names: FunctionNames, nodes: Nodes, action: ActionSpec): (r: Option<StagePlan>)
    ensures r.Some? ==> forall i :: 0 <= i < |r.value.stages| ==> r.value.stages[i].numPartitions > 0
  {
    var p := Planned(names, nodes, action);
    if p.None? || !Executable(p.value) || exists i :: 0 <= i < |p.value.stages| && p.value.stages[i].numPartitions <= 0 then None
    else p
  }

  ghost function SubmitJob(s: State, id: JobID, nodes: Nodes, action: ActionSpec, cancelled: bool): State {
    if s.stopping then Respond(s, id, Failed(ErrStopped))
    else
      var p := ExecutionPlan(s.functions, nodes, action);
      if p.None? then Respond(s, id, Failed(ErrPlan))
      else
        var job := NewJob(action, p.value, AllTasks(p.value.stages), cancelled);
        StartReady(s.(jobs := s.jobs[id := job]), id)
  }

  // ---------------------------------------------------------------- task reports

  /** The report is about a task of the current attempt of a running stage that
      has no accepted output yet. */
  predicate PendingTask(s: State, id: JobID, k: StageID, attempt: TaskAttemptIdentity, p: PartitionID) {
    && id in s.jobs && k in s.jobs[id].stages
    && var st := s.jobs[id].stages[k];
       && st.status == StageRunning && attempt.stageAttemptID == st.attemptID && 0 <= p < |st.tasks|
       && st.tasks[p].id == attempt.taskID && p !in st.outputs
  }

  function RunIDFor(job: JobState, output: TaskOutput): string {
    if job.runID == "" && output.shuffleOutput.Some? then output.shuffleOutput.value.attempt.runID else job.runID
  }

  /** Records an accepted output. */
  function Accept(job: JobState, k: StageID, p: PartitionID, output: TaskOutput): (r: JobState)
    requires k in job.stages
    ensures r.order == job.order && r.stages.Keys == job.stages.Keys
  {
    var st := job.stages[k];
    var left := st.remaining - 1;
    job.(runID := if st.stage.kind == StageShuffleMap then RunIDFor(job, output) else job.runID,
         stages := job.stages[k := st.(outputs := st.outputs[p := output], remaining := left,
                                       status := if left == 0 then StageSucceeded else st.status)])
  }

  /** Outputs of partitions 0 to n - 1 merged in that order. */
  function MergeOutputs(kind: ActionKind, outputs: map<PartitionID, TaskOutput>, n: nat): JobResult {
    if n == 0 then JobResult([], 0)
    else
      var before := MergeOutputs(kind, outputs, n - 1);
      var o := if n - 1 in outputs then outputs[n - 1] else TaskOutput(None, 0, None);
      match kind
      case ActionCollect => before.(records := before.records + if o.records.Some? then o.records.value else [])
      case ActionCount => before.(count := before.count + o.count)
      case ActionUnsupported => before
  }

  function TaskSucceeded(s: State, report: TaskAttemptSuccess): State
    requires Ordered(s)
  {
    var id, k, p := report.jobID, report.stageID, report.partitionID;
    if !PendingTask(s, id, k, report.attempt, p) then s
    else
      var job := s.jobs[id];
      var st := job.stages[k];
      if job.cancelled then FailJob(s, id, ErrContext)
      else if !AcceptableOutput(report.output, RunIDFor(job, report.output), id, st.tasks[p], report.attempt) then
        FailJob(s, id, ErrOutput)
      else AcceptSuccess(s, id, k, p, report.output)
  }

  /** Counts an acceptable output and moves on when it was the stage's last. */
  function AcceptSuccess(s: State, id: JobID, k: StageID, p: PartitionID, output: TaskOutput): State
    requires Ordered(s) && id in s.jobs && k in s.jobs[id].stages
  {
    var job := s.jobs[id];
    var job1 := Accept(job, k, p, output);
    var s1 := s.(jobs := s.jobs[id := job1]);
    if job1.stages[k].remaining != 0 then s1
    else if k != job.resultStageID then StartReady(s1, id)
    else EndJob(s1, id, Completed(MergeOutputs(job.action.kind, job1.stages[k].outputs, |job1.stages[k].outputs|)))
  }

  function ResetStage(st: StageState): StageState {
    st.(status := StagePending, remaining := |st.tasks|, outputs := map[])
  }

  /** Whether a lost input can be recovered, and if not why. */
  function RecoveryError(s: State, report: TaskAttemptFailure): Option<DagError>
    requires PendingTask(s, report.jobID, report.stageID, report.attempt, report.partitionID)
  {
    var job := s.jobs[report.jobID];
    var child := job.stages[report.stageID];
    if child.stage.kind != StageResult || |child.stage.parentIDs| != 1 then Some(ErrNotRecoverable)
    else if child.stage.parentIDs[0] !in job.stages then Some(ErrNotRecoverable)
    else
      var parent := job.stages[child.stage.parentIDs[0]];
      if parent.stage.kind != StageShuffleMap || parent.status != StageSucceeded then Some(ErrNotRecoverable)
      else if !ValidFailure(report.kind, report.shuffleInput) || report.shuffleInput.None? then Some(ErrNotRecoverable)
      else if !NamesAccepted(parent, report.shuffleInput.value, report.partitionID) then Some(ErrNotRecoverable)
      else if parent.attempts >= s.maxStageAttempts || child.attempts >= s.maxStageAttempts then Some(ErrRecoveryExhausted)
      else None
  }

  predicate NamesAccepted(parent: StageState, ref: InputReference, p: PartitionID) {
    var m := ref.attempt.mapPartitionID;
    ref.partitionID == p && m in parent.outputs && parent.outputs[m].shuffleOutput.Some?
    && parent.outputs[m].shuffleOutput.value.attempt == ref.attempt
  }

  /** Forgets both stages' progress and cancels their attempts. */
  function ResetPair(s: State, id: JobID, parent: StageID, child: StageID): (r: State)
    requires id in s.jobs && parent in s.jobs[id].stages && child in s.jobs[id].stages
    ensures id in r.jobs && r.jobs[id].order == s.jobs[id].order && r.jobs[id].stages.Keys == s.jobs[id].stages.Keys
  {
    var job := s.jobs[id];
    var stages := job.stages[parent := ResetStage(job.stages[parent])];
    s.(jobs := s.jobs[id := job.(stages := stages[child := ResetStage(stages[child])])],
       retired := s.retired + {job.stages[parent].attemptID, job.stages[child].attemptID})
  }

  function TaskFailed(s: State, report: TaskAttemptFailure): State
    requires Ordered(s)
  {
    var id, k := report.jobID, report.stageID;
    if !PendingTask(s, id, k, report.attempt, report.partitionID) then s
    else if s.jobs[id].cancelled then FailJob(s, id, ErrContext)
    else if report.kind != FailureShuffleInput then FailJob(s, id, ErrTaskFailed)
    else
      var error := RecoveryError(s, report);
      if error.Some? then FailJob(s, id, error.value)
      else StartReady(ResetPair(s, id, s.jobs[id].stages[k].stage.parentIDs[0], k), id)
  }

  /** The task scheduler is done with a set whose stage still runs. */
  function TaskSetFinished(s: State, id: JobID, k: StageID, attempt: StageAttemptID): State {
    if id in s.jobs && k in s.jobs[id].stages && s.jobs[id].stages[k].status == StageRunning
       && s.jobs[id].stages[k].attemptID == attempt then
      FailJob(s, id, if s.jobs[id].cancelled then ErrContext else ErrTaskSetEnded)
    else s
  }

  function CancelContext(s: State, id: JobID): State {
    if id in s.jobs then s.(jobs := s.jobs[id := s.jobs[id].(cancelled := true)]) else s
  }

  /** Fails every job at once; the source goes through them in no fixed order. */
  function Stop(s: State): State {
    s.(stopping := true, jobs := map[],
       responses := map id | id in s.responses.Keys + s.jobs.Keys ::
                      Sent(s, id) + if id in s.jobs then [Failed(ErrStopped)] else [])
  }

  // ---------------------------------------------------------------- runs

  datatype Event =
    | JobSubmitted(id: JobID, nodes: Nodes, action: ActionSpec, cancelled: bool)
    | TaskSucceededEvent(success: TaskAttemptSuccess)
    | TaskFailedEvent(failure: TaskAttemptFailure)
    | TaskSetFinishedEvent(id: JobID, stage: StageID, attempt: StageAttemptID)
    | JobCanceled(id: JobID)
    | ContextCancelled(id: JobID)
    | Stopping

  ghost function Step(s: State, e: Event): State
    requires Ordered(s)
  {
    match e
    case JobSubmitted(id, nodes, action, cancelled) => SubmitJob(s, id, nodes, action, cancelled)
    case TaskSucceededEvent(report) => TaskSucceeded(s, report)
    case TaskFailedEvent(report) => TaskFailed(s, report)
    case TaskSetFinishedEvent(id, k, attempt) => TaskSetFinished(s, id, k, attempt)
    case JobCanceled(id) => FailJob(s, id, ErrContext)
    case ContextCancelled(id) => CancelContext(s, id)
    case Stopping => Stop(s)
  }

  /** Job numbers come from a counter, so no job is submitted twice. */
  predicate Enabled(s: State, e: Event) {
    e.JobSubmitted? ==> e.id !in s.jobs && e.id !in s.responses
  }
}
