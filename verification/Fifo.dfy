/** The FIFO task scheduler as a transition system over values
    (scheduler/fifo_task_scheduler.go, worker_expiry.go, worker_registry.go).
    Every public method holds one mutex, so it is one step. ScheduleTaskSet is
    two kinds of step: Submit, and Drain for each turn of its delivery loop.
    `FIFOTaskScheduler` in FifoScheduler.dfy refines these functions. */
module Fifo {
  import opened Types
  import opened Ordering

  datatype SetKey = SetKey(job: JobID, stage: StageID, attempt: StageAttemptID)

  datatype TaskState = TaskPending | TaskRunning | TaskSucceeded | TaskFailed

  datatype LogicalTask = LogicalTask(
    task: Task, state: TaskState, active: TaskAttemptID, output: Option<TaskOutput>, attempts: nat)

  datatype TerminalReport =
    | SuccessReport(success: TaskAttemptSuccess)
    | FailureReport(failure: TaskAttemptFailure, requeued: bool, exhausted: bool, attempts: nat)

  datatype SetError = NoError | ErrContext | ErrTask | ErrSchedulerClosed

  /** `delivered` is the history of reports already handed to ScheduleTaskSet,
      `returned` whether it has returned; `cancelled` is the state of its context. */
  datatype FifoTaskSet = FifoTaskSet(
    inputs: Option<InputSnapshot>, sequence: nat, cancelled: bool, tasks: seq<LogicalTask>, remaining: int,
    reports: seq<TerminalReport>, terminal: bool, err: SetError, delivered: seq<TerminalReport>, returned: bool)

  datatype TaskAssignment = TaskAssignment(
    inputs: Option<InputSnapshot>, runID: string, jobID: JobID, stageID: StageID,
    identity: TaskAttemptIdentity, task: Task, workerID: WorkerID)

  /** `key` and `index` say which logical task the attempt belongs to. */
  datatype AssignedAttempt = AssignedAttempt(
    assignment: TaskAssignment, key: SetKey, index: nat, state: TaskState, terminal: bool)

  datatype WorkerStatus = WorkerAlive | WorkerLost

  datatype WorkerState = WorkerState(
    status: WorkerStatus, totalSlots: int, reportedFree: int, running: seq<TaskAttemptID>, lastHeartbeat: int,
    reserved: set<TaskAttemptID>)

  datatype State = State(
    maxTaskAttempts: nat, runID: string, workers: map<WorkerID, WorkerState>, sets: map<SetKey, FifoTaskSet>,
    queue: seq<SetKey>, attempts: map<TaskAttemptID, AssignedAttempt>, nextSequence: nat,
    nextAttempt: TaskAttemptID, closed: bool)

  datatype Error =
    | ErrClosed | ErrUnknownWorker | ErrWorkerLost | ErrWorkerConflict | ErrInvalidWorker | ErrInvalidOffer
    | ErrUnknownAttempt | ErrMismatchedReport | ErrInvalidReport | ErrInvalidTaskSet | ErrDuplicateTaskSet
    | ErrCancelled | ErrInvalidTimeout

  // ---------------------------------------------------------------- one task set

  function SetTask(set0: FifoTaskSet, i: nat, t: LogicalTask): FifoTaskSet
    requires i < |set0.tasks|
  {
    set0.(tasks := set0.tasks[i := t])
  }

  function FinishSet(set0: FifoTaskSet, err: SetError): FifoTaskSet {
    if set0.terminal then set0 else set0.(terminal := true, err := err)
  }

  function AssignTask(set0: FifoTaskSet, i: nat, id: TaskAttemptID): FifoTaskSet
    requires i < |set0.tasks|
  {
    var t := set0.tasks[i];
    SetTask(set0, i, t.(state := TaskRunning, active := id, attempts := t.attempts + 1))
  }

  /** An accepted success of the running attempt of task `i`. */
  function SucceedTask(set0: FifoTaskSet, i: nat, report: TaskAttemptSuccess): FifoTaskSet
    requires i < |set0.tasks|
  {
    var set1 := SetTask(set0, i, set0.tasks[i].(state := TaskSucceeded));
    if set1.terminal then set1
    else if set1.cancelled then FinishSet(set1, ErrContext)
    else
      var set2 := SetTask(set1, i, set1.tasks[i].(output := Some(report.output)))
                  .(remaining := set1.remaining - 1, reports := set1.reports + [SuccessReport(report)]);
      if set2.remaining == 0 then FinishSet(set2, NoError) else set2
  }

  predicate Retryable(kind: FailureKind) {
    kind == FailureExecution || kind == FailureWorkerLost
  }

  /** A failure of the running attempt of task `i`: requeued, or the end of the set. */
  function FailTask(set0: FifoTaskSet, i: nat, report: TaskAttemptFailure, maxTaskAttempts: nat): FifoTaskSet
    requires i < |set0.tasks|
  {
    var set1 := SetTask(set0, i, set0.tasks[i].(state := TaskFailed));
    if set1.terminal then set1
    else if set1.cancelled then FinishSet(set1, ErrContext)
    else
      var t := set1.tasks[i];
      var requeued := Retryable(report.kind) && t.attempts < maxTaskAttempts;
      var entry := FailureReport(report, requeued, Retryable(report.kind) && !requeued, t.attempts);
      var set2 := set1.(reports := set1.reports + [entry]);
      if requeued then SetTask(set2, i, t.(state := TaskPending)) else FinishSet(set2, ErrTask)
  }

  /** One turn of the delivery loop: hand over the queued reports, return once terminal. */
  function DrainSet(set0: FifoTaskSet): FifoTaskSet {
    var set1 := if set0.cancelled then FinishSet(set0, ErrContext) else set0;
    set1.(delivered := set1.delivered + set1.reports, reports := [], returned := set1.terminal)
  }

  // ---------------------------------------------------------------- submitting

  function InsertTask(t: Task, s: seq<Task>): seq<Task> {
    if s == [] then [t]
    else if t.partitionID <= s[0].partitionID then [t] + s
    else [s[0]] + InsertTask(t, s[1..])
  }

  function SortTasks(tasks: seq<Task>): seq<Task> {
    if tasks == [] then [] else InsertTask(tasks[0], SortTasks(tasks[1..]))
  }

  predicate ValidTaskSet(input: TaskSet) {
    && |input.tasks| > 0
    && (input.inputs.Some? ==> ValidSnapshot(input.inputs.value))
    && (forall i :: 0 <= i < |input.tasks| ==> input.tasks[i].stageID == input.stageID && input.tasks[i].partitionID >= 0)
    && (forall i, j :: 0 <= i < j < |input.tasks| ==>
          input.tasks[i].id != input.tasks[j].id && input.tasks[i].partitionID != input.tasks[j].partitionID)
  }

  function KeyOf(input: TaskSet): SetKey {
    SetKey(input.jobID, input.stageID, input.stageAttemptID)
  }

  function Fresh(tasks: seq<Task>): (r: seq<LogicalTask>)
    ensures |r| == |tasks|
    ensures forall i :: 0 <= i < |r| ==> r[i] == LogicalTask(tasks[i], TaskPending, 0, None, 0)
  {
    seq(|tasks|, i requires 0 <= i < |tasks| => LogicalTask(tasks[i], TaskPending, 0, None, 0))
  }

  function NewSet(input: TaskSet, sequence: nat): FifoTaskSet {
    FifoTaskSet(input.inputs, sequence, false, Fresh(SortTasks(input.tasks)), |input.tasks|, [], false, NoError, [], false)
  }

  function Submit(s: State, input: TaskSet, cancelled: bool): Outcome<()> {
    if !ValidTaskSet(input) then Outcome(s, Refused(ErrInvalidTaskSet))
    else if s.closed then Outcome(s, Refused(ErrClosed))
    else if cancelled then Outcome(s, Refused(ErrCancelled))
    else if KeyOf(input) in s.sets then Outcome(s, Refused(ErrDuplicateTaskSet))
    else
      Outcome(s.(sets := s.sets[KeyOf(input) := NewSet(input, s.nextSequence)],
                 queue := s.queue + [KeyOf(input)], nextSequence := s.nextSequence + 1), Granted(()))
  }

  datatype Reply<+T> = Refused(error: Error) | Granted(value: T)
  datatype Outcome<+T> = Outcome(state: State, reply: Reply<T>)

  function PutSet(s: State, key: SetKey, set1: FifoTaskSet): State {
    s.(sets := s.sets[key := set1])
  }

  function Drain(s: State, key: SetKey): State {
    if key in s.sets && !s.sets[key].returned then PutSet(s, key, DrainSet(s.sets[key])) else s
  }

  function CancelContext(s: State, key: SetKey): State {
    if key in s.sets then PutSet(s, key, s.sets[key].(cancelled := true)) else s
  }

  // ---------------------------------------------------------------- workers

  function Register(s: State, id: WorkerID, slots: int, now: int): Outcome<()> {
    if s.closed then Outcome(s, Refused(ErrClosed))
    else if id == "" || slots <= 0 then Outcome(s, Refused(ErrInvalidWorker))
    else if id in s.workers then
      if s.workers[id].status == WorkerLost then Outcome(s, Refused(ErrWorkerLost))
      else if s.workers[id].totalSlots != slots then Outcome(s, Refused(ErrWorkerConflict))
      else Outcome(s, Granted(()))
    else Outcome(s.(workers := s.workers[id := WorkerState(WorkerAlive, slots, 0, [], now, {})]), Granted(()))
  }

  predicate Linked(s: State, a: AssignedAttempt) {
    a.key in s.sets && a.index < |s.sets[a.key].tasks| && a.assignment.workerID in s.workers
  }

  /** Attempts name their task and worker, reservations their attempt, the queue its sets. */
  predicate Wired(s: State) {
    && (forall id :: id in s.attempts ==> Linked(s, s.attempts[id]))
    && (forall w, id :: w in s.workers && id in s.workers[w].reserved ==> id in s.attempts)
    && (forall key :: key in s.queue ==> key in s.sets)
  }

  predicate ValidOffer(s: State, id: WorkerID, free: int, running: seq<TaskAttemptID>)
    requires id in s.workers
  {
    && 0 <= free <= s.workers[id].totalSlots && |running| <= s.workers[id].totalSlots - free
    && (forall i :: 0 <= i < |running| ==> running[i] in s.attempts && s.attempts[running[i]].assignment.workerID == id)
    && (forall i, j :: 0 <= i < j < |running| ==> running[i] != running[j])
  }

  function Min(a: int, b: int): int { if a <= b then a else b }

  function Seen(running: seq<TaskAttemptID>): set<TaskAttemptID> { set x | x in running }

  /** Slots an offer leaves for new work: what the worker says is free less the
      reservations it does not mention, within what is not reserved at all. */
  function Available(w: WorkerState, free: int, running: seq<TaskAttemptID>): int {
    Min(free - |w.reserved - Seen(running)|, w.totalSlots - |w.reserved|)
  }

  datatype OfferState = OfferState(state: State, assignments: seq<TaskAssignment>, available: int)

  function NewAssignment(s: State, key: SetKey, i: nat, id: WorkerID): TaskAssignment
    requires key in s.sets && i < |s.sets[key].tasks|
  {
    var t := s.sets[key].tasks[i].task;
    TaskAssignment(s.sets[key].inputs, s.runID, key.job, key.stage,
                   TaskAttemptIdentity(s.nextAttempt, t.id, key.attempt), t, id)
  }

  /** Assigns task `i` of a set to a worker under a new attempt. */
  function Assign(s: State, key: SetKey, i: nat, id: WorkerID): State
    requires key in s.sets && i < |s.sets[key].tasks| && id in s.workers
  {
    var a := AssignedAttempt(NewAssignment(s, key, i, id), key, i, TaskRunning, false);
    var w := s.workers[id];
    s.(nextAttempt := s.nextAttempt + 1,
       sets := s.sets[key := AssignTask(s.sets[key], i, s.nextAttempt)],
       attempts := s.attempts[s.nextAttempt := a],
       workers := s.workers[id := w.(reserved := w.reserved + {s.nextAttempt})])
  }

  function OfferTasks(o: OfferState, id: WorkerID, key: SetKey, i: nat): (r: OfferState)
    requires key in o.state.sets && i <= |o.state.sets[key].tasks| && id in o.state.workers
    ensures r.state.sets.Keys == o.state.sets.Keys && r.state.workers.Keys == o.state.workers.Keys
    ensures r.state.queue == o.state.queue
    decreases |o.state.sets[key].tasks| - i
  {
    if i == |o.state.sets[key].tasks| || o.available <= 0 then o
    else if o.state.sets[key].tasks[i].state != TaskPending then OfferTasks(o, id, key, i + 1)
    else
      var assignment := NewAssignment(o.state, key, i, id);
      OfferTasks(OfferState(Assign(o.state, key, i, id), o.assignments + [assignment], o.available - 1), id, key, i + 1)
  }

  function OfferSet(o: OfferState, id: WorkerID, key: SetKey): (r: OfferState)
    requires key in o.state.sets && id in o.state.workers
    ensures r.state.sets.Keys == o.state.sets.Keys && r.state.workers.Keys == o.state.workers.Keys
    ensures r.state.queue == o.state.queue
  {
    var set0 := o.state.sets[key];
    if set0.terminal then o
    else if set0.cancelled then o.(state := PutSet(o.state, key, FinishSet(set0, ErrContext)))
    else OfferTasks(o, id, key, 0)
  }

  function OfferSets(o: OfferState, id: WorkerID, keys: seq<SetKey>): (r: OfferState)
    requires id in o.state.workers && forall key :: key in keys ==> key in o.state.sets
    ensures r.state.sets.Keys == o.state.sets.Keys && r.state.workers.Keys == o.state.workers.Keys
    ensures r.state.queue == o.state.queue
    decreases |keys|
  {
    if keys == [] then o else OfferSets(OfferSet(o, id, keys[0]), id, keys[1..])
  }

  function LiveKeys(sets: map<SetKey, FifoTaskSet>, keys: seq<SetKey>): seq<SetKey>
    requires forall key :: key in keys ==> key in sets
  {
    if keys == [] then []
    else
      var last := keys[|keys| - 1];
      LiveKeys(sets, keys[..|keys| - 1]) + if sets[last].terminal then [] else [last]
  }

  function Compact(s: State): State
    requires forall key :: key in s.queue ==> key in s.sets
  {
    s.(queue := LiveKeys(s.sets, s.queue))
  }

  function Heartbeat(s: State, id: WorkerID, free: int, running: seq<TaskAttemptID>, now: int): State
    requires id in s.workers
  {
    s.(workers := s.workers[id := s.workers[id].(reportedFree := free, running := running, lastHeartbeat := now)])
  }

  function Offer(s: State, id: WorkerID, free: int, running: seq<TaskAttemptID>, now: int): Outcome<seq<TaskAssignment>>
    requires Wired(s)
  {
    if s.closed then Outcome(s, Refused(ErrClosed))
    else if id !in s.workers then Outcome(s, Refused(ErrUnknownWorker))
    else if s.workers[id].status == WorkerLost then Outcome(s, Refused(ErrWorkerLost))
    else if !ValidOffer(s, id, free, running) then Outcome(s, Refused(ErrInvalidOffer))
    else
      var o := OfferSets(OfferState(Heartbeat(s, id, free, running, now), [], Available(s.workers[id], free, running)), id, s.queue);
      Outcome(Compact(o.state), Granted(o.assignments))
  }

  // ---------------------------------------------------------------- reports

  datatype ReportCheck = Reject(error: Error) | Obsolete | Live

  /** Whether a report is an error, known but late, or about the live attempt of its task. */
  function CheckReport(s: State, job: JobID, stage: StageID, identity: TaskAttemptIdentity, partition: PartitionID,
                       worker: WorkerID): (r: ReportCheck)
    requires Wired(s)
    ensures r == Live ==> identity.id in s.attempts && !s.attempts[identity.id].terminal
  {
    if s.closed then Reject(ErrClosed)
    else if worker !in s.workers then Reject(ErrUnknownWorker)
    else if identity.id !in s.attempts then Reject(ErrUnknownAttempt)
    else
      var a := s.attempts[identity.id];
      if a.assignment.jobID != job || a.assignment.stageID != stage || a.assignment.identity != identity
         || a.assignment.task.partitionID != partition || a.assignment.workerID != worker then Reject(ErrMismatchedReport)
      else if a.terminal || s.sets[a.key].tasks[a.index].active != identity.id then Obsolete
      else Live
  }

  /** Ends an attempt, frees its slot and installs its set's new value. */
  function Retire(s: State, id: TaskAttemptID, state: TaskState, set1: FifoTaskSet): State
    requires id in s.attempts && Linked(s, s.attempts[id])
  {
    var a := s.attempts[id];
    var w := s.workers[a.assignment.workerID];
    s.(attempts := s.attempts[id := a.(state := state, terminal := true)],
       workers := s.workers[a.assignment.workerID := w.(reserved := w.reserved - {id})],
       sets := s.sets[a.key := set1])
  }

  function SucceedAttempt(s: State, report: TaskAttemptSuccess): State
    requires report.attempt.id in s.attempts && Linked(s, s.attempts[report.attempt.id])
  {
    var a := s.attempts[report.attempt.id];
    Retire(s, report.attempt.id, TaskSucceeded, SucceedTask(s.sets[a.key], a.index, report))
  }

  function FailAttempt(s: State, id: TaskAttemptID, report: TaskAttemptFailure): State
    requires id in s.attempts && Linked(s, s.attempts[id])
  {
    var a := s.attempts[id];
    Retire(s, id, TaskFailed, FailTask(s.sets[a.key], a.index, report, s.maxTaskAttempts))
  }

  function ReportSuccess(s: State, report: TaskAttemptSuccess): Outcome<()>
    requires Wired(s)
  {
    match CheckReport(s, report.jobID, report.stageID, report.attempt, report.partitionID, report.workerID)
    case Reject(e) => Outcome(s, Refused(e))
    case Obsolete => Outcome(s, Granted(()))
    case Live =>
      var a := s.attempts[report.attempt.id].assignment;
      if !AcceptableOutput(report.output, a.runID, a.jobID, a.task, a.identity) then Outcome(s, Refused(ErrInvalidReport))
      else Outcome(SucceedAttempt(s, report), Granted(()))
  }

  /** A lost-input report must name a bucket the attempt was given. */
  predicate NamesAssignedInput(a: TaskAssignment, ref: InputReference) {
    && a.inputs.Some? && ref.partitionID == a.task.partitionID
    && 0 <= ref.attempt.mapPartitionID < |a.inputs.value.outputs|
    && a.inputs.value.outputs[ref.attempt.mapPartitionID].attempt == ref.attempt
  }

  function ReportFailure(s: State, report: TaskAttemptFailure): Outcome<()>
    requires Wired(s)
  {
    if report.error == "" then Outcome(s, Refused(ErrInvalidReport))
    else
      match CheckReport(s, report.jobID, report.stageID, report.attempt, report.partitionID, report.workerID)
      case Reject(e) => Outcome(s, Refused(e))
      case Obsolete => Outcome(s, Granted(()))
      case Live =>
        if !ValidFailure(report.kind, report.shuffleInput) then Outcome(s, Refused(ErrInvalidReport))
        else if report.shuffleInput.Some?
                && !NamesAssignedInput(s.attempts[report.attempt.id].assignment, report.shuffleInput.value) then
          Outcome(s, Refused(ErrInvalidReport))
        else Outcome(FailAttempt(s, report.attempt.id, report), Granted(()))
  }

  // ---------------------------------------------------------------- worker expiry

  /** The numbers of a set in ascending order. */
  function InsertNat(n: nat, s: seq<nat>): seq<nat> {
    if s == [] then [n] else if n == s[0] then s else if n < s[0] then [n] + s else [s[0]] + InsertNat(n, s[1..])
  }

  function SortNats(s: seq<nat>): seq<nat> {
    if s == [] then [] else InsertNat(s[0], SortNats(s[1..]))
  }

  predicate Expired(w: WorkerState, now: int, timeout: int) {
    w.status == WorkerAlive && now - w.lastHeartbeat >= timeout
  }

  function LossReport(a: TaskAssignment): TaskAttemptFailure {
    TaskAttemptFailure(FailureWorkerLost, None, a.jobID, a.stageID, a.identity, a.task.partitionID, a.workerID,
                       "heartbeat expired")
  }

  lemma RetireWired(s: State, id: TaskAttemptID, state: TaskState, set1: FifoTaskSet)
    requires Wired(s) && id in s.attempts && |set1.tasks| == |s.sets[s.attempts[id].key].tasks|
    ensures Wired(Retire(s, id, state, set1))
  {
  }

  function FailAll(s: State, ids: seq<TaskAttemptID>): (r: State)
    requires Wired(s) && forall id :: id in ids ==> id in s.attempts
    ensures Wired(r)
    ensures r.workers.Keys == s.workers.Keys && r.attempts.Keys == s.attempts.Keys && r.sets.Keys == s.sets.Keys
    decreases |ids|
  {
    if ids == [] then s
    else
      var a := s.attempts[ids[0]];
      var report := LossReport(a.assignment);
      RetireWired(s, ids[0], TaskFailed, FailTask(s.sets[a.key], a.index, report, s.maxTaskAttempts));
      FailAll(FailAttempt(s, ids[0], report), ids[1..])
  }

  function MarkLost(s: State, id: WorkerID): State
    requires id in s.workers
  {
    s.(workers := s.workers[id := s.workers[id].(status := WorkerLost)])
  }

  /** `Ids` lists a worker's reservations; the source sorts them. */
  ghost function SortedIds(ids: set<TaskAttemptID>): (r: seq<TaskAttemptID>)
    ensures forall x :: x in r <==> x in ids
    ensures forall i, j :: 0 <= i < j < |r| ==> r[i] < r[j]
  {
    if ids == {} then []
    else
      var id :| id in ids;
      InsertNatSorts(id, SortedIds(ids - {id}));
      InsertNat(id, SortedIds(ids - {id}))
  }

  lemma {:induction false} InsertNatSorts(n: nat, s: seq<nat>)
    requires forall i, j :: 0 <= i < j < |s| ==> s[i] < s[j]
    ensures forall i, j :: 0 <= i < j < |InsertNat(n, s)| ==> InsertNat(n, s)[i] < InsertNat(n, s)[j]
    ensures forall x :: x in InsertNat(n, s) <==> x == n || x in s
  {
    if s != [] {
      assert s == [s[0]] + s[1..];
      InsertNatSorts(n, s[1..]);
      var r := InsertNat(n, s[1..]);
      forall i | 0 <= i < |r| && n > s[0] ensures s[0] < r[i] { assert r[i] in r; }
    }
  }

  ghost function LoseWorker(s: State, id: WorkerID): (r: State)
    requires Wired(s) && id in s.workers
    ensures Wired(r)
    ensures r.workers.Keys == s.workers.Keys && r.attempts.Keys == s.attempts.Keys && r.sets.Keys == s.sets.Keys
  {
    FailAll(MarkLost(s, id), SortedIds(s.workers[id].reserved))
  }

  ghost function LoseWorkers(s: State, ids: seq<WorkerID>): (r: State)
    requires Wired(s) && forall id :: id in ids ==> id in s.workers
    ensures Wired(r)
    ensures r.workers.Keys == s.workers.Keys && r.attempts.Keys == s.attempts.Keys && r.sets.Keys == s.sets.Keys
    decreases |ids|
  {
    if ids == [] then s else LoseWorkers(LoseWorker(s, ids[0]), ids[1..])
  }

  function ExpiredIds(s: State, now: int, timeout: int): set<WorkerID> {
    set id | id in s.workers && Expired(s.workers[id], now, timeout)
  }

  ghost function Expire(s: State, now: int, timeout: int): Outcome<seq<WorkerID>>
    requires Wired(s)
  {
    if timeout <= 0 then Outcome(s, Refused(ErrInvalidTimeout))
    else if s.closed then Outcome(s, Refused(ErrClosed))
    else
      var lost := SortedKeys(ExpiredIds(s, now, timeout));
      Outcome(Compact(LoseWorkers(s, lost)), Granted(lost))
  }

  function Close(s: State): State {
    s.(closed := true, sets := map key | key in s.sets :: FinishSet(s.sets[key], ErrSchedulerClosed))
  }

  // ---------------------------------------------------------------- runs

  datatype Event =
    | RegisterEvent(worker: WorkerID, slots: int, now: int)
    | SubmitEvent(input: TaskSet, cancelled: bool)
    | DrainEvent(key: SetKey)
    | CancelEvent(key: SetKey)
    | OfferEvent(worker: WorkerID, free: int, running: seq<TaskAttemptID>, now: int)
    | SuccessEvent(success: TaskAttemptSuccess)
    | FailureEvent(failure: TaskAttemptFailure)
    | ExpireEvent(now: int, timeout: int)
    | CloseEvent

  ghost function Step(s: State, e: Event): State
    requires Wired(s)
  {
    match e
    case RegisterEvent(id, slots, now) => Register(s, id, slots, now).state
    case SubmitEvent(input, cancelled) => Submit(s, input, cancelled).state
    case DrainEvent(key) => Drain(s, key)
    case CancelEvent(key) => CancelContext(s, key)
    case OfferEvent(id, free, running, now) => Offer(s, id, free, running, now).state
    case SuccessEvent(report) => ReportSuccess(s, report).state
    case FailureEvent(report) => ReportFailure(s, report).state
    case ExpireEvent(now, timeout) => Expire(s, now, timeout).state
    case CloseEvent => Close(s)
  }

  function Initial(maxTaskAttempts: nat, runID: string): State {
    State(maxTaskAttempts, runID, map[], map[], [], map[], 0, 0, false)
  }
}
