/** The FIFO task scheduler as an object (scheduler/fifo_task_scheduler.go,
    worker_expiry.go, worker_registry.go). Each method updates the fields step
    by step as the source does and is proved to reach the state that the
    transition system of module Fifo prescribes. Task sets, attempts and workers,
    which the source holds by pointer, are entries of maps updated through their keys. */
module FifoScheduler {
  import opened Types
  import opened Ordering
  import opened Fifo
  import opened FifoSets
  import opened FifoInvariant
  import opened FifoSteps

  class FIFOTaskScheduler {
    const maxTaskAttempts: nat
    const runID: string
    var workers: map<WorkerID, WorkerState>
    var sets: map<SetKey, FifoTaskSet>
    var queue: seq<SetKey>
    var attempts: map<TaskAttemptID, AssignedAttempt>
    var nextSequence: nat
    var nextAttempt: TaskAttemptID
    var closed: bool

    ghost function Abs(): Fifo.State
      reads this
    {
      State(maxTaskAttempts, runID, workers, sets, queue, attempts, nextSequence, nextAttempt, closed)
    }

    ghost predicate Valid()
      reads this
    {
      Inv(Abs()) && Wired(Abs())
    }

    constructor (maxTaskAttempts: nat, runID: string)
      requires maxTaskAttempts > 0
      ensures Valid() && Abs() == Initial(maxTaskAttempts, runID)
    {
      this.maxTaskAttempts, this.runID := maxTaskAttempts, runID;
      workers, sets, queue, attempts := map[], map[], [], map[];
      nextSequence, nextAttempt, closed := 0, 0, false;
      new;
      InitialInv(maxTaskAttempts, runID);
      CoreWired(Abs());
    }

    method RegisterWorker(id: WorkerID, slots: int, now: int) returns (r: Reply<()>)
      requires Valid()
      modifies this
      ensures Valid()
      ensures Outcome(Abs(), r) == Register(old(Abs()), id, slots, now)
    {
      RegisterValid(Abs(), id, slots, now);
      hide Inv, Wired;
      if closed { return Refused(ErrClosed); }
      if id == "" || slots <= 0 { return Refused(ErrInvalidWorker); }
      if id in workers {
        var worker := workers[id];
        if worker.status == WorkerLost { return Refused(ErrWorkerLost); }
        if worker.totalSlots != slots { return Refused(ErrWorkerConflict); }
        return Granted(());
      }
      workers := workers[id := WorkerState(WorkerAlive, slots, 0, [], now, {})];
      r := Granted(());
    }

    // -------------------------------------------------------------- task sets

    /** Checks and sorts the tasks of a submission. */
    method PrepareTaskSet(input: TaskSet) returns (r: Option<seq<LogicalTask>>)
      ensures r == if ValidTaskSet(input) then Some(Fresh(SortTasks(input.tasks))) else None
    {
      if |input.tasks| == 0 { return None; }
      if input.inputs.Some? && !ValidSnapshot(input.inputs.value) { return None; }
      var ids: set<TaskID>, partitions: set<PartitionID> := {}, {};
      var i := 0;
      while i < |input.tasks|
        invariant 0 <= i <= |input.tasks|
        invariant ids == set k | 0 <= k < i :: input.tasks[k].id
        invariant partitions == set k | 0 <= k < i :: input.tasks[k].partitionID
        invariant forall k :: 0 <= k < i ==> input.tasks[k].stageID == input.stageID && input.tasks[k].partitionID >= 0
        invariant forall j, k :: 0 <= j < k < i ==>
          input.tasks[j].id != input.tasks[k].id && input.tasks[j].partitionID != input.tasks[k].partitionID
      {
        var task := input.tasks[i];
        if task.stageID != input.stageID || task.partitionID < 0 || task.id in ids || task.partitionID in partitions {
          return None;
        }
        ids, partitions := ids + {task.id}, partitions + {task.partitionID};
        i := i + 1;
      }
      r := Some(Fresh(SortTasks(input.tasks)));
    }

    method SubmitTaskSet(input: TaskSet, cancelled: bool) returns (r: Reply<()>)
      requires Valid()
      modifies this
      ensures Valid()
      ensures Outcome(Abs(), r) == Submit(old(Abs()), input, cancelled)
    {
      SubmitValid(Abs(), input, cancelled);
      hide *;
      r := AddTaskSet(input, cancelled);
    }

    method AddTaskSet(input: TaskSet, cancelled: bool) returns (r: Reply<()>)
      modifies this`sets, this`queue, this`nextSequence
      ensures Outcome(Abs(), r) == Submit(old(Abs()), input, cancelled)
    {
      hide ValidTaskSet, SortTasks, Fresh;
      var prepared := PrepareTaskSet(input);
      if prepared.None? { return Refused(ErrInvalidTaskSet); }
      if closed { return Refused(ErrClosed); }
      if cancelled { return Refused(ErrCancelled); }
      var key := KeyOf(input);
      if key in sets { return Refused(ErrDuplicateTaskSet); }
      var t := FifoTaskSet(input.inputs, nextSequence, false, prepared.value, |input.tasks|, [], false, NoError, [], false);
      nextSequence := nextSequence + 1;
      sets := sets[key := t];
      queue := queue + [key];
      r := Granted(());
    }

    /** One turn of ScheduleTaskSet's loop: the reports the observer now gets. */
    method DrainReports(key: SetKey) returns (reports: seq<TerminalReport>, terminal: bool)
      requires Valid() && key in sets && !sets[key].returned
      modifies this
      ensures Valid()
      ensures Abs() == Drain(old(Abs()), key)
      ensures old(sets[key].delivered) + reports == sets[key].delivered
      ensures terminal == sets[key].returned
    {
      DrainValid(Abs(), key);
      hide *;
      reports, terminal := DrainOne(key);
    }

    method DrainOne(key: SetKey) returns (reports: seq<TerminalReport>, terminal: bool)
      requires key in sets && !sets[key].returned
      modifies this`sets
      ensures Abs() == Drain(old(Abs()), key)
      ensures old(sets[key].delivered) + reports == sets[key].delivered
      ensures terminal == sets[key].returned
    {
      if sets[key].cancelled { Finish(key, ErrContext); }
      reports := sets[key].reports;
      terminal := sets[key].terminal;
      sets := sets[key := sets[key].(reports := [], delivered := sets[key].delivered + reports, returned := terminal)];
    }

    method Finish(key: SetKey, err: SetError)
      requires key in sets
      modifies this`sets
      ensures sets == old(sets)[key := FinishSet(old(sets)[key], err)]
    {
      if !sets[key].terminal { sets := sets[key := sets[key].(terminal := true, err := err)]; }
    }

    // -------------------------------------------------------------- offers

    method OfferResources(id: WorkerID, free: int, running: seq<TaskAttemptID>, now: int)
      returns (r: Reply<seq<TaskAssignment>>)
      requires Valid()
      modifies this
      ensures Valid()
      ensures Outcome(Abs(), r) == Offer(old(Abs()), id, free, running, now)
    {
      OfferValid(Abs(), id, free, running, now);
      assert Wired(Abs());
      hide *;
      r := AnswerOffer(id, free, running, now);
    }

    method AnswerOffer(id: WorkerID, free: int, running: seq<TaskAttemptID>, now: int)
      returns (r: Reply<seq<TaskAssignment>>)
      requires Wired(Abs())
      modifies this
      ensures Outcome(Abs(), r) == Offer(old(Abs()), id, free, running, now)
    {
      ghost var before := Abs();
      hide OfferSets, ValidOffer, Available;
      if closed { return Refused(ErrClosed); }
      if id !in workers { return Refused(ErrUnknownWorker); }
      if workers[id].status == WorkerLost { return Refused(ErrWorkerLost); }
      var valid := CheckRunning(id, free, running);
      if !valid { return Refused(ErrInvalidOffer); }
      var available := FreeForWork(workers[id], free, running);
      workers := workers[id := workers[id].(reportedFree := free, running := running, lastHeartbeat := now)];
      assert Wired(Abs()) by { assert Wired(before); }
      var assignments := AssignPending(id, available);
      hide Wired;
      CompactQueue();
      r := Granted(assignments);
    }

    method CheckRunning(id: WorkerID, free: int, running: seq<TaskAttemptID>) returns (valid: bool)
      requires id in workers
      ensures valid == ValidOffer(Abs(), id, free, running)
    {
      if free < 0 || free > workers[id].totalSlots || |running| > workers[id].totalSlots - free { return false; }
      var seen: set<TaskAttemptID> := {};
      var i := 0;
      while i < |running|
        invariant 0 <= i <= |running|
        invariant seen == set k | 0 <= k < i :: running[k]
        invariant forall k :: 0 <= k < i ==> running[k] in attempts && attempts[running[k]].assignment.workerID == id
        invariant forall j, k :: 0 <= j < k < i ==> running[j] != running[k]
      {
        if running[i] in seen || running[i] !in attempts || attempts[running[i]].assignment.workerID != id { return false; }
        seen := seen + {running[i]};
        i := i + 1;
      }
      valid := true;
    }

    /** The loop over the queue: new assignments for every live, uncancelled set
        while capacity lasts; cancelled sets are finished on the way. */
    method AssignPending(id: WorkerID, available: int) returns (assignments: seq<TaskAssignment>)
      requires Wired(Abs()) && id in workers
      modifies this`workers, this`sets, this`attempts, this`nextAttempt
      ensures var r := OfferSets(OfferState(old(Abs()), [], available), id, queue);
              Abs() == r.state && assignments == r.assignments
      ensures forall key :: key in queue ==> key in sets
    {
      assignments := [];
      var left := available;
      var i := 0;
      ghost var goal := OfferSets(OfferState(Abs(), [], available), id, queue);
      while i < |queue|
        invariant 0 <= i <= |queue|
        invariant id in workers && sets.Keys == old(sets).Keys
        invariant forall key :: key in queue ==> key in sets
        invariant OfferSets(OfferState(Abs(), assignments, left), id, queue[i..]) == goal
      {
        var key := queue[i];
        assert queue[i..] == [key] + queue[i + 1..];
        if !sets[key].terminal {
          if sets[key].cancelled {
            Finish(key, ErrContext);
          } else {
            assignments, left := AssignTasks(id, key, assignments, left);
          }
        }
        i := i + 1;
      }
    }

    method AssignTasks(id: WorkerID, key: SetKey, given: seq<TaskAssignment>, available: int)
      returns (assignments: seq<TaskAssignment>, left: int)
      requires id in workers && key in sets
      modifies this`workers, this`sets, this`attempts, this`nextAttempt
      ensures OfferState(Abs(), assignments, left) == OfferTasks(OfferState(old(Abs()), given, available), id, key, 0)
    {
      assignments, left := given, available;
      var i := 0;
      ghost var goal := OfferTasks(OfferState(Abs(), given, available), id, key, 0);
      hide Assign, NewAssignment;
      while i < |sets[key].tasks| && left > 0
        invariant id in workers && key in sets && 0 <= i <= |sets[key].tasks|
        invariant OfferTasks(OfferState(Abs(), assignments, left), id, key, i) == goal
        decreases |sets[key].tasks| - i
      {
        if sets[key].tasks[i].state == TaskPending {
          var assignment := AssignTask(id, key, i);
          assignments := assignments + [assignment];
          left := left - 1;
        }
        i := i + 1;
      }
    }

    /** Numbers a new attempt of task `i`, reserves a slot for it and records it. */
    method AssignTask(id: WorkerID, key: SetKey, i: nat) returns (assignment: TaskAssignment)
      requires id in workers && key in sets && i < |sets[key].tasks|
      modifies this`workers, this`sets, this`attempts, this`nextAttempt
      ensures Abs() == Assign(old(Abs()), key, i, id)
      ensures assignment == NewAssignment(old(Abs()), key, i, id)
      ensures id in workers && key in sets && |sets[key].tasks| == |old(sets)[key].tasks|
    {
      var task := sets[key].tasks[i];
      var identity := TaskAttemptIdentity(nextAttempt, task.task.id, key.attempt);
      nextAttempt := nextAttempt + 1;
      sets := sets[key := SetTask(sets[key], i,
                task.(state := TaskRunning, attempts := task.attempts + 1, active := identity.id))];
      assignment := TaskAssignment(sets[key].inputs, runID, key.job, key.stage, identity, task.task, id);
      attempts := attempts[identity.id := AssignedAttempt(assignment, key, i, TaskRunning, false)];
      workers := workers[id := workers[id].(reserved := workers[id].reserved + {identity.id})];
    }

    method CompactQueue()
      requires forall key :: key in queue ==> key in sets
      modifies this`queue
      ensures Abs() == Compact(old(Abs()))
    {
      var live: seq<SetKey> := [];
      var i := 0;
      while i < |queue|
        invariant 0 <= i <= |queue|
        invariant live == LiveKeys(sets, queue[..i])
      {
        assert queue[..i + 1][..i] == queue[..i];
        if !sets[queue[i]].terminal { live := live + [queue[i]]; }
        i := i + 1;
      }
      assert queue[..i] == queue;
      queue := live;
    }

    // -------------------------------------------------------------- reports

    method ValidateReport(job: JobID, stage: StageID, identity: TaskAttemptIdentity, partition: PartitionID, worker: WorkerID)
      returns (r: ReportCheck)
      requires Valid()
      ensures r == CheckReport(Abs(), job, stage, identity, partition, worker)
    {
      if closed { return Reject(ErrClosed); }
      if worker !in workers { return Reject(ErrUnknownWorker); }
      if identity.id !in attempts { return Reject(ErrUnknownAttempt); }
      var attempt := attempts[identity.id];
      var a := attempt.assignment;
      if a.jobID != job || a.stageID != stage || a.identity != identity || a.task.partitionID != partition || a.workerID != worker {
        return Reject(ErrMismatchedReport);
      }
      if attempt.terminal || sets[attempt.key].tasks[attempt.index].active != identity.id { return Obsolete; }
      r := Live;
    }

    /** Ends an attempt: its task takes the state and its worker gets the slot back. */
    method Release(id: TaskAttemptID, state: TaskState)
      requires id in attempts && Linked(Abs(), attempts[id])
      modifies this`attempts, this`sets, this`workers
      ensures var a := old(attempts)[id];
              Abs() == Retire(old(Abs()), id, state,
                              SetTask(old(sets)[a.key], a.index, old(sets)[a.key].tasks[a.index].(state := state)))
    {
      var a := attempts[id];
      var w := a.assignment.workerID;
      attempts := attempts[id := a.(terminal := true, state := state)];
      sets := sets[a.key := SetTask(sets[a.key], a.index, sets[a.key].tasks[a.index].(state := state))];
      workers := workers[w := workers[w].(reserved := workers[w].reserved - {id})];
    }

    method ReportTaskSuccess(report: TaskAttemptSuccess) returns (r: Reply<()>)
      requires Valid()
      modifies this
      ensures Valid()
      ensures Outcome(Abs(), r) == ReportSuccess(old(Abs()), report)
    {
      ReportSuccessValid(Abs(), report);
      var check := ValidateReport(report.jobID, report.stageID, report.attempt, report.partitionID, report.workerID);
      hide Inv;
      if check.Reject? { return Refused(check.error); }
      if check.Obsolete? { return Granted(()); }
      var a := attempts[report.attempt.id].assignment;
      if !AcceptableOutput(report.output, a.runID, a.jobID, a.task, a.identity) { return Refused(ErrInvalidReport); }
      AcceptSuccess(report);
      r := Granted(());
    }

    method AcceptSuccess(report: TaskAttemptSuccess)
      requires report.attempt.id in attempts && Linked(Abs(), attempts[report.attempt.id])
      modifies this`attempts, this`sets, this`workers
      ensures Abs() == SucceedAttempt(old(Abs()), report)
    {
      var attempt := attempts[report.attempt.id];
      var key, i := attempt.key, attempt.index;
      Release(report.attempt.id, TaskSucceeded);
      if sets[key].terminal { return; }
      if sets[key].cancelled {
        Finish(key, ErrContext);
        return;
      }
      var t := SetTask(sets[key], i, sets[key].tasks[i].(output := Some(report.output)));
      sets := sets[key := t.(remaining := t.remaining - 1, reports := t.reports + [SuccessReport(report)])];
      if sets[key].remaining == 0 { Finish(key, NoError); }
    }

    method ReportTaskFailure(report: TaskAttemptFailure) returns (r: Reply<()>)
      requires Valid()
      modifies this
      ensures Valid()
      ensures Outcome(Abs(), r) == ReportFailure(old(Abs()), report)
    {
      if report.error == "" { return Refused(ErrInvalidReport); }
      ReportFailureValid(Abs(), report);
      var check := ValidateReport(report.jobID, report.stageID, report.attempt, report.partitionID, report.workerID);
      hide Inv;
      if check.Reject? { return Refused(check.error); }
      if check.Obsolete? { return Granted(()); }
      if !ValidFailure(report.kind, report.shuffleInput) { return Refused(ErrInvalidReport); }
      if report.shuffleInput.Some? && !NamesAssignedInput(attempts[report.attempt.id].assignment, report.shuffleInput.value) {
        return Refused(ErrInvalidReport);
      }
      FailOne(report.attempt.id, report);
      r := Granted(());
    }

    method FailOne(id: TaskAttemptID, report: TaskAttemptFailure)
      requires id in attempts && Linked(Abs(), attempts[id])
      modifies this`attempts, this`sets, this`workers
      ensures Abs() == FailAttempt(old(Abs()), id, report)
    {
      var key, i := attempts[id].key, attempts[id].index;
      Release(id, TaskFailed);
      if sets[key].terminal { return; }
      if sets[key].cancelled {
        Finish(key, ErrContext);
        return;
      }
      var t := sets[key];
      var retryable := Retryable(report.kind);
      var requeued := retryable && t.tasks[i].attempts < maxTaskAttempts;
      var entry := FailureReport(report, requeued, retryable && !requeued, t.tasks[i].attempts);
      sets := sets[key := t.(reports := t.reports + [entry])];
      if requeued {
        sets := sets[key := SetTask(sets[key], i, sets[key].tasks[i].(state := TaskPending))];
        return;
      }
      Finish(key, ErrTask);
    }

    // -------------------------------------------------------------- expiry

    method ExpireWorkers(now: int, timeout: int) returns (r: Reply<seq<WorkerID>>)
      requires Valid()
      modifies this
      ensures Valid()
      ensures Outcome(Abs(), r) == Expire(old(Abs()), now, timeout)
    {
      ExpireValid(Abs(), now, timeout);
      hide Inv, LoseWorkers;
      if timeout <= 0 { return Refused(ErrInvalidTimeout); }
      if closed { return Refused(ErrClosed); }
      var lost := FindExpired(now, timeout);
      LoseAll(lost);
      CompactQueue();
      r := Granted(lost);
    }

    method LoseAll(lost: seq<WorkerID>)
      requires Wired(Abs()) && forall id :: id in lost ==> id in workers
      modifies this`attempts, this`sets, this`workers
      ensures Abs() == LoseWorkers(old(Abs()), lost)
      ensures Wired(Abs())
    {
      hide Wired, LoseWorker;
      var i := 0;
      while i < |lost|
        invariant 0 <= i <= |lost| && Wired(Abs()) && workers.Keys == old(workers).Keys
        invariant LoseWorkers(Abs(), lost[i..]) == LoseWorkers(old(Abs()), lost)
      {
        assert lost[i..] == [lost[i]] + lost[i + 1..];
        LoseOne(lost[i]);
        i := i + 1;
      }
    }

    /** Fences one worker and fails what it held, in ascending attempt order. */
    method LoseOne(id: WorkerID)
      requires Wired(Abs()) && id in workers
      modifies this`attempts, this`sets, this`workers
      ensures Abs() == LoseWorker(old(Abs()), id)
      ensures Wired(Abs()) && workers.Keys == old(workers).Keys
    {
      var ids := SortReserved(workers[id].reserved);
      workers := workers[id := workers[id].(status := WorkerLost)];
      RetireLost(ids);
    }

    /** Collects the silent workers in map order and sorts them. */
    method FindExpired(now: int, timeout: int) returns (lost: seq<WorkerID>)
      ensures lost == SortedKeys(ExpiredIds(Abs(), now, timeout))
    {
      var found: seq<WorkerID> := [];
      var todo := workers.Keys;
      while todo != {}
        invariant todo <= workers.Keys
        invariant forall id :: id in found <==> id in workers.Keys - todo && Expired(workers[id], now, timeout)
        decreases |todo|
      {
        var id :| id in todo;
        todo := todo - {id};
        if Expired(workers[id], now, timeout) { found := found + [id]; }
      }
      SortKeysIsSortedKeys(found, ExpiredIds(Abs(), now, timeout));
      lost := SortKeys(found);
    }

    method SortReserved(reserved: set<TaskAttemptID>) returns (ids: seq<TaskAttemptID>)
      ensures ids == SortedIds(reserved)
    {
      var found: seq<TaskAttemptID> := [];
      var todo := reserved;
      while todo != {}
        invariant todo <= reserved
        invariant forall id :: id in found <==> id in reserved - todo
        decreases |todo|
      {
        var id :| id in todo;
        todo := todo - {id};
        found := found + [id];
      }
      ids := SortNats(found);
      SortNatsIsSortedIds(found, reserved);
    }

    method RetireLost(ids: seq<TaskAttemptID>)
      requires Wired(Abs()) && forall id :: id in ids ==> id in attempts
      modifies this`attempts, this`sets, this`workers
      ensures Abs() == FailAll(old(Abs()), ids)
    {
      hide Wired, FailAttempt;
      var i := 0;
      while i < |ids|
        invariant 0 <= i <= |ids| && Wired(Abs()) && attempts.Keys == old(attempts).Keys
        invariant FailAll(Abs(), ids[i..]) == FailAll(old(Abs()), ids)
      {
        assert ids[i..] == [ids[i]] + ids[i + 1..];
        var report := LossReport(attempts[ids[i]].assignment);
        FailWired(Abs(), ids[i], report);
        FailOne(ids[i], report);
        i := i + 1;
      }
    }

    method CloseScheduler()
      requires Valid()
      modifies this
      ensures Valid()
      ensures Abs() == Close(old(Abs()))
    {
      CloseValid(Abs());
      hide *;
      closed := true;
      FinishAll();
    }

    method FinishAll()
      modifies this`sets
      ensures sets == Close(old(Abs())).sets
    {
      var todo := sets.Keys;
      while todo != {}
        invariant todo <= sets.Keys == old(sets).Keys
        invariant forall key :: key in sets ==>
          sets[key] == if key in todo then old(sets)[key] else FinishSet(old(sets)[key], ErrSchedulerClosed)
        decreases |todo|
      {
        var key :| key in todo;
        todo := todo - {key};
        Finish(key, ErrSchedulerClosed);
      }
      assert sets == Close(old(Abs())).sets;
    }
  }

  /** An offer's free slots less the reservations it does not mention. */
  method FreeForWork(w: WorkerState, free: int, running: seq<TaskAttemptID>) returns (available: int)
    ensures available == Available(w, free, running)
  {
    available := free;
    var todo := w.reserved;
    while todo != {}
      invariant todo <= w.reserved
      invariant available == free - |(w.reserved - todo) - Seen(running)|
      decreases |todo|
    {
      var id :| id in todo;
      CountOneMore(w.reserved, todo, id, Seen(running));
      todo := todo - {id};
      if id !in running { available := available - 1; }
    }
    assert w.reserved - {} == w.reserved;
    available := Min(available, w.totalSlots - |w.reserved|);
  }

  lemma CountOneMore(reserved: set<TaskAttemptID>, todo: set<TaskAttemptID>, id: TaskAttemptID, seen: set<TaskAttemptID>)
    requires todo <= reserved && id in todo
    ensures |(reserved - (todo - {id})) - seen| == |(reserved - todo) - seen| + (if id in seen then 0 else 1)
  {
    assert (reserved - (todo - {id})) - seen == ((reserved - todo) - seen) + (if id in seen then {} else {id});
  }

  lemma RegisterValid(s: Fifo.State, id: WorkerID, slots: int, now: int)
    requires Inv(s) && Wired(s)
    ensures Inv(Register(s, id, slots, now).state) && Wired(Register(s, id, slots, now).state)
  {
    RegisterInv(s, id, slots, now);
    CoreWired(Register(s, id, slots, now).state);
  }

  lemma SubmitValid(s: Fifo.State, input: TaskSet, cancelled: bool)
    requires Inv(s) && Wired(s)
    ensures Inv(Submit(s, input, cancelled).state) && Wired(Submit(s, input, cancelled).state)
  {
    SubmitInv(s, input, cancelled);
    CoreWired(Submit(s, input, cancelled).state);
  }

  lemma DrainValid(s: Fifo.State, key: SetKey)
    requires Inv(s) && Wired(s)
    ensures Inv(Drain(s, key)) && Wired(Drain(s, key))
  {
    DrainInv(s, key);
    CoreWired(Drain(s, key));
  }

  lemma OfferValid(s: Fifo.State, id: WorkerID, free: int, running: seq<TaskAttemptID>, now: int)
    requires Inv(s) && Wired(s)
    ensures Inv(Offer(s, id, free, running, now).state) && Wired(Offer(s, id, free, running, now).state)
  {
    OfferInv(s, id, free, running, now);
    CoreWired(Offer(s, id, free, running, now).state);
  }

  lemma ReportSuccessValid(s: Fifo.State, report: TaskAttemptSuccess)
    requires Inv(s) && Wired(s)
    ensures Inv(ReportSuccess(s, report).state) && Wired(ReportSuccess(s, report).state)
  {
    ReportSuccessInv(s, report);
    CoreWired(ReportSuccess(s, report).state);
  }

  lemma ReportFailureValid(s: Fifo.State, report: TaskAttemptFailure)
    requires Inv(s) && Wired(s)
    ensures Inv(ReportFailure(s, report).state) && Wired(ReportFailure(s, report).state)
  {
    ReportFailureInv(s, report);
    CoreWired(ReportFailure(s, report).state);
  }

  lemma ExpireValid(s: Fifo.State, now: int, timeout: int)
    requires Inv(s) && Wired(s)
    ensures Inv(Expire(s, now, timeout).state) && Wired(Expire(s, now, timeout).state)
  {
    ExpireInv(s, now, timeout);
    CoreWired(Expire(s, now, timeout).state);
  }

  lemma CloseValid(s: Fifo.State)
    requires Inv(s) && Wired(s)
    ensures Inv(Close(s)) && Wired(Close(s))
  {
    CloseInv(s);
    CoreWired(Close(s));
  }

  lemma FailWired(s: Fifo.State, id: TaskAttemptID, report: TaskAttemptFailure)
    requires Wired(s) && id in s.attempts
    ensures Linked(s, s.attempts[id]) && Wired(FailAttempt(s, id, report))
    ensures FailAttempt(s, id, report).attempts.Keys == s.attempts.Keys
  {
    var a := s.attempts[id];
    RetireWired(s, id, TaskFailed, FailTask(s.sets[a.key], a.index, report, s.maxTaskAttempts));
  }

  lemma {:induction false} SortNatsSorts(s: seq<nat>)
    ensures forall i, j :: 0 <= i < j < |SortNats(s)| ==> SortNats(s)[i] < SortNats(s)[j]
    ensures forall x :: x in SortNats(s) <==> x in s
  {
    if s != [] {
      assert s == [s[0]] + s[1..];
      SortNatsSorts(s[1..]);
      InsertNatSorts(s[0], SortNats(s[1..]));
    }
  }

  lemma {:induction false} AscendingUnique(a: seq<nat>, b: seq<nat>)
    requires forall i, j :: 0 <= i < j < |a| ==> a[i] < a[j]
    requires forall i, j :: 0 <= i < j < |b| ==> b[i] < b[j]
    requires forall x :: x in a <==> x in b
    ensures a == b
  {
    assert (|a| > 0 ==> a[0] in a) && (|b| > 0 ==> b[0] in b);
    if a != [] {
      var i :| 0 <= i < |b| && b[i] == a[0];
      var j :| 0 <= j < |a| && a[j] == b[0];
      assert a == [a[0]] + a[1..] && b == [b[0]] + b[1..];
      AscendingTails(a, b);
      AscendingUnique(a[1..], b[1..]);
    }
  }

  lemma AscendingTails(a: seq<nat>, b: seq<nat>)
    requires |a| > 0 && |b| > 0 && a[0] == b[0]
    requires forall i, j :: 0 <= i < j < |a| ==> a[i] < a[j]
    requires forall i, j :: 0 <= i < j < |b| ==> b[i] < b[j]
    requires forall x :: x in a <==> x in b
    ensures forall x :: x in a[1..] <==> x in b[1..]
  {
    forall x | x in a[1..] ensures x in b[1..] {
      assert x in b && x > a[0];
      var k :| 0 <= k < |b| && b[k] == x;
      assert b[1..][k - 1] == x;
    }
    forall x | x in b[1..] ensures x in a[1..] {
      assert x in a && x > b[0];
      var k :| 0 <= k < |a| && a[k] == x;
      assert a[1..][k - 1] == x;
    }
  }

  lemma SortNatsIsSortedIds(s: seq<nat>, ids: set<TaskAttemptID>)
    requires forall x :: x in s <==> x in ids
    ensures SortNats(s) == SortedIds(ids)
  {
    SortNatsSorts(s);
    AscendingUnique(SortNats(s), SortedIds(ids));
  }
}
