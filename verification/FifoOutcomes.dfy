/** What each call of the FIFO scheduler does, on the fields it touches: when it is
    refused, what it grants, and which tasks run again after a failure or a loss. */
module FifoOutcomes {
  import opened Types
  import opened Ordering
  import opened FiniteSets
  import opened Fifo
  import opened FifoSets
  import opened FifoInvariant
  import FifoSteps
  import FifoTheorems

  // ---------------------------------------------------------------- workers and sets

  /** A registration is granted to a named worker with slots that is new, or known and
      alive with as many; it changes nothing unless the worker is new. */
  lemma RegisterOutcome(s: State, id: WorkerID, slots: int, now: int)
    ensures var o := Register(s, id, slots, now);
            && (o.reply.Granted? <==>
                  !s.closed && |id| > 0 && 0 < slots
                  && (id in s.workers ==> s.workers[id].status == WorkerAlive && s.workers[id].totalSlots == slots))
            && (o.reply.Refused? || id in s.workers ==> o.state == s)
            && (o.reply.Granted? && id !in s.workers ==>
                  && o.state == s.(workers := o.state.workers) && o.state.workers.Keys == s.workers.Keys + {id}
                  && (forall w :: w in s.workers ==> o.state.workers[w] == s.workers[w])
                  && var worker := o.state.workers[id];
                     worker.status == WorkerAlive && worker.totalSlots == slots && worker.reserved == {} && worker.lastHeartbeat == now)
  {
  }

  function TasksIn(t: FifoTaskSet): (r: seq<Task>)
    ensures |r| == |t.tasks| && forall i :: 0 <= i < |r| ==> r[i] == t.tasks[i].task
  {
    seq(|t.tasks|, i requires 0 <= i < |t.tasks| => t.tasks[i].task)
  }

  /** A task set is queued exactly when the scheduler is open, its context alive, its
      stage attempt new, and its tasks are some, of its stage, all different; it joins
      the end of the queue with all its tasks pending in partition order. */
  lemma SubmitOutcome(s: State, input: TaskSet, cancelled: bool)
    ensures var o, key := Submit(s, input, cancelled), SetKey(input.jobID, input.stageID, input.stageAttemptID);
            && (o.reply.Granted? <==>
                  && !s.closed && !cancelled && key !in s.sets && 0 < |input.tasks|
                  && (input.inputs.Some? ==> ValidSnapshot(input.inputs.value))
                  && (forall t :: t in input.tasks ==> t.stageID == input.stageID && 0 <= t.partitionID)
                  && (forall i, j :: 0 <= i < |input.tasks| && 0 <= j < |input.tasks| && i != j ==>
                        input.tasks[i].id != input.tasks[j].id && input.tasks[i].partitionID != input.tasks[j].partitionID))
            && (o.reply.Refused? ==> o.state == s)
            && (o.reply.Granted? ==>
                  && o.state == s.(sets := o.state.sets, queue := s.queue + [key], nextSequence := s.nextSequence + 1)
                  && key in o.state.sets && o.state.sets == s.sets[key := o.state.sets[key]]
                  && var t := o.state.sets[key];
                     && t.inputs == input.inputs && t.sequence == s.nextSequence && !t.cancelled && !t.terminal && !t.returned
                     && t.remaining == |input.tasks| && t.reports == [] && t.delivered == []
                     && multiset(TasksIn(t)) == multiset(input.tasks)
                     && (forall i, j :: 0 <= i < j < |t.tasks| ==> t.tasks[i].task.partitionID <= t.tasks[j].task.partitionID)
                     && forall i :: 0 <= i < |t.tasks| ==> t.tasks[i].state == TaskPending && t.tasks[i].attempts == 0)
  {
    hide ValidSnapshot, SortTasks, ValidTaskSet, NewSet;
    ValidSetsExactly(input);
    if ValidTaskSet(input) { NewSetOutcome(input, s.nextSequence); }
  }

  lemma ValidSetsExactly(input: TaskSet)
    ensures ValidTaskSet(input) <==>
            && 0 < |input.tasks| && (input.inputs.Some? ==> ValidSnapshot(input.inputs.value))
            && (forall t :: t in input.tasks ==> t.stageID == input.stageID && 0 <= t.partitionID)
            && (forall i, j :: 0 <= i < |input.tasks| && 0 <= j < |input.tasks| && i != j ==>
                  input.tasks[i].id != input.tasks[j].id && input.tasks[i].partitionID != input.tasks[j].partitionID)
  {
    hide ValidSnapshot;
  }

  lemma NewSetOutcome(input: TaskSet, sequence: nat)
    requires ValidTaskSet(input)
    ensures var t := NewSet(input, sequence);
            && t.inputs == input.inputs && t.sequence == sequence && !t.cancelled && !t.terminal && !t.returned
            && t.remaining == |input.tasks| && t.reports == [] && t.delivered == []
            && multiset(TasksIn(t)) == multiset(input.tasks)
            && (forall i, j :: 0 <= i < j < |t.tasks| ==> t.tasks[i].task.partitionID <= t.tasks[j].task.partitionID)
            && forall i :: 0 <= i < |t.tasks| ==> t.tasks[i].state == TaskPending && t.tasks[i].attempts == 0
  {
    hide ValidSnapshot, SortTasks;
    SortTasksSorts(input.tasks);
    assert TasksIn(NewSet(input, sequence)) == SortTasks(input.tasks);
  }

  // ---------------------------------------------------------------- offers

  /** An offer is granted to a live worker whose free slots and running attempts are
      its own and fit; it then gives out as many tasks as are pending or as the worker
      has room for, counting what it runs and what is reserved for it. */
  lemma OfferOutcome(s: State, id: WorkerID, free: int, running: seq<TaskAttemptID>, now: int)
    requires Inv(s) && Wired(s)
    ensures var o := Offer(s, id, free, running, now);
            && (o.reply.Granted? <==>
                  && !s.closed && id in s.workers && s.workers[id].status == WorkerAlive
                  && 0 <= free && |running| + free <= s.workers[id].totalSlots
                  && (forall r :: r in running ==> r in s.attempts && s.attempts[r].assignment.workerID == id)
                  && (forall i, j :: 0 <= i < |running| && 0 <= j < |running| && i != j ==> running[i] != running[j]))
            && (o.reply.Refused? ==> o.state == s)
            && (o.reply.Granted? ==>
                  var reserved := s.workers[id].reserved;
                  var room := if free - |reserved - (set r | r in running)| <= s.workers[id].totalSlots - |reserved|
                              then free - |reserved - (set r | r in running)| else s.workers[id].totalSlots - |reserved|;
                  var pending := |FifoTheorems.PendingIn(s, s.queue)|;
                  |o.reply.value| == if room <= 0 then 0 else if room <= pending then room else pending)
  {
    hide Inv, Wired, ValidOffer, OfferSets, FifoTheorems.PendingIn;
    if id in s.workers { ValidOffersExactly(s, id, free, running); }
    if Offer(s, id, free, running, now).reply.Granted? { OfferRoom(s, id, free, running, now); }
  }

  /** A granted offer is the worker's heartbeat: it records when it came and what the
      worker said, and whatever the worker is given is reserved for it; no other worker changes. */
  lemma OfferIsHeartbeat(s: State, id: WorkerID, free: int, running: seq<TaskAttemptID>, now: int)
    requires Wired(s) && Offer(s, id, free, running, now).reply.Granted?
    ensures var o := Offer(s, id, free, running, now);
            && o.state.workers.Keys == s.workers.Keys && id in s.workers
            && (forall w :: w in s.workers && w != id ==> o.state.workers[w] == s.workers[w])
            && var worker, worker1 := s.workers[id], o.state.workers[id];
               && worker1.lastHeartbeat == now && worker1.reportedFree == free && worker1.running == running
               && worker1.status == worker.status && worker1.totalSlots == worker.totalSlots
               && worker1.reserved == worker.reserved + (set a | a in o.reply.value :: a.identity.id)
  {
    hide *;
    OfferSteps(s, id, free, running, now);
    var s0 := Heartbeat(s, id, free, running, now);
    var o := OfferState(s0, [], Available(s.workers[id], free, running));
    SetsReserve(o, id, s.queue);
    ReservedAre(s, o, OfferSets(o, id, s.queue), id, free, running, now);
  }

  lemma OfferSteps(s: State, id: WorkerID, free: int, running: seq<TaskAttemptID>, now: int)
    requires Wired(s) && Offer(s, id, free, running, now).reply.Granted?
    ensures id in s.workers
    ensures var s0 := Heartbeat(s, id, free, running, now);
            && id in s0.workers && (forall key :: key in s.queue ==> key in s0.sets)
            && var o := OfferSets(OfferState(s0, [], Available(s.workers[id], free, running)), id, s.queue);
               Offer(s, id, free, running, now).state.workers == o.state.workers
               && Offer(s, id, free, running, now).reply == Granted(o.assignments)
  {
    hide OfferSets, ValidOffer, Available, LiveKeys;
  }

  lemma ReservedAre(s: State, o: OfferState, r: OfferState, id: WorkerID, free: int, running: seq<TaskAttemptID>, now: int)
    requires id in s.workers && o.state == Heartbeat(s, id, free, running, now) && o.assignments == []
    requires id in o.state.workers && Reserves(o, r, id)
    ensures r.state.workers.Keys == s.workers.Keys
    ensures forall w :: w in s.workers && w != id ==> r.state.workers[w] == s.workers[w]
    ensures var worker, worker1 := s.workers[id], r.state.workers[id];
            && worker1.lastHeartbeat == now && worker1.reportedFree == free && worker1.running == running
            && worker1.status == worker.status && worker1.totalSlots == worker.totalSlots
            && worker1.reserved == worker.reserved + (set a | a in r.assignments :: a.identity.id)
  {
    assert r.assignments[0..] == r.assignments;
  }

  function IDsOf(given: seq<TaskAssignment>): set<TaskAttemptID> {
    set a | a in given :: a.identity.id
  }

  /** Handing out reserves for the worker what it is given, and touches nothing else of any worker. */
  ghost predicate Reserves(o: OfferState, r: OfferState, id: WorkerID)
    requires id in o.state.workers
  {
    && r.state.workers.Keys == o.state.workers.Keys && o.assignments <= r.assignments
    && (forall w :: w in o.state.workers && w != id ==> r.state.workers[w] == o.state.workers[w])
    && var worker, worker1 := o.state.workers[id], r.state.workers[id];
       worker1 == worker.(reserved := worker1.reserved)
       && worker1.reserved == worker.reserved + IDsOf(r.assignments[|o.assignments|..])
  }

  lemma ReservesJoin(o: OfferState, o1: OfferState, o2: OfferState, id: WorkerID)
    requires id in o.state.workers && Reserves(o, o1, id) && Reserves(o1, o2, id)
    ensures Reserves(o, o2, id)
  {
    var a, b := o1.assignments[|o.assignments|..], o2.assignments[|o1.assignments|..];
    assert o2.assignments[|o.assignments|..] == a + b;
    assert IDsOf(a + b) == IDsOf(a) + IDsOf(b);
  }

  lemma ReservesNone(o: OfferState, r: OfferState, id: WorkerID)
    requires id in o.state.workers && r.state.workers == o.state.workers && r.assignments == o.assignments
    ensures Reserves(o, r, id)
  {
    assert IDsOf([]) == {};
  }

  lemma ReservesOne(o: OfferState, id: WorkerID, key: SetKey, i: nat)
    requires key in o.state.sets && i < |o.state.sets[key].tasks| && id in o.state.workers
    ensures Reserves(o, OfferState(Assign(o.state, key, i, id), o.assignments + [NewAssignment(o.state, key, i, id)], o.available - 1), id)
  {
    var a := NewAssignment(o.state, key, i, id);
    assert (o.assignments + [a])[|o.assignments|..] == [a];
    assert IDsOf([a]) == {a.identity.id} == {o.state.nextAttempt};
  }

  lemma {:induction false} TasksReserve(o: OfferState, id: WorkerID, key: SetKey, i: nat)
    requires key in o.state.sets && i <= |o.state.sets[key].tasks| && id in o.state.workers
    ensures Reserves(o, OfferTasks(o, id, key, i), id)
    decreases |o.state.sets[key].tasks| - i
  {
    hide Reserves, Assign, NewAssignment;
    ReservesNone(o, o, id);
    if i < |o.state.sets[key].tasks| && o.available > 0 {
      if o.state.sets[key].tasks[i].state != TaskPending {
        TasksReserve(o, id, key, i + 1);
      } else {
        FifoTheorems.AssignOneFrame(o, id, key, i);
        var o1 := FifoSteps.AssignOne(o, id, key, i);
        FifoTheorems.OfferTasksTakes(o, id, key, i);
        ReservesOne(o, id, key, i);
        TasksReserve(o1, id, key, i + 1);
        ReservesJoin(o, o1, OfferTasks(o1, id, key, i + 1), id);
      }
    }
  }

  lemma {:induction false} SetsReserve(o: OfferState, id: WorkerID, keys: seq<SetKey>)
    requires id in o.state.workers && forall key :: key in keys ==> key in o.state.sets
    ensures Reserves(o, OfferSets(o, id, keys), id)
    decreases |keys|
  {
    hide Reserves, OfferTasks;
    ReservesNone(o, o, id);
    if keys != [] {
      var o1 := OfferSet(o, id, keys[0]);
      if !o.state.sets[keys[0]].terminal && !o.state.sets[keys[0]].cancelled { TasksReserve(o, id, keys[0], 0); }
      else { ReservesNone(o, o1, id); }
      SetsReserve(o1, id, keys[1..]);
      ReservesJoin(o, o1, OfferSets(o1, id, keys[1..]), id);
    }
  }

  lemma ValidOffersExactly(s: State, id: WorkerID, free: int, running: seq<TaskAttemptID>)
    requires id in s.workers
    ensures ValidOffer(s, id, free, running) <==>
            && 0 <= free && |running| + free <= s.workers[id].totalSlots
            && (forall r :: r in running ==> r in s.attempts && s.attempts[r].assignment.workerID == id)
            && (forall i, j :: 0 <= i < |running| && 0 <= j < |running| && i != j ==> running[i] != running[j])
  {
  }

  lemma OfferRoom(s: State, id: WorkerID, free: int, running: seq<TaskAttemptID>, now: int)
    requires Inv(s) && Wired(s) && Offer(s, id, free, running, now).reply.Granted?
    ensures id in s.workers
    ensures var reserved := s.workers[id].reserved;
            var room := if free - |reserved - (set r | r in running)| <= s.workers[id].totalSlots - |reserved|
                        then free - |reserved - (set r | r in running)| else s.workers[id].totalSlots - |reserved|;
            var pending := |FifoTheorems.PendingIn(s, s.queue)|;
            |Offer(s, id, free, running, now).reply.value| == if room <= 0 then 0 else if room <= pending then room else pending
  {
    hide *;
    FifoTheorems.PendingListIsFifoOrder(s);
    FifoTheorems.OfferShape(s, id, free, running, now);
    var pending := FifoTheorems.PendingIn(s, s.queue);
    var k := FifoTheorems.Count(Available(s.workers[id], free, running), |pending|);
    FifoTheorems.OfferIsFifo(s, id, free, running, now, pending, k);
    CountIsRoom(s.workers[id], free, running, |pending|);
    BatchSize(s, pending[..k], s.nextAttempt, id);
  }

  lemma CountIsRoom(w: WorkerState, free: int, running: seq<TaskAttemptID>, pending: nat)
    ensures var room := if free - |w.reserved - (set r | r in running)| <= w.totalSlots - |w.reserved|
                        then free - |w.reserved - (set r | r in running)| else w.totalSlots - |w.reserved|;
            FifoTheorems.Count(Available(w, free, running), pending) == if room <= 0 then 0 else if room <= pending then room else pending
    ensures 0 <= FifoTheorems.Count(Available(w, free, running), pending) <= pending
  {
  }

  lemma {:induction false} BatchSize(s: State, slots: seq<FifoTheorems.Slot>, first: TaskAttemptID, w: WorkerID)
    requires forall slot :: slot in slots ==> FifoTheorems.Names(s, slot)
    ensures |FifoTheorems.Batch(s, slots, first, w)| == |slots|
  {
    if slots != [] { BatchSize(s, slots[1..], first + 1, w); }
  }

  // ---------------------------------------------------------------- reports

  /** The attempt lives, in a set that is live and not cancelled, under an open scheduler. */
  ghost predicate Live(s: State, id: TaskAttemptID) {
    && !s.closed && id in s.attempts && !s.attempts[id].terminal && Linked(s, s.attempts[id])
    && !s.sets[s.attempts[id].key].terminal && !s.sets[s.attempts[id].key].cancelled
  }

  /** Ending one attempt frees its slot and touches no other attempt, worker or set. */
  ghost predicate OnlyEnds(s: State, s1: State, id: TaskAttemptID, state: TaskState)
    requires id in s.attempts && Linked(s, s.attempts[id])
  {
    var a := s.attempts[id];
    var w := a.assignment.workerID;
    && s1.queue == s.queue && s1.nextAttempt == s.nextAttempt && s1.nextSequence == s.nextSequence && s1.closed == s.closed
    && s1.attempts == s.attempts[id := a.(state := state, terminal := true)]
    && s1.workers == s.workers[w := s.workers[w].(reserved := s.workers[w].reserved - {id})]
    && s1.sets.Keys == s.sets.Keys && (forall key :: key in s.sets && key != a.key ==> s1.sets[key] == s.sets[key])
    && |s1.sets[a.key].tasks| == |s.sets[a.key].tasks| && s1.sets[a.key].inputs == s.sets[a.key].inputs
    && s1.sets[a.key].sequence == s.sets[a.key].sequence && s1.sets[a.key].returned == s.sets[a.key].returned
    && (forall j :: 0 <= j < |s.sets[a.key].tasks| && j != a.index ==> s1.sets[a.key].tasks[j] == s.sets[a.key].tasks[j])
    && s1.sets[a.key].tasks[a.index].task == s.sets[a.key].tasks[a.index].task
    && s1.sets[a.key].tasks[a.index].attempts == s.sets[a.key].tasks[a.index].attempts
  }

  /** The task has succeeded with the output, once and for all, and the set counts it. */
  ghost predicate Succeeded(s: State, s1: State, id: TaskAttemptID, report: TaskAttemptSuccess)
    requires id in s.attempts && Linked(s, s.attempts[id])
  {
    var a := s.attempts[id];
    && OnlyEnds(s, s1, id, TaskSucceeded)
    && var t, t1 := s.sets[a.key], s1.sets[a.key];
       && t1.tasks[a.index].state == TaskSucceeded && t1.tasks[a.index].output == Some(report.output)
       && t1.remaining == t.remaining - 1 && t1.reports == t.reports + [SuccessReport(report)]
       && (t1.terminal <==> t.remaining == 1) && (t1.terminal ==> t1.err == NoError) && t1.delivered == t.delivered && !t1.cancelled
  }

  function SuccessOf(a: TaskAssignment, output: TaskOutput): TaskAttemptSuccess {
    TaskAttemptSuccess(a.jobID, a.stageID, a.identity, a.task.partitionID, a.workerID, output)
  }

  /** An acceptable output of a live attempt is granted and counted. */
  lemma SuccessOutcome(s: State, id: TaskAttemptID, output: TaskOutput)
    requires Inv(s) && Wired(s) && Live(s, id)
    requires var a := s.attempts[id].assignment; AcceptableOutput(output, a.runID, a.jobID, a.task, a.identity)
    ensures var report := SuccessOf(s.attempts[id].assignment, output);
            var o := ReportSuccess(s, report);
            o.reply == Granted(()) && Succeeded(s, o.state, id, report)
  {
    hide Inv, Wired, AcceptableOutput, OnlyEnds;
    LiveReport(s, id);
    var report := SuccessOf(s.attempts[id].assignment, output);
    LiveSet(s, id);
    assert ReportSuccess(s, report).state == SucceedAttempt(s, report);
    Ends(s, id, TaskSucceeded, SucceedTask(s.sets[s.attempts[id].key], s.attempts[id].index, report));
  }

  /** A report in the words of a live attempt's assignment is about that attempt. */
  lemma LiveReport(s: State, id: TaskAttemptID)
    requires Inv(s) && Wired(s) && Live(s, id)
    ensures var a := s.attempts[id].assignment;
            a.identity.id == id && CheckReport(s, a.jobID, a.stageID, a.identity, a.task.partitionID, a.workerID) == ReportCheck.Live
  {
    hide WorkersOK, AllTasksOK, QueueOK, SetsOK, LostIdle, Wired;
    assert AttemptOK(s, id);
  }

  lemma LiveSet(s: State, id: TaskAttemptID)
    requires Inv(s) && Live(s, id)
    ensures s.sets[s.attempts[id].key].remaining >= 1
    ensures s.sets[s.attempts[id].key].tasks[s.attempts[id].index].attempts <= s.maxTaskAttempts
    ensures s.attempts[id].key in s.queue
  {
    hide WorkersOK, AllTasksOK, AttemptsOK, LostIdle, LogOK;
    assert SetInv(s.sets[s.attempts[id].key], s.maxTaskAttempts);
  }

  lemma Ends(s: State, id: TaskAttemptID, state: TaskState, set1: FifoTaskSet)
    requires id in s.attempts && Linked(s, s.attempts[id])
    requires var t := s.sets[s.attempts[id].key];
             && |set1.tasks| == |t.tasks| && set1.inputs == t.inputs && set1.sequence == t.sequence && set1.returned == t.returned
             && (forall j :: 0 <= j < |t.tasks| && j != s.attempts[id].index ==> set1.tasks[j] == t.tasks[j])
             && set1.tasks[s.attempts[id].index].task == t.tasks[s.attempts[id].index].task
             && set1.tasks[s.attempts[id].index].attempts == t.tasks[s.attempts[id].index].attempts
    ensures OnlyEnds(s, Retire(s, id, state, set1), id, state) && Retire(s, id, state, set1).sets[s.attempts[id].key] == set1
  {
  }

  // ---------------------------------------------------------------- failures

  /** The kinds of failure that are tried again. */
  predicate TriedAgain(kind: FailureKind) {
    kind in {FailureExecution, FailureWorkerLost}
  }

  /** After a failure the task waits to be assigned again, in a set still live and
      queued, if the kind is one that is tried again and attempts are left; otherwise
      the set has ended with the task's error. The set's report says which. */
  ghost predicate Failed(s: State, s1: State, id: TaskAttemptID, kind: FailureKind, report: TaskAttemptFailure)
    requires id in s.attempts && Linked(s, s.attempts[id])
  {
    var a := s.attempts[id];
    && OnlyEnds(s, s1, id, TaskFailed)
    && var t, t1 := s.sets[a.key], s1.sets[a.key];
       var task := t.tasks[a.index];
       var again := (kind == FailureExecution || kind == FailureWorkerLost) && task.attempts < s.maxTaskAttempts;
       && t1.remaining == t.remaining && t1.delivered == t.delivered && !t1.cancelled
       && (t1.tasks[a.index].state == TaskPending && !t1.terminal <==> again)
       && (!again ==> t1.terminal && t1.err == ErrTask && t1.tasks[a.index].state == TaskFailed)
       && (again ==> t1.err == t.err)
       && t1.reports == t.reports + [FailureReport(report, again, !again && (kind == FailureExecution || kind == FailureWorkerLost), task.attempts)]
       && a.key in s1.queue
  }

  function FailureOf(a: TaskAssignment, kind: FailureKind, input: Option<InputReference>, error: string): TaskAttemptFailure {
    TaskAttemptFailure(kind, input, a.jobID, a.stageID, a.identity, a.task.partitionID, a.workerID, error)
  }

  lemma FailsTask(s: State, id: TaskAttemptID, report: TaskAttemptFailure)
    requires Inv(s) && Wired(s) && Live(s, id)
    ensures Failed(s, FailAttempt(s, id, report), id, report.kind, report)
  {
    hide Inv, Wired, OnlyEnds;
    LiveSet(s, id);
    Ends(s, id, TaskFailed, FailTask(s.sets[s.attempts[id].key], s.attempts[id].index, report, s.maxTaskAttempts));
  }

  /** Losing the worker of a live attempt is such a failure, of the kind lost worker, in
      the words of the attempt's own assignment. */
  lemma LossOutcome(s: State, id: TaskAttemptID)
    requires Inv(s) && Wired(s) && Live(s, id)
    ensures var a := s.attempts[id].assignment;
            LossReport(a) == FailureOf(a, FailureWorkerLost, None, LossReport(a).error) && |LossReport(a).error| > 0
            && Failed(s, FailAttempt(s, id, LossReport(a)), id, FailureWorkerLost, LossReport(a))
  {
    hide Inv, Wired, Failed, FailAttempt;
    FailsTask(s, id, LossReport(s.attempts[id].assignment));
    hide Live;
  }

  /** What a worker may report of an assignment: a lost input with the bucket the
      assignment gave it under its map partition, any other kind without one. */
  predicate MayReport(a: TaskAssignment, kind: FailureKind, input: Option<InputReference>) {
    match kind
    case FailureExecution | FailurePermanent | FailureCanceled => input == None
    case FailureShuffleInput =>
      && input.Some? && a.inputs.Some? && input.value.partitionID == a.task.partitionID >= 0
      && var m, outputs := input.value.attempt.mapPartitionID, a.inputs.value.outputs;
         0 <= m < |outputs| && input.value.attempt == outputs[m].attempt && LowerHex(outputs[m].attempt.runID, 32)
    case FailureWorkerLost | FailureUnrecognized => false
  }

  lemma MayReportExactly(a: TaskAssignment, kind: FailureKind, input: Option<InputReference>)
    ensures ValidFailure(kind, input) && (input.Some? ==> NamesAssignedInput(a, input.value)) <==> MayReport(a, kind, input)
  {
    hide LowerHex;
  }

  /** A failure of a live attempt is granted exactly when it has an error text and is
      one a worker may report. Then the task is tried again or its set ends, as
      `Failed` says. */
  lemma FailureOutcome(s: State, id: TaskAttemptID, kind: FailureKind, input: Option<InputReference>, error: string)
    requires Inv(s) && Wired(s) && Live(s, id)
    ensures var a := s.attempts[id].assignment;
            var report := FailureOf(a, kind, input, error);
            var o := ReportFailure(s, report);
            if |error| > 0 && MayReport(a, kind, input) then o.reply == Granted(()) && Failed(s, o.state, id, kind, report)
            else o == Outcome(s, Refused(ErrInvalidReport))
  {
    hide Inv, Wired, Failed, FailAttempt, ValidFailure, NamesAssignedInput, MayReport, CheckReport;
    LiveReport(s, id);
    FailsTask(s, id, FailureOf(s.attempts[id].assignment, kind, input, error));
    MayReportExactly(s.attempts[id].assignment, kind, input);
    hide Live;
  }

  /** What has ended stays ended: reports about it are taken and change nothing. */
  lemma EndedReports(s: State, id: TaskAttemptID, output: TaskOutput)
    requires Inv(s) && Wired(s) && !s.closed && id in s.attempts && s.attempts[id].terminal
    ensures ReportSuccess(s, SuccessOf(s.attempts[id].assignment, output)) == Outcome(s, Granted(()))
  {
    hide WorkersOK, AllTasksOK, QueueOK, SetsOK, LostIdle, AcceptableOutput;
    assert AttemptOK(s, id);
  }

  /** Failures of an attempt that has ended are taken the same way. */
  lemma EndedFailures(s: State, id: TaskAttemptID, kind: FailureKind, input: Option<InputReference>, error: string)
    requires Inv(s) && Wired(s) && !s.closed && id in s.attempts && s.attempts[id].terminal
    ensures ReportFailure(s, FailureOf(s.attempts[id].assignment, kind, input, error))
            == Outcome(s, if |error| > 0 then Granted(()) else Refused(ErrInvalidReport))
  {
    hide WorkersOK, AllTasksOK, QueueOK, SetsOK, LostIdle, ValidFailure, NamesAssignedInput;
    assert AttemptOK(s, id);
  }

  /** A set that has been cancelled takes no more output: the next report about it,
      success or failure, ends it with its context's error. */
  ghost predicate EndsCancelled(s: State, s1: State, id: TaskAttemptID, state: TaskState)
    requires id in s.attempts && Linked(s, s.attempts[id])
  {
    var a := s.attempts[id];
    && OnlyEnds(s, s1, id, state)
    && var t, t1 := s.sets[a.key], s1.sets[a.key];
       && t1.terminal && t1.err == ErrContext && t1.reports == t.reports && t1.remaining == t.remaining
       && t1.tasks[a.index].state == state && t1.tasks[a.index].output == t.tasks[a.index].output
  }

  /** The attempt lives in a set that was cancelled but has not ended. */
  ghost predicate Doomed(s: State, id: TaskAttemptID) {
    && !s.closed && id in s.attempts && !s.attempts[id].terminal && Linked(s, s.attempts[id])
    && !s.sets[s.attempts[id].key].terminal && s.sets[s.attempts[id].key].cancelled
  }

  lemma CancelledOutcome(s: State, id: TaskAttemptID, output: TaskOutput, report: TaskAttemptFailure)
    requires Inv(s) && Wired(s) && Doomed(s, id)
    requires var a := s.attempts[id].assignment; AcceptableOutput(output, a.runID, a.jobID, a.task, a.identity)
    requires var a := s.attempts[id].assignment;
             report == FailureOf(a, report.kind, report.shuffleInput, report.error) && |report.error| > 0
             && MayReport(a, report.kind, report.shuffleInput)
    ensures var a := s.attempts[id].assignment;
            var o, p := ReportSuccess(s, SuccessOf(a, output)), ReportFailure(s, report);
            && o.reply == Granted(()) && EndsCancelled(s, o.state, id, TaskSucceeded)
            && p.reply == Granted(()) && EndsCancelled(s, p.state, id, TaskFailed)
  {
    hide Inv, Wired, AcceptableOutput, OnlyEnds, MayReport, ValidFailure, NamesAssignedInput;
    NamesAttempt(s, id);
    var a, set0 := s.attempts[id], s.sets[s.attempts[id].key];
    MayReportExactly(a.assignment, report.kind, report.shuffleInput);
    assert ReportSuccess(s, SuccessOf(a.assignment, output)).state == SucceedAttempt(s, SuccessOf(a.assignment, output));
    assert ReportFailure(s, report).state == FailAttempt(s, id, report);
    Ends(s, id, TaskSucceeded, SucceedTask(set0, a.index, SuccessOf(a.assignment, output)));
    Ends(s, id, TaskFailed, FailTask(set0, a.index, report, s.maxTaskAttempts));
  }

  lemma NamesAttempt(s: State, id: TaskAttemptID)
    requires Inv(s) && Wired(s) && !s.closed && id in s.attempts && !s.attempts[id].terminal
    ensures var a := s.attempts[id].assignment;
            a.identity.id == id && CheckReport(s, a.jobID, a.stageID, a.identity, a.task.partitionID, a.workerID) == ReportCheck.Live
  {
    hide WorkersOK, AllTasksOK, QueueOK, SetsOK, LostIdle, Wired;
    assert AttemptOK(s, id);
  }

  // ---------------------------------------------------------------- delivery and closing

  /** A delivery hands over every queued report once, in order, and the call returns
      when the set has ended or its context is cancelled. */
  lemma DrainOutcome(s: State, key: SetKey)
    requires key in s.sets && !s.sets[key].returned
    ensures var t, s1 := s.sets[key], Drain(s, key);
            && s1 == s.(sets := s1.sets) && s1.sets.Keys == s.sets.Keys && (forall k :: k in s.sets && k != key ==> s1.sets[k] == s.sets[k])
            && var t1 := s1.sets[key];
               && t1.delivered == t.delivered + t.reports && t1.reports == [] && t1.tasks == t.tasks && t1.remaining == t.remaining
               && (t1.returned <==> t.terminal || t.cancelled) && (t1.terminal <==> t.terminal || t.cancelled)
               && t1.err == if t.cancelled && !t.terminal then ErrContext else t.err
  {
  }

  /** Closing ends every set that lives and changes nothing else but to refuse later calls. */
  lemma CloseOutcome(s: State)
    ensures var s1 := Close(s);
            && s1.closed && s1 == s.(closed := true, sets := s1.sets) && s1.sets.Keys == s.sets.Keys
            && forall key :: key in s.sets ==>
                 && s1.sets[key].terminal && s1.sets[key].tasks == s.sets[key].tasks && s1.sets[key].reports == s.sets[key].reports
                 && s1.sets[key].err == if s.sets[key].terminal then s.sets[key].err else ErrSchedulerClosed
  {
  }
}
