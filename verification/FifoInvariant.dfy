/** The invariant of the FIFO scheduler and its proof for every event. */
module FifoInvariant {
  import opened Types
  import opened Ordering
  import opened Fifo
  import opened FifoSets
  import opened FiniteSets

  // ---------------------------------------------------------------- the invariant

  /** An attempt carries its set's and task's identity; while it lives it is its
      task's active attempt and the task is running. */
  ghost predicate AttemptOK(s: State, id: TaskAttemptID)
    requires id in s.attempts
  {
    var a := s.attempts[id];
    && Linked(s, a)
    && AssignmentOf(s, a, id)
    && (!a.terminal ==> s.sets[a.key].tasks[a.index].active == id && s.sets[a.key].tasks[a.index].state == TaskRunning)
  }

  ghost predicate AssignmentOf(s: State, a: AssignedAttempt, id: TaskAttemptID)
    requires Linked(s, a)
  {
    var t := s.sets[a.key].tasks[a.index].task;
    a.assignment == TaskAssignment(s.sets[a.key].inputs, s.runID, a.key.job, a.key.stage,
                                   TaskAttemptIdentity(id, t.id, a.key.attempt), t, a.assignment.workerID)
  }

  function AttemptsOf(s: State, key: SetKey, i: nat): set<TaskAttemptID> {
    set id | id in s.attempts && s.attempts[id].key == key && s.attempts[id].index == i
  }

  /** A running task's active attempt lives and is its own; every attempt ever
      made counts against the task's budget. */
  ghost predicate TaskOK(s: State, key: SetKey, i: nat)
    requires key in s.sets && i < |s.sets[key].tasks|
  {
    var t := s.sets[key].tasks[i];
    && (t.state == TaskRunning ==>
          t.active in s.attempts && !s.attempts[t.active].terminal
          && s.attempts[t.active].key == key && s.attempts[t.active].index == i)
    && t.attempts == |AttemptsOf(s, key, i)|
  }

  ghost predicate Holds(s: State, w: WorkerID, id: TaskAttemptID) {
    id in s.attempts && s.attempts[id].assignment.workerID == w && !s.attempts[id].terminal
  }

  /** A worker's reservations are exactly its live attempts and fit its slots. */
  ghost predicate WorkerOK(s: State, w: WorkerID)
    requires w in s.workers
  {
    && (forall id :: id in s.workers[w].reserved <==> Holds(s, w, id))
    && |s.workers[w].reserved| <= s.workers[w].totalSlots
  }

  /** The queue is strictly sorted by sequence and holds every live set once. */
  ghost predicate QueueOK(s: State) {
    && (forall i :: 0 <= i < |s.queue| ==> s.queue[i] in s.sets)
    && (forall i, j :: 0 <= i < j < |s.queue| ==> s.sets[s.queue[i]].sequence < s.sets[s.queue[j]].sequence)
    && (forall key :: key in s.sets && !s.sets[key].terminal ==> key in s.queue)
    && (forall key :: key in s.sets ==> s.sets[key].sequence < s.nextSequence)
  }

  ghost predicate SetsOK(s: State) {
    forall key :: key in s.sets ==> SetInv(s.sets[key], s.maxTaskAttempts)
  }

  ghost predicate Numbered(s: State) {
    s.maxTaskAttempts > 0 && forall id: TaskAttemptID :: id in s.attempts <==> id < s.nextAttempt
  }

  ghost predicate AttemptsOK(s: State) {
    forall id :: id in s.attempts ==> AttemptOK(s, id)
  }

  ghost predicate AllTasksOK(s: State) {
    forall key, i :: key in s.sets && 0 <= i < |s.sets[key].tasks| ==> TaskOK(s, key, i)
  }

  ghost predicate WorkersOK(s: State) {
    forall w :: w in s.workers ==> WorkerOK(s, w)
  }

  /** Attempts, tasks and reservations agree. */
  ghost predicate Agree(s: State) {
    Numbered(s) && AttemptsOK(s) && AllTasksOK(s) && WorkersOK(s)
  }

  /** Everything but the rule for lost workers, which a worker's expiry restores. */
  ghost predicate Core(s: State) {
    Agree(s) && QueueOK(s) && SetsOK(s)
  }

  ghost predicate LostIdle(s: State) {
    forall w :: w in s.workers && s.workers[w].status == WorkerLost ==> s.workers[w].reserved == {}
  }

  ghost predicate Inv(s: State) {
    Core(s) && LostIdle(s)
  }

  lemma CoreWired(s: State)
    requires Core(s)
    ensures Wired(s)
  {
    forall w, id | w in s.workers && id in s.workers[w].reserved ensures id in s.attempts {
      assert WorkerOK(s, w);
      assert Holds(s, w, id);
    }
    forall id | id in s.attempts ensures Linked(s, s.attempts[id]) { assert AttemptOK(s, id); }
  }

  lemma InitialInv(maxTaskAttempts: nat, runID: string)
    requires maxTaskAttempts > 0
    ensures Inv(Initial(maxTaskAttempts, runID))
  {
  }

  // ---------------------------------------------------------------- changes that move no task

  /** Only set-level facts (reports, contexts, ends) differ. */
  ghost predicate SameTasks(s: State, s1: State) {
    && s1.maxTaskAttempts == s.maxTaskAttempts && s1.runID == s.runID
    && s1.attempts == s.attempts && s1.nextAttempt == s.nextAttempt
    && (forall key :: key in s.sets ==> key in s1.sets && s1.sets[key].tasks == s.sets[key].tasks
                                        && s1.sets[key].inputs == s.sets[key].inputs)
  }

  ghost predicate SameReservations(s: State, s1: State) {
    && s1.workers.Keys == s.workers.Keys
    && (forall w :: w in s.workers ==> s1.workers[w].reserved == s.workers[w].reserved
                                       && s1.workers[w].totalSlots == s.workers[w].totalSlots)
  }

  lemma AgreeFrame(s: State, s1: State)
    requires Agree(s) && SameTasks(s, s1) && SameReservations(s, s1) && s1.sets.Keys == s.sets.Keys
    ensures Agree(s1)
  {
    forall id | id in s1.attempts ensures AttemptOK(s1, id) { assert AttemptOK(s, id); }
    forall key, i | key in s1.sets && 0 <= i < |s1.sets[key].tasks| ensures TaskOK(s1, key, i) {
      assert TaskOK(s, key, i);
      assert AttemptsOf(s1, key, i) == AttemptsOf(s, key, i);
    }
    forall w | w in s1.workers ensures WorkerOK(s1, w) {
      assert WorkerOK(s, w);
      assert forall id :: Holds(s1, w, id) <==> Holds(s, w, id);
    }
  }

  /** Replacing one set by a value with the same tasks and no less terminal. */
  lemma PutSetCore(s: State, key: SetKey, t: FifoTaskSet)
    requires Core(s) && key in s.sets
    requires t.tasks == s.sets[key].tasks && t.inputs == s.sets[key].inputs && t.sequence == s.sets[key].sequence
    requires s.sets[key].terminal ==> t.terminal
    requires SetInv(t, s.maxTaskAttempts)
    ensures Core(PutSet(s, key, t))
  {
    AgreeFrame(s, PutSet(s, key, t));
    PutSetsOK(s, PutSet(s, key, t), key);
    PutQueueOK(s, PutSet(s, key, t), key);
  }

  // ---------------------------------------------------------------- assigning

  lemma AssignAttempt(s: State, key: SetKey, i: nat, w: WorkerID, id: TaskAttemptID)
    requires key in s.sets && i < |s.sets[key].tasks| && w in s.workers
    requires s.sets[key].tasks[i].state == TaskPending
    requires id in s.attempts && id != s.nextAttempt && AttemptOK(s, id)
    ensures AttemptOK(Assign(s, key, i, w), id)
  {
  }

  lemma AssignNew(s: State, key: SetKey, i: nat, w: WorkerID)
    requires key in s.sets && i < |s.sets[key].tasks| && w in s.workers
    ensures AttemptOK(Assign(s, key, i, w), s.nextAttempt)
  {
  }

  lemma AssignOwnTask(s: State, key: SetKey, i: nat, w: WorkerID)
    requires key in s.sets && i < |s.sets[key].tasks| && w in s.workers
    requires s.nextAttempt !in s.attempts && TaskOK(s, key, i)
    ensures TaskOK(Assign(s, key, i, w), key, i)
  {
    assert AttemptsOf(Assign(s, key, i, w), key, i) == AttemptsOf(s, key, i) + {s.nextAttempt};
  }

  lemma AssignOtherTask(s: State, key: SetKey, i: nat, w: WorkerID, k: SetKey, j: nat)
    requires key in s.sets && i < |s.sets[key].tasks| && w in s.workers
    requires s.nextAttempt !in s.attempts && k in s.sets && j < |s.sets[k].tasks| && TaskOK(s, k, j)
    requires k != key || j != i
    ensures TaskOK(Assign(s, key, i, w), k, j)
  {
    assert AttemptsOf(Assign(s, key, i, w), k, j) == AttemptsOf(s, k, j);
  }

  lemma AssignWorker(s: State, key: SetKey, i: nat, w: WorkerID, v: WorkerID)
    requires key in s.sets && i < |s.sets[key].tasks| && w in s.workers && v in s.workers
    requires s.nextAttempt !in s.attempts && WorkerOK(s, v) && |s.workers[w].reserved| < s.workers[w].totalSlots
    ensures WorkerOK(Assign(s, key, i, w), v)
  {
    var s1 := Assign(s, key, i, w);
    assert forall id :: id != s.nextAttempt ==> (Holds(s1, v, id) <==> Holds(s, v, id));
    assert !Holds(s, v, s.nextAttempt);
  }

  lemma AssignAgree(s: State, key: SetKey, i: nat, w: WorkerID)
    requires Agree(s) && key in s.sets && i < |s.sets[key].tasks| && w in s.workers
    requires s.sets[key].tasks[i].state == TaskPending
    requires |s.workers[w].reserved| < s.workers[w].totalSlots
    ensures Agree(Assign(s, key, i, w))
  {
    var s1 := Assign(s, key, i, w);
    assert s.nextAttempt !in s.attempts;
    AssignAttempts(s, key, i, w);
    AssignTasks(s, key, i, w);
    hide AttemptOK, TaskOK;
    forall v | v in s1.workers ensures WorkerOK(s1, v) { AssignWorker(s, key, i, w, v); }
  }

  lemma AssignAttempts(s: State, key: SetKey, i: nat, w: WorkerID)
    requires AttemptsOK(s) && key in s.sets && i < |s.sets[key].tasks| && w in s.workers
    requires s.sets[key].tasks[i].state == TaskPending
    ensures AttemptsOK(Assign(s, key, i, w))
  {
    var s1 := Assign(s, key, i, w);
    forall id | id in s1.attempts ensures AttemptOK(s1, id) {
      if id == s.nextAttempt { AssignNew(s, key, i, w); } else { AssignAttempt(s, key, i, w, id); }
    }
  }

  lemma AssignTasks(s: State, key: SetKey, i: nat, w: WorkerID)
    requires AllTasksOK(s) && key in s.sets && i < |s.sets[key].tasks| && w in s.workers
    requires s.nextAttempt !in s.attempts
    ensures AllTasksOK(Assign(s, key, i, w))
  {
    var s1 := Assign(s, key, i, w);
    forall k, j | k in s1.sets && 0 <= j < |s1.sets[k].tasks| ensures TaskOK(s1, k, j) {
      assert TaskOK(s, k, j);
      if k == key && j == i { AssignOwnTask(s, key, i, w); } else { AssignOtherTask(s, key, i, w, k, j); }
    }
  }

  lemma AssignCore(s: State, key: SetKey, i: nat, w: WorkerID)
    requires Core(s) && key in s.sets && i < |s.sets[key].tasks| && w in s.workers
    requires s.sets[key].tasks[i].state == TaskPending
    requires |s.workers[w].reserved| < s.workers[w].totalSlots
    ensures Core(Assign(s, key, i, w))
  {
    var s1 := Assign(s, key, i, w);
    AssignAgree(s, key, i, w);
    AssignKeeps(s.sets[key], i, s.nextAttempt, s.maxTaskAttempts);
    PutSetsOK(s, s1, key);
    PutQueueOK(s, s1, key);
  }

  /** Sets other than `key` are as before. */
  lemma PutSetsOK(s: State, s1: State, key: SetKey)
    requires SetsOK(s) && key in s.sets && key in s1.sets && s1.maxTaskAttempts == s.maxTaskAttempts
    requires s1.sets == s.sets[key := s1.sets[key]] && SetInv(s1.sets[key], s.maxTaskAttempts)
    ensures SetsOK(s1)
  {
  }

  lemma PutQueueOK(s: State, s1: State, key: SetKey)
    requires QueueOK(s) && key in s.sets && key in s1.sets
    requires s1.sets == s.sets[key := s1.sets[key]] && s1.queue == s.queue && s1.nextSequence == s.nextSequence
    requires s1.sets[key].sequence == s.sets[key].sequence && (s.sets[key].terminal ==> s1.sets[key].terminal)
    ensures QueueOK(s1)
  {
  }

  // ---------------------------------------------------------------- retiring

  /** `t` is the set with task `i` no longer running and nothing else moved. */
  ghost predicate Moved(t0: FifoTaskSet, t: FifoTaskSet, i: nat) {
    && i < |t0.tasks| && |t.tasks| == |t0.tasks|
    && (forall j :: 0 <= j < |t0.tasks| && j != i ==> t.tasks[j] == t0.tasks[j])
    && t.tasks[i].task == t0.tasks[i].task && t.tasks[i].attempts == t0.tasks[i].attempts
    && t.tasks[i].active == t0.tasks[i].active && t.tasks[i].state != TaskRunning
    && t.inputs == t0.inputs && t.sequence == t0.sequence && (t0.terminal ==> t.terminal)
  }

  lemma RetireAttempt(s: State, id: TaskAttemptID, state: TaskState, t: FifoTaskSet, x: TaskAttemptID)
    requires id in s.attempts && AttemptOK(s, id) && !s.attempts[id].terminal
    requires Moved(s.sets[s.attempts[id].key], t, s.attempts[id].index)
    requires x in s.attempts && AttemptOK(s, x)
    ensures AttemptOK(Retire(s, id, state, t), x)
  {
  }

  lemma RetireTask(s: State, id: TaskAttemptID, state: TaskState, t: FifoTaskSet, k: SetKey, j: nat)
    requires id in s.attempts && AttemptOK(s, id) && !s.attempts[id].terminal
    requires Moved(s.sets[s.attempts[id].key], t, s.attempts[id].index)
    requires k in s.sets && j < |s.sets[k].tasks| && TaskOK(s, k, j)
    ensures TaskOK(Retire(s, id, state, t), k, j)
  {
    assert AttemptsOf(Retire(s, id, state, t), k, j) == AttemptsOf(s, k, j);
  }

  lemma RetireWorker(s: State, id: TaskAttemptID, state: TaskState, t: FifoTaskSet, v: WorkerID)
    requires id in s.attempts && Linked(s, s.attempts[id]) && v in s.workers && WorkerOK(s, v)
    ensures WorkerOK(Retire(s, id, state, t), v)
  {
    var s1 := Retire(s, id, state, t);
    assert forall x :: x != id ==> (Holds(s1, v, x) <==> Holds(s, v, x));
    SubsetSize(s1.workers[v].reserved, s.workers[v].reserved);
  }

  lemma RetireAgree(s: State, id: TaskAttemptID, state: TaskState, t: FifoTaskSet)
    requires Agree(s) && id in s.attempts && !s.attempts[id].terminal && Linked(s, s.attempts[id])
    requires Moved(s.sets[s.attempts[id].key], t, s.attempts[id].index)
    ensures Agree(Retire(s, id, state, t))
  {
    var s1 := Retire(s, id, state, t);
    assert AttemptOK(s, id);
    forall x | x in s1.attempts ensures AttemptOK(s1, x) { RetireAttempt(s, id, state, t, x); }
    forall k, j | k in s1.sets && 0 <= j < |s1.sets[k].tasks| ensures TaskOK(s1, k, j) {
      assert TaskOK(s, k, j);
      RetireTask(s, id, state, t, k, j);
    }
    forall v | v in s1.workers ensures WorkerOK(s1, v) { RetireWorker(s, id, state, t, v); }
  }

  lemma RetireCore(s: State, id: TaskAttemptID, state: TaskState, t: FifoTaskSet)
    requires Core(s) && id in s.attempts && !s.attempts[id].terminal && Linked(s, s.attempts[id])
    requires Moved(s.sets[s.attempts[id].key], t, s.attempts[id].index)
    requires SetInv(t, s.maxTaskAttempts)
    ensures Core(Retire(s, id, state, t))
  {
    RetireAgree(s, id, state, t);
    PutSetsOK(s, Retire(s, id, state, t), s.attempts[id].key);
    PutQueueOK(s, Retire(s, id, state, t), s.attempts[id].key);
  }

  lemma SucceedMoves(t: FifoTaskSet, i: nat, report: TaskAttemptSuccess)
    requires i < |t.tasks|
    ensures Moved(t, SucceedTask(t, i, report), i)
  {
  }

  lemma FailMoves(t: FifoTaskSet, i: nat, report: TaskAttemptFailure, max: nat)
    requires i < |t.tasks|
    ensures Moved(t, FailTask(t, i, report, max), i)
  {
  }

  lemma SucceedCore(s: State, report: TaskAttemptSuccess)
    requires Core(s) && report.attempt.id in s.attempts && !s.attempts[report.attempt.id].terminal
    requires Linked(s, s.attempts[report.attempt.id])
    requires report.partitionID == s.attempts[report.attempt.id].assignment.task.partitionID
    ensures Core(SucceedAttempt(s, report))
  {
    var a := s.attempts[report.attempt.id];
    assert AttemptOK(s, report.attempt.id);
    SucceedKeeps(s.sets[a.key], a.index, report, s.maxTaskAttempts);
    SucceedMoves(s.sets[a.key], a.index, report);
    RetireCore(s, report.attempt.id, TaskSucceeded, SucceedTask(s.sets[a.key], a.index, report));
  }

  lemma FailCore(s: State, id: TaskAttemptID, report: TaskAttemptFailure)
    requires Core(s) && id in s.attempts && !s.attempts[id].terminal && Linked(s, s.attempts[id])
    ensures Core(FailAttempt(s, id, report))
  {
    var a := s.attempts[id];
    assert AttemptOK(s, id);
    FailKeeps(s.sets[a.key], a.index, report, s.maxTaskAttempts);
    FailMoves(s.sets[a.key], a.index, report, s.maxTaskAttempts);
    RetireCore(s, id, TaskFailed, FailTask(s.sets[a.key], a.index, report, s.maxTaskAttempts));
  }
}
