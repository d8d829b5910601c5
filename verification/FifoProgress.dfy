/** How one task set gets done by one worker: launched, handed out task by task, each
    reported and delivered, until it has ended. */
module FifoProgress {
  import opened Types
  import opened Fifo
  import opened FifoInvariant
  import FifoOutcomes
  import FifoSteps

  const W := "w"

  predicate FreeWorker(s: State) {
    !s.closed && W in s.workers && s.workers[W].status == WorkerAlive && s.workers[W].totalSlots == 1 && s.workers[W].reserved == {}
  }

  predicate OthersEnded(s: State, key: SetKey) {
    forall k :: k in s.queue && k != key ==> k in s.sets && s.sets[k].terminal
  }

  /** Nothing to do: the worker is free and every queued set has ended. */
  predicate Idle(s: State) {
    FreeWorker(s) && forall k :: k in s.queue ==> k in s.sets && s.sets[k].terminal
  }

  predicate SetAt(t: FifoTaskSet, inputs: Option<InputSnapshot>, tasks: seq<Task>, m: nat, at: TaskState) {
    && !t.terminal && !t.cancelled && !t.returned && t.inputs == inputs && |t.tasks| == |tasks| && t.remaining == |tasks| - m
    && forall i :: 0 <= i < |tasks| ==>
         t.tasks[i].task == tasks[i] && t.tasks[i].state == (if i < m then TaskSucceeded else if i == m then at else TaskPending)
  }

  /** The first `m` tasks of the set have succeeded and the others wait. */
  predicate Halfway(s: State, key: SetKey, inputs: Option<InputSnapshot>, tasks: seq<Task>, m: nat) {
    FreeWorker(s) && key in s.sets && key in s.queue && OthersEnded(s, key) && m < |tasks| && SetAt(s.sets[key], inputs, tasks, m, TaskPending)
  }

  function TheAssignment(s: State, key: SetKey, inputs: Option<InputSnapshot>, t: Task, id: TaskAttemptID): TaskAssignment {
    TaskAssignment(inputs, s.runID, key.job, key.stage, TaskAttemptIdentity(id, t.id, key.attempt), t, W)
  }

  /** The worker runs the next task under attempt `id`. */
  predicate Underway(s: State, key: SetKey, inputs: Option<InputSnapshot>, tasks: seq<Task>, m: nat, id: TaskAttemptID) {
    && !s.closed && W in s.workers && s.workers[W].status == WorkerAlive && s.workers[W].totalSlots == 1 && s.workers[W].reserved == {id}
    && key in s.sets && key in s.queue && OthersEnded(s, key) && m < |tasks| && SetAt(s.sets[key], inputs, tasks, m, TaskRunning)
    && id in s.attempts && s.attempts[id] == AssignedAttempt(TheAssignment(s, key, inputs, tasks[m], id), key, m, TaskRunning, false)
  }

  // ---------------------------------------------------------------- launching

  lemma Registers(max: nat, runID: string)
    ensures Register(Initial(max, runID), W, 1, 0).reply == Granted(()) && Idle(Register(Initial(max, runID), W, 1, 0).state)
    ensures Register(Initial(max, runID), W, 1, 0).state.sets == map[]
  {
  }

  predicate InPartitionOrder(tasks: seq<Task>) {
    forall i, j :: 0 <= i < j < |tasks| ==> tasks[i].partitionID <= tasks[j].partitionID
  }

  lemma {:induction false} SortedStays(tasks: seq<Task>)
    requires InPartitionOrder(tasks)
    ensures SortTasks(tasks) == tasks
  {
    if tasks != [] {
      SortedStays(tasks[1..]);
    }
  }

  /** An idle scheduler takes a task set whose tasks are listed in partition order. */
  lemma Launches(s: State, input: TaskSet)
    requires Idle(s) && KeyOf(input) !in s.sets && ValidTaskSet(input) && InPartitionOrder(input.tasks)
    ensures var s1 := Submit(s, input, false).state;
            Halfway(s1, KeyOf(input), input.inputs, input.tasks, 0) && s1.sets.Keys == s.sets.Keys + {KeyOf(input)}
  {
    hide ValidTaskSet;
    NotEmpty(input);
    SortedStays(input.tasks);
    hide SortTasks, InPartitionOrder;
  }

  lemma NotEmpty(input: TaskSet)
    requires ValidTaskSet(input)
    ensures |input.tasks| > 0
  {
  }

  // ---------------------------------------------------------------- handing out

  lemma {:induction false} SkipsDone(o: OfferState, key: SetKey, i: nat, m: nat)
    requires key in o.state.sets && W in o.state.workers && i <= m < |o.state.sets[key].tasks| && o.available > 0
    requires forall j :: 0 <= j < m ==> o.state.sets[key].tasks[j].state != TaskPending
    ensures OfferTasks(o, W, key, i) == OfferTasks(o, W, key, m)
    decreases m - i
  {
    if i < m { SkipsDone(o, key, i + 1, m); }
  }

  lemma NothingLeft(o: OfferState, key: SetKey, i: nat)
    requires key in o.state.sets && W in o.state.workers && i <= |o.state.sets[key].tasks| && o.available == 0
    ensures OfferTasks(o, W, key, i) == o
  {
  }

  /** With room for one task, a set gives its first pending one. */
  lemma GivesOne(o: OfferState, key: SetKey, m: nat)
    requires key in o.state.sets && W in o.state.workers && m < |o.state.sets[key].tasks| && o.available == 1
    requires o.state.sets[key].tasks[m].state == TaskPending && !o.state.sets[key].terminal && !o.state.sets[key].cancelled
    requires forall j :: 0 <= j < m ==> o.state.sets[key].tasks[j].state != TaskPending
    ensures OfferSet(o, W, key) == OfferState(Assign(o.state, key, m, W), o.assignments + [NewAssignment(o.state, key, m, W)], 0)
  {
    SkipsDone(o, key, 0, m);
    hide NewAssignment;
    var o1 := OfferState(Assign(o.state, key, m, W), o.assignments + [NewAssignment(o.state, key, m, W)], 0);
    assert key in o1.state.sets && m + 1 <= |o1.state.sets[key].tasks| && W in o1.state.workers;
    assert OfferTasks(o, W, key, m) == OfferTasks(o1, W, key, m + 1);
    NothingLeft(o1, key, m + 1);
  }

  lemma {:induction false} NoRoom(o: OfferState, keys: seq<SetKey>)
    requires W in o.state.workers && o.available == 0
    requires forall k :: k in keys ==> k in o.state.sets && (o.state.sets[k].terminal || !o.state.sets[k].cancelled)
    ensures OfferSets(o, W, keys) == o
    decreases |keys|
  {
    if keys != [] {
      var t := o.state.sets[keys[0]];
      if !t.terminal && !t.cancelled { NothingLeft(o, keys[0], 0); }
      hide OfferTasks;
      assert OfferSet(o, W, keys[0]) == o;
      NoRoom(o, keys[1..]);
    }
  }

  lemma {:induction false} OnlyOneGives(o: OfferState, keys: seq<SetKey>, key: SetKey, m: nat)
    requires key in keys && key in o.state.sets && W in o.state.workers && m < |o.state.sets[key].tasks| && o.available == 1
    requires forall k :: k in keys && k != key ==> k in o.state.sets && o.state.sets[k].terminal
    requires o.state.sets[key].tasks[m].state == TaskPending && !o.state.sets[key].terminal && !o.state.sets[key].cancelled
    requires forall j :: 0 <= j < m ==> o.state.sets[key].tasks[j].state != TaskPending
    ensures forall k :: k in keys ==> k in o.state.sets
    ensures OfferSets(o, W, keys) == OfferState(Assign(o.state, key, m, W), o.assignments + [NewAssignment(o.state, key, m, W)], 0)
    decreases |keys|
  {
    if keys[0] == key {
      GivesOne(o, key, m);
      hide OfferSet, NewAssignment;
      var o1 := OfferSet(o, W, key);
      NoRoom(o1, keys[1..]);
    } else {
      assert OfferSet(o, W, keys[0]) == o;
      assert key in keys[1..];
      hide OfferSet, Assign, NewAssignment;
      OnlyOneGives(o, keys[1..], key, m);
    }
  }

  /** The scheduler once the worker has been given task `m`. */
  function Handed(s: State, key: SetKey, m: nat): State
    requires key in s.sets && m < |s.sets[key].tasks| && W in s.workers
  {
    Assign(Heartbeat(s, W, 1, [], 0), key, m, W)
  }

  lemma CanHand(s: State, key: SetKey, inputs: Option<InputSnapshot>, tasks: seq<Task>, m: nat)
    requires Halfway(s, key, inputs, tasks, m)
    ensures key in s.sets && m < |s.sets[key].tasks| && W in s.workers
  {
  }

  lemma AssignFields(s: State, key: SetKey, inputs: Option<InputSnapshot>, tasks: seq<Task>, m: nat)
    requires Halfway(s, key, inputs, tasks, m) && key in s.sets && m < |s.sets[key].tasks| && W in s.workers
    ensures var s1 := Handed(s, key, m);
            && Underway(s1, key, inputs, tasks, m, s.nextAttempt) && s1.queue == s.queue && s1.sets.Keys == s.sets.Keys
            && s1.runID == s.runID
  {
    var s1 := Handed(s, key, m);
    assert s1.workers[W].reserved == {} + {s.nextAttempt} == {s.nextAttempt};
  }

  lemma CompactKeeps(s: State, key: SetKey, inputs: Option<InputSnapshot>, tasks: seq<Task>, m: nat, id: TaskAttemptID)
    requires QueueOK(s) && Underway(s, key, inputs, tasks, m, id)
    ensures Underway(Compact(s), key, inputs, tasks, m, id) && Compact(s) == s.(queue := Compact(s).queue)
  {
    FifoSteps.LiveKeysMembers(s.sets, s.queue);
    hide LiveKeys, SetAt;
  }

  /** One free slot is given the next task, under a new attempt. */
  lemma HandsOut(s: State, key: SetKey, inputs: Option<InputSnapshot>, tasks: seq<Task>, m: nat)
    requires Inv(s) && Wired(s) && Halfway(s, key, inputs, tasks, m)
    ensures var s1 := Offer(s, W, 1, [], 0).state;
            && Underway(s1, key, inputs, tasks, m, s.nextAttempt) && s1.sets.Keys == s.sets.Keys
            && s1.runID == s.runID && s.nextAttempt !in s.attempts
  {
    hide *;
    CanHand(s, key, inputs, tasks, m);
    OffersOne(s, key, inputs, tasks, m);
    AssignFields(s, key, inputs, tasks, m);
    QueueStays(s, Handed(s, key, m));
    CompactKeeps(Handed(s, key, m), key, inputs, tasks, m, s.nextAttempt);
    NextIsNew(s);
  }

  lemma NextIsNew(s: State)
    requires Inv(s)
    ensures s.nextAttempt !in s.attempts
  {
    assert Numbered(s);
  }

  lemma QueueStays(s: State, s1: State)
    requires Inv(s) && s1.queue == s.queue && s1.sets.Keys == s.sets.Keys && s1.nextSequence == s.nextSequence
    requires forall k :: k in s.sets ==> s1.sets[k].sequence == s.sets[k].sequence && s1.sets[k].terminal == s.sets[k].terminal
    ensures QueueOK(s1)
  {
    assert QueueOK(s);
    hide Inv;
    assert forall k :: k in s1.sets ==> k in s.sets;
  }

  lemma OffersOne(s: State, key: SetKey, inputs: Option<InputSnapshot>, tasks: seq<Task>, m: nat)
    requires Wired(s) && Halfway(s, key, inputs, tasks, m) && key in s.sets && m < |s.sets[key].tasks| && W in s.workers
    ensures var s1 := Handed(s, key, m);
            && (forall k :: k in s1.queue ==> k in s1.sets) && s1.queue == s.queue && s1.sets.Keys == s.sets.Keys
            && s1.nextSequence == s.nextSequence
            && (forall k :: k in s.sets ==> s1.sets[k].sequence == s.sets[k].sequence && s1.sets[k].terminal == s.sets[k].terminal)
            && Offer(s, W, 1, [], 0).state == Compact(s1)
  {
    assert ValidOffer(s, W, 1, []);
    assert s.workers[W].reserved - Seen([]) == {};
    assert Available(s.workers[W], 1, []) == 1;
    var o := OfferState(Heartbeat(s, W, 1, [], 0), [], 1);
    OnlyOneGives(o, s.queue, key, m);
    hide OfferSets, Compact, NewAssignment, ValidOffer, Available;
  }

  // ---------------------------------------------------------------- reporting and delivery

  lemma UnderwayIsLive(s: State, key: SetKey, inputs: Option<InputSnapshot>, tasks: seq<Task>, m: nat, id: TaskAttemptID)
    requires Underway(s, key, inputs, tasks, m, id)
    ensures FifoOutcomes.Live(s, id) && s.attempts[id].assignment == TheAssignment(s, key, inputs, tasks[m], id)
    ensures Linked(s, s.attempts[id]) && s.attempts[id].key == key && s.attempts[id].index == m
  {
  }

  /** Reported and delivered, the next task's turn comes, or the set has ended. */
  lemma Delivers(s: State, s1: State, key: SetKey, inputs: Option<InputSnapshot>, tasks: seq<Task>, m: nat, id: TaskAttemptID,
                 report: TaskAttemptSuccess)
    requires Underway(s, key, inputs, tasks, m, id) && Linked(s, s.attempts[id]) && FifoOutcomes.Succeeded(s, s1, id, report)
    ensures key in s1.sets && SuccessReport(report) in s1.sets[key].reports
    ensures Drain(s1, key).sets.Keys == s.sets.Keys
    ensures if m + 1 < |tasks| then Halfway(Drain(s1, key), key, inputs, tasks, m + 1) else Idle(Drain(s1, key))
  {
    var a, t, t1 := s.attempts[id], s.sets[key], s1.sets[key];
    assert s1.workers[W].reserved == {id} - {id} == {};
    assert t1.reports[|t1.reports| - 1] == SuccessReport(report);
    SucceededSet(s, s1, key, inputs, tasks, m, id, report);
    hide FifoOutcomes.OnlyEnds;
  }

  lemma SucceededSet(s: State, s1: State, key: SetKey, inputs: Option<InputSnapshot>, tasks: seq<Task>, m: nat, id: TaskAttemptID,
                     report: TaskAttemptSuccess)
    requires Underway(s, key, inputs, tasks, m, id) && Linked(s, s.attempts[id]) && FifoOutcomes.Succeeded(s, s1, id, report)
    ensures key in s1.sets && s1.sets[key].inputs == inputs && !s1.sets[key].returned && |s1.sets[key].tasks| == |tasks|
    ensures forall i :: 0 <= i < |tasks| ==>
      s1.sets[key].tasks[i].task == tasks[i] && s1.sets[key].tasks[i].state == (if i < m + 1 then TaskSucceeded else TaskPending)
  {
  }
}
