/** The worker's side of the protocol (worker/runtime.go, protocol/validate.go) and
    how it fits the task scheduler's side: heartbeats a live worker sends are always
    accepted, its free slots never go negative, and it starts no attempt twice. */
module WorkerRuntime {
  import opened Types
  import opened FiniteSets
  import opened Fifo
  import opened FifoInvariant
  import FifoSteps
  import FifoSets
  import FifoTheorems
  import FifoRuns
  import FifoScheduler

  /** `active` are the attempts it has not seen completed, `completed` the channel of
      finished ones, `started` every attempt it ever launched. */
  datatype Worker = Worker(
    id: WorkerID, slots: nat, active: set<TaskAttemptID>, seen: set<TaskAttemptID>, completed: seq<TaskAttemptID>,
    stopped: bool, started: seq<TaskAttemptID>)

  function NewWorker(id: WorkerID, slots: nat): Worker {
    Worker(id, slots, {}, {}, [], false, [])
  }

  function FreeSlots(w: Worker): int { w.slots - |w.active| }

  /** Acknowledged attempts leave before the next capacity snapshot. */
  function DrainCompleted(w: Worker): Worker {
    w.(active := w.active - Seen(w.completed), completed := [])
  }

  // ---------------------------------------------------------------- checking a response

  datatype LogicalKey = LogicalKey(job: JobID, stage: StageID, stageAttempt: StageAttemptID, task: TaskID)

  function KeyOfTask(a: TaskAssignment): LogicalKey {
    LogicalKey(a.jobID, a.stageID, a.identity.stageAttemptID, a.identity.taskID)
  }

  /** Unicode white space. */
  predicate IsSpace(c: char) {
    var n := c as int;
    9 <= n <= 13 || n == 0x20 || n == 0x85 || n == 0xA0 || n == 0x1680 || 0x2000 <= n <= 0x200A || n == 0x2028 || n == 0x2029
    || n == 0x202F || n == 0x205F || n == 0x3000
  }

  /** Blank once surrounding space is trimmed. */
  predicate Blank(s: string) {
    forall i :: 0 <= i < |s| ==> IsSpace(s[i])
  }

  predicate ReadsShuffle(t: Task) {
    |t.operations| > 0 && t.operations[0].ShuffleRead?
  }

  predicate ValidKind(a: TaskAssignment) {
    var t := a.task;
    if t.kind == StageShuffleMap then
      t.finalAction.None? && t.shuffleWrite.Some? && a.inputs.None?
      && t.shuffleWrite.value.partitioner.hash && t.shuffleWrite.value.partitioner.numPartitions > 0
      && !Blank(t.shuffleWrite.value.aggregatorID)
    else t.shuffleWrite.None? && t.finalAction.Some? && t.finalAction.value.kind != ActionUnsupported
  }

  predicate ValidInputs(a: TaskAssignment) {
    var t := a.task;
    if !ReadsShuffle(t) then a.inputs.None?
    else
      t.kind != StageShuffleMap && a.inputs.Some? && ValidSnapshot(a.inputs.value)
      && a.inputs.value.runID == a.runID && a.inputs.value.jobID == a.jobID
      && a.inputs.value.shuffleID == t.operations[0].shuffleID && t.operations[0].partitioner.hash
      && t.operations[0].partitioner.numPartitions == a.inputs.value.numReducePartitions == t.numPartitions
      && |t.operations| >= 2 && t.operations[1].RDDOperation? && t.operations[1].operator.kind == OpReduceByKey
  }

  /** One operation of a pipeline, at its place. */
  predicate ValidOperation(t: Task, i: nat)
    requires i < |t.operations|
  {
    if i == 0 && ReadsShuffle(t) then true
    else
      && t.operations[i].RDDOperation?
      && var op := t.operations[i].operator;
         if i == 0 then op.kind == OpSource && !Blank(op.sourcePath) && op.functionID == ""
         else
           op.kind != OpSource && op.kind != OpUnsupported && !Blank(op.functionID) && op.sourcePath == ""
           && (op.kind == OpReduceByKey <==> ReadsShuffle(t) && i == 1)
  }

  predicate ValidAssignment(a: TaskAssignment) {
    var t := a.task;
    && LowerHex(a.runID, 32) && !Blank(a.workerID) && a.identity.taskID == t.id && a.stageID == t.stageID
    && t.numPartitions > 0 && 0 <= t.partitionID < t.numPartitions
    && ValidKind(a) && |t.operations| > 0 && ValidInputs(a)
    && (forall i :: 0 <= i < |t.operations| ==> ValidOperation(t, i))
    && (forall i, j :: 0 <= i < j < |t.operations| && t.operations[i].RDDOperation? && t.operations[j].RDDOperation? ==>
          t.operations[i].rddID != t.operations[j].rddID)
    && (t.kind != StageShuffleMap ==>
          t.operations[|t.operations| - 1].RDDOperation?
          && t.finalAction.value.targetRDD == t.operations[|t.operations| - 1].rddID)
  }

  /** What a worker accepts as a response to its offer. */
  predicate AcceptableResponse(w: Worker, free: int, assignments: seq<TaskAssignment>) {
    && |assignments| <= free
    && (forall i :: 0 <= i < |assignments| ==>
          && ValidAssignment(assignments[i]) && assignments[i].workerID == w.id && assignments[i].identity.id !in w.seen)
    && (forall i, j :: 0 <= i < j < |assignments| ==>
          assignments[i].identity.id != assignments[j].identity.id && KeyOfTask(assignments[i]) != KeyOfTask(assignments[j]))
  }

  function Ids(assignments: seq<TaskAssignment>): (r: seq<TaskAttemptID>)
    ensures |r| == |assignments| && forall i :: 0 <= i < |r| ==> r[i] == assignments[i].identity.id
  {
    seq(|assignments|, i requires 0 <= i < |assignments| => assignments[i].identity.id)
  }

  function Dispatch(w: Worker, assignments: seq<TaskAssignment>): Worker {
    w.(active := w.active + Seen(Ids(assignments)), seen := w.seen + Seen(Ids(assignments)), started := w.started + Ids(assignments))
  }

  /** What a worker can rely on in an assignment it accepts, field by field. */
  lemma AcceptedFields(a: TaskAssignment)
    requires ValidAssignment(a)
    ensures |a.runID| == 32 && (exists c :: c in a.workerID && !IsSpace(c))
    ensures a.task.id == a.identity.taskID && a.task.stageID == a.stageID && 0 <= a.task.partitionID < a.task.numPartitions
    ensures if a.task.kind == StageShuffleMap then
              a.task.finalAction == None && a.inputs == None && a.task.shuffleWrite.Some?
              && a.task.shuffleWrite.value.partitioner == PartitionerSpec(true, a.task.shuffleWrite.value.partitioner.numPartitions)
              && a.task.shuffleWrite.value.partitioner.numPartitions > 0
              && (exists c :: c in a.task.shuffleWrite.value.aggregatorID && !IsSpace(c))
            else
              a.task.shuffleWrite == None && a.task.finalAction.Some? && a.task.finalAction.value.kind in {ActionCollect, ActionCount}
              && LastOperation(a.task, a.task.finalAction.value.targetRDD)
    ensures |a.task.operations| > 0
    ensures a.task.operations[0].RDDOperation? ==>
              a.inputs == None && a.task.operations[0].operator.kind == OpSource
              && (exists c :: c in a.task.operations[0].operator.sourcePath && !IsSpace(c)) && |a.task.operations[0].operator.functionID| == 0
    ensures a.task.operations[0].ShuffleRead? ==>
              a.task.kind == StageResult && |a.task.operations| > 1 && a.inputs.Some? && ValidSnapshot(a.inputs.value)
              && ReadsAs(a.inputs.value, a.runID, a.jobID, a.task)
    ensures forall i :: 1 <= i < |a.task.operations| ==> LaterOperation(a.task, i)
    ensures forall i, j :: 0 <= i < j < |a.task.operations| && a.task.operations[i].RDDOperation? && a.task.operations[j].RDDOperation? ==>
              a.task.operations[i].rddID != a.task.operations[j].rddID
  {
    hide ValidSnapshot, IsSpace;
    NotBlank(a.workerID);
    if a.task.kind == StageShuffleMap { NotBlank(a.task.shuffleWrite.value.aggregatorID); }
    if a.task.operations[0].RDDOperation? {
      assert ValidOperation(a.task, 0);
      NotBlank(a.task.operations[0].operator.sourcePath);
    }
    forall i | 1 <= i < |a.task.operations| ensures LaterOperation(a.task, i) {
      assert ValidOperation(a.task, i);
      NotBlank(a.task.operations[i].operator.functionID);
    }
  }

  lemma NotBlank(s: string)
    ensures !Blank(s) <==> exists c :: c in s && !IsSpace(c)
  {
    hide IsSpace;
    if !Blank(s) {
      var i :| 0 <= i < |s| && !IsSpace(s[i]);
      assert s[i] in s;
    }
  }

  /** The pipeline ends with the RDD of that number. */
  predicate LastOperation(t: Task, id: RDDID) {
    |t.operations| > 0 && t.operations[|t.operations| - 1].RDDOperation? && t.operations[|t.operations| - 1].rddID == id
  }

  /** The snapshot is of this run and job and of the shuffle the task reads, as wide as the task. */
  predicate ReadsAs(s: InputSnapshot, runID: string, job: JobID, t: Task) {
    |t.operations| > 0 && t.operations[0].ShuffleRead? && s.runID == runID && s.jobID == job && s.shuffleID == t.operations[0].shuffleID
    && t.operations[0].partitioner == PartitionerSpec(true, t.numPartitions) && s.numReducePartitions == t.numPartitions
  }

  /** An operation past the first names its function, and reduces only right after reading a shuffle. */
  ghost predicate LaterOperation(t: Task, i: nat)
    requires i < |t.operations|
  {
    t.operations[i].RDDOperation?
    && var op := t.operations[i].operator;
       && |op.sourcePath| == 0 && (exists c :: c in op.functionID && !IsSpace(c))
       && if i == 1 && t.operations[0].ShuffleRead? then op.kind == OpReduceByKey
          else op.kind in {OpMap, OpFilter, OpMapToPair, OpMapValues}
  }

  /** White space is what Unicode says it is, among ASCII only space and the five controls. */
  lemma SpacesExactly(c: char)
    ensures c <= '\U{7F}' ==> (IsSpace(c) <==> c in " \t\n\r" || c == '\U{0B}' || c == '\U{0C}')
    ensures c > '\U{7F}' ==> (IsSpace(c) <==>
              || c in {'\U{85}', '\U{A0}', '\U{1680}', '\U{2028}', '\U{2029}', '\U{202F}', '\U{205F}', '\U{3000}'}
              || '\U{2000}' <= c <= '\U{200A}')
  {
    var ascii := " \t\n\r";
    assert ascii[0] == ' ' && ascii[1] == '\t' && ascii[2] == '\n' && ascii[3] == '\r';
  }

  /** Two assignments are for the same logical task exactly when job, stage, stage attempt and task agree. */
  lemma KeysExactly(a: TaskAssignment, b: TaskAssignment)
    ensures KeyOfTask(a) == KeyOfTask(b) <==>
            a.jobID == b.jobID && a.stageID == b.stageID && a.identity == b.identity.(id := a.identity.id)
  {
  }

  /** Draining gives back just the completed attempts' slots; dispatching takes one for
      every assignment, none of which is then running or has been seen before. */
  lemma SlotsExactly(w: Worker, assignments: seq<TaskAssignment>)
    requires AcceptableResponse(w, FreeSlots(w), assignments) && w.active <= w.seen
    ensures var w1, w2 := DrainCompleted(w), Dispatch(w, assignments);
            && w1.active == (set id | id in w.active && id !in w.completed) && w1.completed == []
            && w1 == w.(active := w1.active, completed := []) && FreeSlots(w1) == w.slots - |w1.active|
            && w2 == w.(active := w2.active, seen := w2.seen, started := w2.started)
            && w2.active == w.active + (set a | a in assignments :: a.identity.id)
            && w2.seen == w.seen + (set a | a in assignments :: a.identity.id)
            && w2.started == w.started + Ids(assignments) && FreeSlots(w2) == FreeSlots(w) - |assignments| >= 0
  {
    hide *;
    DrainsExactly(w);
    ResponseIds(w, assignments);
    IdsAre(assignments);
    DispatchesExactly(w, assignments);
  }

  lemma DrainsExactly(w: Worker)
    ensures var w1 := DrainCompleted(w);
            && w1.active == (set id | id in w.active && id !in w.completed) && w1.completed == []
            && w1 == w.(active := w1.active, completed := []) && FreeSlots(w1) == w.slots - |w1.active|
  {
  }

  lemma ResponseIds(w: Worker, assignments: seq<TaskAssignment>)
    requires AcceptableResponse(w, FreeSlots(w), assignments) && w.active <= w.seen
    ensures NoRepeats(Ids(assignments)) && |assignments| <= FreeSlots(w) && forall id :: id in Ids(assignments) ==> id !in w.active
  {
    hide ValidAssignment, KeyOfTask;
  }

  lemma IdsAre(assignments: seq<TaskAssignment>)
    ensures Seen(Ids(assignments)) == set a | a in assignments :: a.identity.id
  {
    var ids := Ids(assignments);
    forall id | id in ids ensures exists a :: a in assignments && a.identity.id == id {
      var i :| 0 <= i < |ids| && ids[i] == id;
      assert assignments[i] in assignments;
    }
    forall a | a in assignments ensures a.identity.id in ids {
      var i :| 0 <= i < |assignments| && assignments[i] == a;
      assert ids[i] == a.identity.id;
    }
  }

  lemma DispatchesExactly(w: Worker, assignments: seq<TaskAssignment>)
    requires NoRepeats(Ids(assignments)) && |assignments| <= FreeSlots(w) && forall id :: id in Ids(assignments) ==> id !in w.active
    ensures var w2 := Dispatch(w, assignments);
            && w2 == w.(active := w2.active, seen := w2.seen, started := w2.started)
            && w2.active == w.active + Seen(Ids(assignments)) && w2.seen == w.seen + Seen(Ids(assignments))
            && w2.started == w.started + Ids(assignments) && FreeSlots(w2) == FreeSlots(w) - |assignments| >= 0
  {
    DistinctSize(Ids(assignments));
    assert |w.active + Seen(Ids(assignments))| == |w.active| + |Seen(Ids(assignments))|;
  }

  // ---------------------------------------------------------------- both sides together

  datatype Pair = Pair(fifo: Fifo.State, worker: Worker)

  /** A poll whose response may be lost on the way, any progress of the worker's
      tasks, and anything at all on the scheduler's side. */
  datatype Event =
    | Poll(now: int, lost: bool)
    | Complete(id: TaskAttemptID)
    | Scheduler(e: Fifo.Event)

  ghost function HeartbeatOffer(p: Pair, now: int): Outcome<seq<TaskAssignment>>
    requires Wired(p.fifo)
  {
    var w := DrainCompleted(p.worker);
    Offer(p.fifo, w.id, FreeSlots(w), SortedIds(w.active), now)
  }

  ghost function Step(p: Pair, e: Event): Pair
    requires Wired(p.fifo)
  {
    match e
    case Poll(now, lost) =>
      if p.worker.stopped then p
      else
        var w, o := DrainCompleted(p.worker), HeartbeatOffer(p, now);
        if lost || o.reply.Refused? || !AcceptableResponse(w, FreeSlots(w), o.reply.value) then Pair(o.state, w.(stopped := true))
        else Pair(o.state, Dispatch(w, o.reply.value))
    case Complete(id) =>
      if id in p.worker.active && id !in p.worker.completed then
        p.(worker := p.worker.(completed := p.worker.completed + [id]))
      else p
    case Scheduler(f) => p.(fifo := Fifo.Step(p.fifo, f))
  }

  predicate NoRepeats(ids: seq<TaskAttemptID>) {
    forall i, j :: 0 <= i < j < |ids| ==> ids[i] != ids[j]
  }

  /** What ties the two sides: the worker's attempts are its own and fit its slots. */
  ghost predicate Fits(p: Pair) {
    var w := p.worker;
    && Inv(p.fifo) && Wired(p.fifo)
    && w.id in p.fifo.workers && p.fifo.workers[w.id].totalSlots == w.slots
    && |w.active| <= w.slots && w.active <= w.seen && Seen(w.started) == w.seen && NoRepeats(w.started)
    && (forall id :: id in w.seen ==> id in p.fifo.attempts && p.fifo.attempts[id].assignment.workerID == w.id)
  }

  lemma {:induction false} SortedIdsSize(ids: set<TaskAttemptID>)
    ensures |SortedIds(ids)| == |ids|
  {
    var s := SortedIds(ids);
    assert ids == Seen(s);
    DistinctSize(s);
  }

  lemma {:induction false} DistinctSize(s: seq<TaskAttemptID>)
    requires NoRepeats(s)
    ensures |Seen(s)| == |s|
  {
    if s != [] {
      var init := s[..|s| - 1];
      DistinctSize(init);
      assert s == init + [s[|s| - 1]];
      assert Seen(s) == Seen(init) + {s[|s| - 1]};
    }
  }

  /** A live worker's heartbeat is never refused by an open scheduler. */
  lemma HeartbeatAccepted(p: Pair, now: int)
    requires Fits(p) && !p.fifo.closed && p.fifo.workers[p.worker.id].status == WorkerAlive
    ensures HeartbeatOffer(p, now).reply.Granted?
    ensures 0 <= FreeSlots(DrainCompleted(p.worker)) <= p.worker.slots
  {
    hide Inv, Wired, ValidOffer;
    var w := DrainCompleted(p.worker);
    SubsetSize(w.active, p.worker.active);
    SortedIdsSize(w.active);
    var running := SortedIds(w.active);
    assert forall i :: 0 <= i < |running| ==> running[i] in w.active && running[i] in w.seen;
    OfferChecks(p.fifo, w.id, FreeSlots(w), running);
  }

  lemma OfferChecks(s: Fifo.State, id: WorkerID, free: int, running: seq<TaskAttemptID>)
    requires id in s.workers && 0 <= free && |running| + free == s.workers[id].totalSlots
    requires forall i :: 0 <= i < |running| ==> running[i] in s.attempts && s.attempts[running[i]].assignment.workerID == id
    requires forall i, j :: 0 <= i < j < |running| ==> running[i] < running[j]
    ensures ValidOffer(s, id, free, running)
  {
  }

  lemma {:induction false} BatchFacts(s: Fifo.State, slots: seq<FifoTheorems.Slot>, first: TaskAttemptID, w: WorkerID)
    requires forall slot :: slot in slots ==> FifoTheorems.Names(s, slot)
    ensures var b := FifoTheorems.Batch(s, slots, first, w);
            |b| == |slots| && forall i :: 0 <= i < |b| ==>
              b[i].identity.id == first + i && b[i].workerID == w && b[i] == FifoTheorems.AssignmentFor(s, slots[i], first + i, w)
  {
    if slots != [] { BatchFacts(s, slots[1..], first + 1, w); }
  }

  /** What the scheduler grants fits the worker: no more than its free slots, for it,
      and only attempts it has never seen. */
  lemma ResponseFits(p: Pair, now: int)
    requires Fits(p) && HeartbeatOffer(p, now).reply.Granted?
    ensures var w, a := DrainCompleted(p.worker), HeartbeatOffer(p, now).reply.value;
            && (|a| > 0 ==> |a| <= FreeSlots(w))
            && (forall i :: 0 <= i < |a| ==> a[i].workerID == w.id && a[i].identity.id !in w.seen)
            && (forall i :: 0 <= i < |a| ==> a[i].identity.id == p.fifo.nextAttempt + i)
            && (forall i, j :: 0 <= i < j < |a| ==> KeyOfTask(a[i]) != KeyOfTask(a[j]))
            && (forall i :: 0 <= i < |a| ==>
                  a[i].identity.id in HeartbeatOffer(p, now).state.attempts
                  && HeartbeatOffer(p, now).state.attempts[a[i].identity.id].assignment.workerID == w.id)
  {
    hide *;
    FitsScheduler(p);
    HeartbeatIsOffer(p, now);
    var w := DrainCompleted(p.worker);
    var free, running := FreeSlots(w), SortedIds(w.active);
    GrantedBatch(p.fifo, w.id, free, running, now);
    GrantedAreRecorded(p.fifo, w.id, free, running, now);
    forall id | id in w.seen ensures id < p.fifo.nextAttempt { SeenAreOld(p, id); }
  }

  lemma HeartbeatIsOffer(p: Pair, now: int)
    requires Wired(p.fifo)
    ensures var w := DrainCompleted(p.worker);
            && w.id == p.worker.id && w.seen == p.worker.seen
            && HeartbeatOffer(p, now) == Offer(p.fifo, w.id, FreeSlots(w), SortedIds(w.active), now)
  {
    hide Wired, Offer;
  }

  /** So a worker accepts the response exactly when each assignment is valid in itself. */
  lemma ResponseAccepted(p: Pair, now: int)
    requires Fits(p) && HeartbeatOffer(p, now).reply.Granted?
    ensures var w, a := DrainCompleted(p.worker), HeartbeatOffer(p, now).reply.value;
            AcceptableResponse(w, FreeSlots(w), a) <==> forall i :: 0 <= i < |a| ==> ValidAssignment(a[i])
  {
    hide *;
    FitsScheduler(p);
    ResponseFits(p, now);
    DrainedFits(p);
    ResponseChecks(DrainCompleted(p.worker), HeartbeatOffer(p, now).reply.value, p.fifo.nextAttempt);
  }

  lemma DrainedFits(p: Pair)
    requires Fits(p)
    ensures FreeSlots(DrainCompleted(p.worker)) >= 0
  {
    hide Inv, Wired;
    SubsetSize(DrainCompleted(p.worker).active, p.worker.active);
  }

  lemma ResponseChecks(w: Worker, a: seq<TaskAssignment>, first: TaskAttemptID)
    requires FreeSlots(w) >= 0 && (|a| > 0 ==> |a| <= FreeSlots(w))
    requires forall i :: 0 <= i < |a| ==> a[i].workerID == w.id && a[i].identity.id !in w.seen
    requires forall i :: 0 <= i < |a| ==> a[i].identity.id == first + i
    requires forall i, j :: 0 <= i < j < |a| ==> KeyOfTask(a[i]) != KeyOfTask(a[j])
    ensures AcceptableResponse(w, FreeSlots(w), a) <==> forall i :: 0 <= i < |a| ==> ValidAssignment(a[i])
  {
    hide ValidAssignment, KeyOfTask;
  }

  lemma SeenAreOld(p: Pair, id: TaskAttemptID)
    requires Fits(p) && id in p.worker.seen
    ensures id < p.fifo.nextAttempt
  {
    assert Numbered(p.fifo);
  }

  lemma GrantedBatch(s: Fifo.State, w: WorkerID, free: int, running: seq<TaskAttemptID>, now: int)
    requires Inv(s) && Wired(s) && Offer(s, w, free, running, now).reply.Granted?
    ensures var a := Offer(s, w, free, running, now).reply.value;
            && (|a| > 0 ==> |a| <= free)
            && (forall i :: 0 <= i < |a| ==> a[i].workerID == w && a[i].identity.id == s.nextAttempt + i)
            && (forall i, j :: 0 <= i < j < |a| ==> KeyOfTask(a[i]) != KeyOfTask(a[j]))
  {
    hide *;
    FifoTheorems.PendingListIsFifoOrder(s);
    GrantedWorker(s, w, free, running, now);
    var pending := FifoTheorems.PendingIn(s, s.queue);
    var k := FifoTheorems.Count(Available(s.workers[w], free, running), |pending|);
    CountBounds(s.workers[w], free, running, |pending|);
    FifoTheorems.OfferIsFifo(s, w, free, running, now, pending, k);
    BatchFacts(s, pending[..k], s.nextAttempt, w);
    DifferentPending(s, pending[..k], s.nextAttempt, w);
  }

  lemma GrantedWorker(s: Fifo.State, w: WorkerID, free: int, running: seq<TaskAttemptID>, now: int)
    requires Wired(s) && Offer(s, w, free, running, now).reply.Granted?
    ensures w in s.workers
  {
  }

  lemma CountBounds(worker: Fifo.WorkerState, free: int, running: seq<TaskAttemptID>, n: nat)
    ensures var k := FifoTheorems.Count(Available(worker, free, running), n);
            0 <= k <= n && (k > 0 ==> k <= free)
  {
  }

  /** No two assignments of a batch over different pending tasks name the same logical task. */
  lemma DifferentPending(s: Fifo.State, slots: seq<FifoTheorems.Slot>, first: TaskAttemptID, w: WorkerID)
    requires Inv(s) && forall slot :: slot in slots ==> FifoTheorems.Names(s, slot)
    requires forall i, j :: 0 <= i < j < |slots| ==>
      FifoTheorems.Names(s, slots[i]) && FifoTheorems.Names(s, slots[j]) && FifoTheorems.Before(s, slots[i], slots[j])
    ensures var a := FifoTheorems.Batch(s, slots, first, w);
            |a| == |slots| && forall i, j :: 0 <= i < j < |a| ==> KeyOfTask(a[i]) != KeyOfTask(a[j])
  {
    hide *;
    BatchFacts(s, slots, first, w);
    var a := FifoTheorems.Batch(s, slots, first, w);
    forall i, j | 0 <= i < j < |a| ensures KeyOfTask(a[i]) != KeyOfTask(a[j]) {
      DifferentTasks(s, slots[i], slots[j], first + i, first + j, w);
    }
  }

  /** Different pending tasks are different logical tasks. */
  lemma DifferentTasks(s: Fifo.State, x: FifoTheorems.Slot, y: FifoTheorems.Slot, i: TaskAttemptID, j: TaskAttemptID, w: WorkerID)
    requires Inv(s) && FifoTheorems.Names(s, x) && FifoTheorems.Names(s, y) && FifoTheorems.Before(s, x, y)
    ensures KeyOfTask(FifoTheorems.AssignmentFor(s, x, i, w)) != KeyOfTask(FifoTheorems.AssignmentFor(s, y, j, w))
  {
    if x.key == y.key { DistinctTaskIDs(s, x.key, x.index, y.index); }
    hide Inv;
  }

  lemma DistinctTaskIDs(s: Fifo.State, key: SetKey, i: nat, j: nat)
    requires Inv(s) && key in s.sets && i < |s.sets[key].tasks| && j < |s.sets[key].tasks|
    ensures s.sets[key].tasks[i].task.id == s.sets[key].tasks[j].task.id ==> i == j
  {
    assert FifoSets.SetInv(s.sets[key], s.maxTaskAttempts);
    assert FifoSets.TasksOK(s.sets[key], s.maxTaskAttempts);
  }

  lemma GrantedAreRecorded(s: Fifo.State, w: WorkerID, free: int, running: seq<TaskAttemptID>, now: int)
    requires Inv(s) && Wired(s) && Offer(s, w, free, running, now).reply.Granted?
    ensures var o := Offer(s, w, free, running, now);
            forall i :: 0 <= i < |o.reply.value| ==>
              o.reply.value[i].identity.id in o.state.attempts
              && o.state.attempts[o.reply.value[i].identity.id].assignment == o.reply.value[i]
  {
    hide Inv, OfferSets, Available, ValidOffer;
    OfferSetsRecord(OfferState(Heartbeat(s, w, free, running, now), [], Available(s.workers[w], free, running)), w, s.queue);
  }

  ghost predicate Recorded(o: OfferState) {
    && (forall i :: 0 <= i < |o.assignments| ==>
          o.assignments[i].identity.id < o.state.nextAttempt && o.assignments[i].identity.id in o.state.attempts
          && o.state.attempts[o.assignments[i].identity.id].assignment == o.assignments[i])
  }

  lemma {:induction false} OfferTasksRecord(o: OfferState, id: WorkerID, key: SetKey, i: nat)
    requires key in o.state.sets && i <= |o.state.sets[key].tasks| && id in o.state.workers && Recorded(o)
    ensures Recorded(OfferTasks(o, id, key, i))
    decreases |o.state.sets[key].tasks| - i
  {
    if i < |o.state.sets[key].tasks| && o.available > 0 {
      if o.state.sets[key].tasks[i].state != TaskPending {
        OfferTasksRecord(o, id, key, i + 1);
      } else {
        var o1 := OfferState(Assign(o.state, key, i, id), o.assignments + [NewAssignment(o.state, key, i, id)], o.available - 1);
        assert Recorded(o1);
        OfferTasksRecord(o1, id, key, i + 1);
      }
    }
  }

  lemma {:induction false} OfferSetsRecord(o: OfferState, id: WorkerID, keys: seq<SetKey>)
    requires id in o.state.workers && (forall key :: key in keys ==> key in o.state.sets) && Recorded(o)
    ensures Recorded(OfferSets(o, id, keys))
    decreases |keys|
  {
    if keys != [] {
      var t := o.state.sets[keys[0]];
      if !t.terminal && !t.cancelled { OfferTasksRecord(o, id, keys[0], 0); }
      OfferSetsRecord(OfferSet(o, id, keys[0]), id, keys[1..]);
    }
  }

  // ---------------------------------------------------------------- every step

  lemma SchedulerKeepsFits(p: Pair, s1: Fifo.State)
    requires Fits(p) && FifoSteps.Evolves(p.fifo, s1) && Inv(s1) && Wired(s1)
    ensures Fits(Pair(s1, p.worker))
  {
    var w := p.worker;
    assert FifoSteps.WorkerStep(p.fifo.workers[w.id], s1.workers[w.id]);
    forall id | id in w.seen ensures id in s1.attempts && s1.attempts[id].assignment.workerID == w.id {
      assert FifoSteps.AttemptStep(p.fifo.attempts[id], s1.attempts[id]);
    }
  }

  lemma DrainKeepsFits(p: Pair)
    requires Fits(p)
    ensures Fits(p.(worker := DrainCompleted(p.worker)))
  {
    SubsetSize(DrainCompleted(p.worker).active, p.worker.active);
  }

  lemma SeenJoin(a: seq<TaskAttemptID>, b: seq<TaskAttemptID>)
    ensures Seen(a + b) == Seen(a) + Seen(b)
  {
  }

  /** Dispatching an acceptable response keeps within the slots and starts only new attempts. */
  lemma DispatchFits(w: Worker, a: seq<TaskAssignment>)
    requires |w.active| <= w.slots && w.active <= w.seen && Seen(w.started) == w.seen && NoRepeats(w.started)
    requires AcceptableResponse(w, FreeSlots(w), a)
    ensures var w1 := Dispatch(w, a);
            |w1.active| <= w1.slots && w1.active <= w1.seen && Seen(w1.started) == w1.seen && NoRepeats(w1.started)
  {
    hide *;
    var ids := Ids(a);
    NewIds(w, a);
    SeenJoin(w.started, ids);
    DistinctSize(ids);
    NoRepeatsJoin(w.started, ids);
    WithinSlots(w, Seen(ids));
    Dispatched(w, a);
  }

  lemma NewIds(w: Worker, a: seq<TaskAssignment>)
    requires AcceptableResponse(w, FreeSlots(w), a)
    ensures NoRepeats(Ids(a)) && |Ids(a)| <= FreeSlots(w) && Seen(Ids(a)) !! w.seen
  {
    hide ValidAssignment, KeyOfTask;
    var ids := Ids(a);
    forall id | id in Seen(ids) ensures id !in w.seen {
      var i :| 0 <= i < |ids| && ids[i] == id;
    }
  }

  lemma NoRepeatsJoin(a: seq<TaskAttemptID>, b: seq<TaskAttemptID>)
    requires NoRepeats(a) && NoRepeats(b) && Seen(a) !! Seen(b)
    ensures NoRepeats(a + b)
  {
    var s := a + b;
    forall i, j | 0 <= i < j < |s| ensures s[i] != s[j] {
      if i < |a| <= j { assert s[i] in Seen(a) && s[j] in Seen(b); }
    }
  }

  lemma WithinSlots(w: Worker, more: set<TaskAttemptID>)
    requires w.active <= w.seen && more !! w.seen && |more| <= FreeSlots(w)
    ensures |w.active + more| <= w.slots
  {
    assert w.active !! more;
    assert |w.active + more| == |w.active| + |more|;
  }

  lemma Dispatched(w: Worker, a: seq<TaskAssignment>)
    ensures var w1, ids := Dispatch(w, a), Ids(a);
            && w1.slots == w.slots && w1.active == w.active + Seen(ids) && w1.seen == w.seen + Seen(ids)
            && w1.started == w.started + ids
  {
  }

  /** Every step keeps both sides in agreement. */
  lemma StepFits(p: Pair, e: Event)
    requires Fits(p)
    ensures Fits(Step(p, e))
  {
    hide *;
    FitsScheduler(p);
    match e
    case Complete(id) => CompleteFits(p, id);
    case Scheduler(f) => SchedulerFits(p, f);
    case Poll(now, lost) =>
      if p.worker.stopped { StoppedStays(p, now, lost); } else { PollFits(p, now, lost); }
  }

  lemma StoppedStays(p: Pair, now: int, lost: bool)
    requires Wired(p.fifo) && p.worker.stopped
    ensures Step(p, Poll(now, lost)) == p
  {
    hide Wired;
  }

  lemma CompleteFits(p: Pair, id: TaskAttemptID)
    requires Fits(p)
    ensures Fits(Step(p, Complete(id)))
  {
    hide Inv, Wired;
  }

  lemma SchedulerFits(p: Pair, f: Fifo.Event)
    requires Fits(p)
    ensures Fits(Step(p, Scheduler(f)))
  {
    hide *;
    FitsScheduler(p);
    FifoSteps.StepInv(p.fifo, f);
    SchedulerKeepsFits(p, Fifo.Step(p.fifo, f));
    SchedulerStep(p, f);
  }

  lemma SchedulerStep(p: Pair, f: Fifo.Event)
    requires Wired(p.fifo)
    ensures Step(p, Scheduler(f)) == Pair(Fifo.Step(p.fifo, f), p.worker)
  {
    hide Wired, Fifo.Step;
  }

  lemma PollFits(p: Pair, now: int, lost: bool)
    requires Fits(p) && !p.worker.stopped
    ensures Fits(Step(p, Poll(now, lost)))
  {
    assert Wired(p.fifo);
    PollCases(p, now, lost);
    hide *;
    var w, o := DrainCompleted(p.worker), HeartbeatOffer(p, now);
    OfferKeepsFits(p, now);
    if Step(p, Poll(now, lost)) == Pair(o.state, w.(stopped := true)) {
      StoppedFits(Pair(o.state, w));
    } else {
      ResponseFits(p, now);
      FitsWorker(Pair(o.state, w));
      DispatchFits(w, o.reply.value);
      DispatchOwned(Pair(o.state, w), o.reply.value);
    }
  }

  lemma PollCases(p: Pair, now: int, lost: bool)
    requires Wired(p.fifo) && !p.worker.stopped
    ensures DrainCompleted(p.worker).id == p.worker.id
    ensures var w, o, p1 := DrainCompleted(p.worker), HeartbeatOffer(p, now), Step(p, Poll(now, lost));
            || p1 == Pair(o.state, w.(stopped := true))
            || (o.reply.Granted? && AcceptableResponse(w, FreeSlots(w), o.reply.value)
                && p1 == Pair(o.state, Dispatch(w, o.reply.value)))
  {
    hide Wired, HeartbeatOffer, AcceptableResponse, Dispatch;
  }

  lemma StoppedFits(p: Pair)
    requires Fits(p)
    ensures Fits(p.(worker := p.worker.(stopped := true)))
  {
    hide Inv, Wired;
  }

  lemma FitsWorker(p: Pair)
    requires Fits(p)
    ensures var w := p.worker; |w.active| <= w.slots && w.active <= w.seen && Seen(w.started) == w.seen && NoRepeats(w.started)
  {
    hide Inv, Wired;
  }

  lemma OfferKeepsFits(p: Pair, now: int)
    requires Fits(p)
    ensures Fits(Pair(HeartbeatOffer(p, now).state, DrainCompleted(p.worker)))
  {
    hide Inv, Wired, FifoSteps.Evolves, Fits, Offer, Fifo.Step;
    FitsScheduler(p);
    var w := DrainCompleted(p.worker);
    var f := OfferEvent(w.id, FreeSlots(w), SortedIds(w.active), now);
    FifoSteps.StepInv(p.fifo, f);
    OfferStep(p.fifo, w.id, FreeSlots(w), SortedIds(w.active), now);
    DrainKeepsFits(p);
    SchedulerKeepsFits(p.(worker := w), Fifo.Step(p.fifo, f));
  }

  lemma OfferStep(s: Fifo.State, id: WorkerID, free: int, running: seq<TaskAttemptID>, now: int)
    requires Wired(s)
    ensures Fifo.Step(s, OfferEvent(id, free, running, now)) == Offer(s, id, free, running, now).state
  {
  }

  lemma FitsScheduler(p: Pair)
    requires Fits(p)
    ensures Inv(p.fifo) && Wired(p.fifo)
  {
    hide Inv, Wired;
  }

  lemma DispatchOwned(p: Pair, a: seq<TaskAssignment>)
    requires Fits(p)
    requires forall i :: 0 <= i < |a| ==>
      a[i].identity.id in p.fifo.attempts && p.fifo.attempts[a[i].identity.id].assignment.workerID == p.worker.id
    requires var w1 := Dispatch(p.worker, a);
             |w1.active| <= w1.slots && w1.active <= w1.seen && Seen(w1.started) == w1.seen && NoRepeats(w1.started)
    ensures Fits(p.(worker := Dispatch(p.worker, a)))
  {
    hide Inv, Wired;
  }

  ghost function Run(p: Pair, events: seq<Event>): (r: Pair)
    requires Fits(p)
    ensures Fits(r)
    decreases |events|
  {
    if events == [] then p
    else
      StepFits(p, events[0]);
      Run(Step(p, events[0]), events[1..])
  }

  /** A registered worker starts in agreement with the scheduler. */
  lemma RegisteredFits(s: Fifo.State, id: WorkerID, slots: nat, now: int)
    requires Inv(s) && Wired(s) && Register(s, id, slots, now).reply.Granted?
    ensures Fits(Pair(Register(s, id, slots, now).state, NewWorker(id, slots)))
  {
    FifoSteps.StepInv(s, RegisterEvent(id, slots, now));
    hide Inv, Wired;
  }

  /** In any run of a registered worker, whatever the scheduler does besides and
      whatever responses are lost: while the scheduler is open and has not given the
      worker up, its next heartbeat is accepted; its free slots are between zero and
      its slots; it has started no attempt twice. */
  lemma HonestWorkerRuns(p0: Pair, events: seq<Event>, now: int)
    requires Fits(p0)
    ensures var p := Run(p0, events);
            && 0 <= FreeSlots(p.worker) <= p.worker.slots && NoRepeats(p.worker.started)
            && p.worker.id in p.fifo.workers && Wired(p.fifo)
            && (!p.fifo.closed && p.fifo.workers[p.worker.id].status == WorkerAlive ==> HeartbeatOffer(p, now).reply.Granted?)
  {
    var p := Run(p0, events);
    assert Fits(p);
    if !p.fifo.closed && p.fifo.workers[p.worker.id].status == WorkerAlive { HeartbeatAccepted(p, now); }
  }

  // ---------------------------------------------------------------- the worker's loops

  class Runtime {
    const id: WorkerID
    const slots: nat
    var active: map<TaskAttemptID, TaskAssignment>
    var seen: set<TaskAttemptID>
    var completed: seq<TaskAttemptID>
    ghost var started: seq<TaskAttemptID>

    ghost function Abs(): Worker
      reads this
    {
      Worker(id, slots, active.Keys, seen, completed, false, started)
    }

    constructor (id: WorkerID, slots: nat)
      ensures Abs() == NewWorker(id, slots)
    {
      this.id, this.slots := id, slots;
      active, seen, completed, started := map[], {}, [], [];
    }

    method Drain()
      modifies this`active, this`completed
      ensures Abs() == DrainCompleted(old(Abs()))
    {
      ghost var before := Abs();
      while completed != []
        invariant Abs() == before.(active := active.Keys, completed := completed)
        invariant active.Keys - Seen(completed) == before.active - Seen(before.completed)
        decreases |completed|
      {
        assert completed == [completed[0]] + completed[1..];
        active := active - {completed[0]};
        completed := completed[1..];
      }
    }

    /** The free slots and the running attempts in ascending order. */
    method ResourceOffer() returns (free: int, running: seq<TaskAttemptID>)
      ensures free == FreeSlots(Abs()) && running == SortedIds(Abs().active)
    {
      free := slots - |active|;
      assert |active| == |active.Keys|;
      var found: seq<TaskAttemptID> := [];
      var todo := active.Keys;
      while todo != {}
        invariant todo <= active.Keys && forall id :: id in found <==> id in active.Keys - todo
        decreases |todo|
      {
        var id :| id in todo;
        todo := todo - {id};
        found := found + [id];
      }
      running := SortNats(found);
      FifoScheduler.SortNatsIsSortedIds(found, active.Keys);
    }

    method ValidateAssignments(free: int, assignments: seq<TaskAssignment>) returns (ok: bool)
      ensures ok == AcceptableResponse(Abs(), free, assignments)
    {
      var attempts: set<TaskAttemptID>, tasks: set<LogicalKey> := {}, {};
      var i := 0;
      while i < |assignments|
        invariant 0 <= i <= |assignments|
        invariant attempts == set k | 0 <= k < i :: assignments[k].identity.id
        invariant tasks == set k | 0 <= k < i :: KeyOfTask(assignments[k])
        invariant forall k :: 0 <= k < i ==> ValidAssignment(assignments[k]) && assignments[k].workerID == assignments[0].workerID
        invariant forall j, k :: 0 <= j < k < i ==>
          assignments[j].identity.id != assignments[k].identity.id && KeyOfTask(assignments[j]) != KeyOfTask(assignments[k])
      {
        var a := assignments[i];
        if !ValidAssignment(a) || a.workerID != assignments[0].workerID || a.identity.id in attempts || KeyOfTask(a) in tasks {
          return false;
        }
        attempts, tasks := attempts + {a.identity.id}, tasks + {KeyOfTask(a)};
        i := i + 1;
      }
      if |assignments| > free { return false; }
      i := 0;
      while i < |assignments|
        invariant 0 <= i <= |assignments|
        invariant forall k :: 0 <= k < i ==> assignments[k].workerID == id && assignments[k].identity.id !in seen
      {
        if assignments[i].workerID != id || assignments[i].identity.id in seen { return false; }
        i := i + 1;
      }
      ok := true;
    }

    /** Reserves every attempt before any of them starts. */
    method DispatchAll(assignments: seq<TaskAssignment>)
      modifies this`active, this`seen, this`started
      ensures Abs() == Dispatch(old(Abs()), assignments)
    {
      ghost var before := Abs();
      assert Ids(assignments)[..0] == [];
      var i := 0;
      while i < |assignments|
        invariant 0 <= i <= |assignments|
        invariant Abs() == Worker(id, slots, before.active + Seen(Ids(assignments)[..i]), before.seen + Seen(Ids(assignments)[..i]),
                                  before.completed, false, before.started + Ids(assignments)[..i])
      {
        var attempt := assignments[i].identity.id;
        assert Ids(assignments)[..i + 1] == Ids(assignments)[..i] + [attempt];
        active := active[attempt := assignments[i]];
        seen := seen + {attempt};
        started := started + [attempt];
        i := i + 1;
      }
      assert Ids(assignments)[..i] == Ids(assignments);
    }
  }
}
