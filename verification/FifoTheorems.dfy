/** What the FIFO scheduler promises, over single offers and over whole runs. */
module FifoTheorems {
  import opened Types
  import opened Ordering
  import opened Fifo
  import opened FifoSets
  import opened FifoInvariant
  import opened FifoSteps

  // ---------------------------------------------------------------- FIFO order

  /** Task `index` of the set `key`. */
  datatype Slot = Slot(key: SetKey, index: nat)

  function PendingFrom(t: FifoTaskSet, key: SetKey, i: nat): seq<Slot>
    requires i <= |t.tasks|
    decreases |t.tasks| - i
  {
    if i == |t.tasks| then []
    else (if t.tasks[i].state == TaskPending then [Slot(key, i)] else []) + PendingFrom(t, key, i + 1)
  }

  function PendingOf(t: FifoTaskSet, key: SetKey): seq<Slot> {
    if t.terminal || t.cancelled then [] else PendingFrom(t, key, 0)
  }

  /** The pending tasks of the live, uncancelled sets, oldest set first. */
  function PendingIn(s: State, keys: seq<SetKey>): seq<Slot>
    requires forall key :: key in keys ==> key in s.sets
  {
    if keys == [] then [] else PendingOf(s.sets[keys[0]], keys[0]) + PendingIn(s, keys[1..])
  }

  predicate Names(s: State, slot: Slot) {
    slot.key in s.sets && slot.index < |s.sets[slot.key].tasks|
  }

  function AssignmentFor(s: State, slot: Slot, id: TaskAttemptID, w: WorkerID): TaskAssignment
    requires Names(s, slot)
  {
    var t := s.sets[slot.key].tasks[slot.index].task;
    TaskAssignment(s.sets[slot.key].inputs, s.runID, slot.key.job, slot.key.stage,
                   TaskAttemptIdentity(id, t.id, slot.key.attempt), t, w)
  }

  /** Consecutive attempts for the given tasks, in their order. */
  function Batch(s: State, slots: seq<Slot>, first: TaskAttemptID, w: WorkerID): seq<TaskAssignment>
    requires forall slot :: slot in slots ==> Names(s, slot)
  {
    if slots == [] then []
    else [AssignmentFor(s, slots[0], first, w)] + Batch(s, slots[1..], first + 1, w)
  }

  predicate SameIdentity(s: State, s1: State) {
    && s1.runID == s.runID && s1.sets.Keys == s.sets.Keys
    && (forall key :: key in s.sets ==>
          s1.sets[key].inputs == s.sets[key].inputs && |s1.sets[key].tasks| == |s.sets[key].tasks|)
    && (forall key, i :: key in s.sets && 0 <= i < |s.sets[key].tasks| ==>
          s1.sets[key].tasks[i].task == s.sets[key].tasks[i].task)
  }

  lemma {:induction false} BatchSame(s: State, s1: State, slots: seq<Slot>, first: TaskAttemptID, w: WorkerID)
    requires SameIdentity(s, s1) && forall slot :: slot in slots ==> Names(s, slot)
    ensures forall slot :: slot in slots ==> Names(s1, slot)
    ensures Batch(s1, slots, first, w) == Batch(s, slots, first, w)
    decreases |slots|
  {
    if slots != [] {
      assert slots[0] in slots;
      BatchSame(s, s1, slots[1..], first + 1, w);
    }
  }

  lemma {:induction false} PendingFromNames(s: State, key: SetKey, i: nat)
    requires key in s.sets && i <= |s.sets[key].tasks|
    ensures forall slot :: slot in PendingFrom(s.sets[key], key, i) ==> Names(s, slot) && slot.key == key
    decreases |s.sets[key].tasks| - i
  {
    if i < |s.sets[key].tasks| { PendingFromNames(s, key, i + 1); }
  }

  lemma {:induction false} PendingInNames(s: State, keys: seq<SetKey>)
    requires forall key :: key in keys ==> key in s.sets
    ensures forall slot :: slot in PendingIn(s, keys) ==> Names(s, slot) && slot.key in keys
  {
    if keys != [] {
      PendingFromNames(s, keys[0], 0);
      PendingInNames(s, keys[1..]);
    }
  }

  function Count(available: int, pending: nat): nat {
    if available <= 0 then 0 else if available <= pending then available else pending
  }

  /** From task `i` on, an offer takes the first pending tasks of a set and
      leaves the others pending and everything else alone. */
  ghost predicate TakesFirst(o: OfferState, r: OfferState, w: WorkerID, slots: seq<Slot>)
    requires forall slot :: slot in slots ==> Names(o.state, slot)
  {
    var k := Count(o.available, |slots|);
    && r.assignments == o.assignments + Batch(o.state, slots[..k], o.state.nextAttempt, w)
    && r.available == o.available - k
    && r.state.nextAttempt == o.state.nextAttempt + k
    && SameIdentity(o.state, r.state)
  }

  lemma AssignOneFrame(o: OfferState, w: WorkerID, key: SetKey, i: nat)
    requires key in o.state.sets && i < |o.state.sets[key].tasks| && w in o.state.workers
    ensures SameIdentity(o.state, AssignOne(o, w, key, i).state)
    ensures w in AssignOne(o, w, key, i).state.workers
    ensures forall j :: 0 <= j < |o.state.sets[key].tasks| && j != i ==>
      AssignOne(o, w, key, i).state.sets[key].tasks[j] == o.state.sets[key].tasks[j]
    ensures AssignOne(o, w, key, i).state.sets[key].tasks[i].state == TaskRunning
    ensures forall k :: k in o.state.sets && k != key ==> AssignOne(o, w, key, i).state.sets[k] == o.state.sets[k]
    ensures AssignOne(o, w, key, i).state.sets[key].terminal == o.state.sets[key].terminal
    ensures AssignOne(o, w, key, i).state.sets[key].cancelled == o.state.sets[key].cancelled
    ensures AssignOne(o, w, key, i).state.nextAttempt == o.state.nextAttempt + 1
    ensures NewAssignment(o.state, key, i, w) == AssignmentFor(o.state, Slot(key, i), o.state.nextAttempt, w)
  {
  }

  lemma {:induction false} PendingFromSame(t: FifoTaskSet, t1: FifoTaskSet, key: SetKey, i: nat)
    requires |t.tasks| == |t1.tasks| && i <= |t.tasks|
    requires forall j :: i <= j < |t.tasks| ==> t1.tasks[j].state == t.tasks[j].state
    ensures PendingFrom(t1, key, i) == PendingFrom(t, key, i)
    decreases |t.tasks| - i
  {
    if i < |t.tasks| { PendingFromSame(t, t1, key, i + 1); }
  }

  /** The part of a set's tasks an offer leaves alone. */
  ghost predicate SetFrame(s: State, s1: State, key: SetKey, i: nat)
    requires key in s.sets && i <= |s.sets[key].tasks|
  {
    && s1.sets.Keys == s.sets.Keys && |s1.sets[key].tasks| == |s.sets[key].tasks|
    && (forall j :: 0 <= j < i ==> s1.sets[key].tasks[j] == s.sets[key].tasks[j])
    && (forall k :: k in s.sets && k != key ==> s1.sets[k] == s.sets[k])
    && s1.sets[key].terminal == s.sets[key].terminal && s1.sets[key].cancelled == s.sets[key].cancelled
  }

  lemma {:induction false} OfferTasksFrame(o: OfferState, w: WorkerID, key: SetKey, i: nat)
    requires key in o.state.sets && i <= |o.state.sets[key].tasks| && w in o.state.workers
    ensures SetFrame(o.state, OfferTasks(o, w, key, i).state, key, i)
    ensures SameIdentity(o.state, OfferTasks(o, w, key, i).state)
    decreases |o.state.sets[key].tasks| - i
  {
    hide Assign, SameIdentity;
    SameIdentityReflexive(o.state);
    if i < |o.state.sets[key].tasks| && o.available > 0 {
      if o.state.sets[key].tasks[i].state != TaskPending {
        OfferTasksFrame(o, w, key, i + 1);
      } else {
        var o1 := AssignOne(o, w, key, i);
        AssignOneFrame(o, w, key, i);
        OfferTasksFrame(o1, w, key, i + 1);
        SameIdentityTransitive(o.state, o1.state, OfferTasks(o1, w, key, i + 1).state);
      }
    }
  }

  lemma SameIdentityReflexive(a: State)
    ensures SameIdentity(a, a)
  {
  }

  lemma SameIdentityTransitive(a: State, b: State, c: State)
    requires SameIdentity(a, b) && SameIdentity(b, c)
    ensures SameIdentity(a, c)
  {
  }

  lemma {:induction false} OfferTasksTakeFirst(o: OfferState, w: WorkerID, key: SetKey, i: nat)
    requires key in o.state.sets && i <= |o.state.sets[key].tasks| && w in o.state.workers
    requires forall slot :: slot in PendingFrom(o.state.sets[key], key, i) ==> Names(o.state, slot)
    ensures TakesFirst(o, OfferTasks(o, w, key, i), w, PendingFrom(o.state.sets[key], key, i))
    decreases |o.state.sets[key].tasks| - i
  {
    hide Assign, SetFrame;
    var slots := PendingFrom(o.state.sets[key], key, i);
    OfferTasksFrame(o, w, key, i);
    if i < |o.state.sets[key].tasks| && o.available > 0 {
      var rest := PendingFrom(o.state.sets[key], key, i + 1);
      if o.state.sets[key].tasks[i].state != TaskPending {
        assert slots == rest;
        OfferTasksTakeFirst(o, w, key, i + 1);
      } else {
        assert slots == [Slot(key, i)] + rest && slots[1..] == rest;
        var o1 := AssignOne(o, w, key, i);
        AssignOneFrame(o, w, key, i);
        PendingFromSame(o.state.sets[key], o1.state.sets[key], key, i + 1);
        PendingFromNames(o1.state, key, i + 1);
        OfferTasksTakeFirst(o1, w, key, i + 1);
        TakeOne(o, o1, OfferTasks(o1, w, key, i + 1), w, slots);
      }
    }
  }

  lemma TakeOne(o: OfferState, o1: OfferState, r: OfferState, w: WorkerID, slots: seq<Slot>)
    requires o.available > 0 && slots != [] && o1.available == o.available - 1
    requires SameIdentity(o.state, o1.state) && SameIdentity(o.state, r.state)
    requires o1.state.nextAttempt == o.state.nextAttempt + 1
    requires forall slot :: slot in slots ==> Names(o.state, slot)
    requires forall slot :: slot in slots[1..] ==> Names(o1.state, slot)
    requires o1.assignments == o.assignments + [AssignmentFor(o.state, slots[0], o.state.nextAttempt, w)]
    requires TakesFirst(o1, r, w, slots[1..])
    ensures TakesFirst(o, r, w, slots)
  {
    var k := Count(o.available, |slots|);
    var taken := slots[1..][..k - 1];
    assert slots[..k][1..] == taken;
    BatchSame(o.state, o1.state, taken, o1.state.nextAttempt, w);
  }

  lemma OfferTasksTakes(o: OfferState, w: WorkerID, key: SetKey, i: nat)
    requires key in o.state.sets && i < |o.state.sets[key].tasks| && w in o.state.workers
    requires o.available > 0 && o.state.sets[key].tasks[i].state == TaskPending
    ensures var o1 := AssignOne(o, w, key, i);
            && key in o1.state.sets && i + 1 <= |o1.state.sets[key].tasks| && w in o1.state.workers
            && OfferTasks(o, w, key, i) == OfferTasks(o1, w, key, i + 1)
  {
  }

  lemma {:induction false} PendingAfter(o: OfferState, w: WorkerID, key: SetKey, i: nat)
    requires key in o.state.sets && i <= |o.state.sets[key].tasks| && w in o.state.workers
    ensures var slots := PendingFrom(o.state.sets[key], key, i);
            var t1 := OfferTasks(o, w, key, i).state.sets[key];
            i <= |t1.tasks| && PendingFrom(t1, key, i) == slots[Count(o.available, |slots|)..]
    decreases |o.state.sets[key].tasks| - i
  {
    hide Assign, SameIdentity, NewAssignment;
    if i < |o.state.sets[key].tasks| && o.available > 0 {
      var t := o.state.sets[key];
      var t1 := OfferTasks(o, w, key, i).state.sets[key];
      if t.tasks[i].state != TaskPending {
        assert OfferTasks(o, w, key, i) == OfferTasks(o, w, key, i + 1);
        hide OfferTasks;
        PendingAfter(o, w, key, i + 1);
        OfferTasksFrame(o, w, key, i + 1);
        assert PendingFrom(t1, key, i) == [] + PendingFrom(t1, key, i + 1);
      } else {
        var o1 := AssignOne(o, w, key, i);
        OfferTasksTakes(o, w, key, i);
        hide OfferTasks;
        AssignOneFrame(o, w, key, i);
        PendingFromSame(t, o1.state.sets[key], key, i + 1);
        PendingAfter(o1, w, key, i + 1);
        OfferTasksFrame(o1, w, key, i + 1);
        assert t1.tasks[i].state == TaskRunning;
        assert PendingFrom(t1, key, i) == [] + PendingFrom(t1, key, i + 1);
        assert PendingFrom(t, key, i)[1..] == PendingFrom(t, key, i + 1);
      }
    }
  }

  ghost predicate Distinct(keys: seq<SetKey>) {
    forall i, j :: 0 <= i < j < |keys| ==> keys[i] != keys[j]
  }

  lemma {:induction false} PendingInSame(s: State, s1: State, keys: seq<SetKey>)
    requires forall key :: key in keys ==> key in s.sets && key in s1.sets && s1.sets[key] == s.sets[key]
    ensures PendingIn(s1, keys) == PendingIn(s, keys)
  {
    if keys != [] { PendingInSame(s, s1, keys[1..]); }
  }

  /** One set: what an offer takes from it, and what it leaves pending there. */
  lemma OfferSetTakes(o: OfferState, w: WorkerID, key: SetKey)
    requires key in o.state.sets && w in o.state.workers
    ensures forall slot :: slot in PendingOf(o.state.sets[key], key) ==> Names(o.state, slot)
    ensures TakesFirst(o, OfferSet(o, w, key), w, PendingOf(o.state.sets[key], key))
    ensures var slots := PendingOf(o.state.sets[key], key);
            PendingOf(OfferSet(o, w, key).state.sets[key], key) == slots[Count(o.available, |slots|)..]
    ensures forall k :: k in o.state.sets && k != key ==> OfferSet(o, w, key).state.sets[k] == o.state.sets[k]
  {
    hide Assign;
    var t := o.state.sets[key];
    PendingFromNames(o.state, key, 0);
    if t.terminal || t.cancelled {
      assert Batch(o.state, [], o.state.nextAttempt, w) == [];
    } else {
      OfferTasksTakeFirst(o, w, key, 0);
      OfferTasksFrame(o, w, key, 0);
      PendingAfter(o, w, key, 0);
    }
  }

  lemma {:induction false} BatchJoin(s: State, a: seq<Slot>, b: seq<Slot>, first: TaskAttemptID, w: WorkerID)
    requires forall slot :: slot in a + b ==> Names(s, slot)
    ensures forall slot :: slot in a || slot in b ==> slot in a + b
    ensures Batch(s, a + b, first, w) == Batch(s, a, first, w) + Batch(s, b, first + |a|, w)
    decreases |a|
  {
    if a == [] {
      assert a + b == b;
    } else {
      assert (a + b)[1..] == a[1..] + b;
      BatchJoin(s, a[1..], b, first + 1, w);
    }
  }

  /** Taking the first of one list and then the first of another is taking the
      first of both. */
  lemma CountBoth(available: int, m: nat, n: nat)
    ensures var j := Count(available, m); var k := Count(available - j, n);
            0 <= j <= m && 0 <= k <= n && Count(available, m + n) == j + k && (k > 0 ==> j == m)
  {
  }

  lemma TakeBoth(o: OfferState, o1: OfferState, r: OfferState, w: WorkerID, a: seq<Slot>, b: seq<Slot>)
    requires forall slot :: slot in a + b ==> Names(o.state, slot)
    requires forall slot :: slot in a ==> Names(o.state, slot)
    requires forall slot :: slot in b ==> Names(o1.state, slot)
    requires TakesFirst(o, o1, w, a) && TakesFirst(o1, r, w, b)
    ensures TakesFirst(o, r, w, a + b)
    ensures a[Count(o.available, |a|)..] + b[Count(o1.available, |b|)..] == (a + b)[Count(o.available, |a + b|)..]
  {
    hide SameIdentity, Batch, Count;
    var j, k := Count(o.available, |a|), Count(o1.available, |b|);
    SameIdentityTransitive(o.state, o1.state, r.state);
    CountBoth(o.available, |a|, |b|);
    assert (a + b)[..j + k] == a[..j] + b[..k];
    assert forall slot :: slot in b ==> slot in a + b;
    BatchSame(o.state, o1.state, b[..k], o1.state.nextAttempt, w);
    BatchJoin(o.state, a[..j], b[..k], o.state.nextAttempt, w);
  }

  lemma {:induction false} OfferSetsTake(o: OfferState, w: WorkerID, keys: seq<SetKey>)
    requires w in o.state.workers && Distinct(keys) && forall key :: key in keys ==> key in o.state.sets
    ensures forall slot :: slot in PendingIn(o.state, keys) ==> Names(o.state, slot)
    ensures TakesFirst(o, OfferSets(o, w, keys), w, PendingIn(o.state, keys))
    ensures var slots := PendingIn(o.state, keys);
            PendingIn(OfferSets(o, w, keys).state, keys) == slots[Count(o.available, |slots|)..]
    ensures forall k :: k in o.state.sets && k !in keys ==> OfferSets(o, w, keys).state.sets[k] == o.state.sets[k]
    decreases |keys|
  {
    hide OfferSet, TakesFirst, PendingOf;
    PendingInNames(o.state, keys);
    if keys == [] {
      TakeNone(o, w);
    } else {
      var o1, rest := OfferSet(o, w, keys[0]), keys[1..];
      OfferSetTakes(o, w, keys[0]);
      assert keys == [keys[0]] + rest;
      PendingInSame(o.state, o1.state, rest);
      OfferSetsTake(o1, w, rest);
      var r := OfferSets(o1, w, rest);
      assert r.state.sets[keys[0]] == o1.state.sets[keys[0]];
      TakeBoth(o, o1, r, w, PendingOf(o.state.sets[keys[0]], keys[0]), PendingIn(o.state, rest));
    }
  }

  lemma TakeNone(o: OfferState, w: WorkerID)
    ensures TakesFirst(o, o, w, [])
  {
  }

  /** The queue sweep of an offer, before the queue is compacted. */
  function Sweep(s: State, w: WorkerID, free: int, running: seq<TaskAttemptID>, now: int): (r: OfferState)
    requires Wired(s) && w in s.workers
    ensures r.state.sets.Keys == s.sets.Keys
  {
    OfferSets(OfferState(Heartbeat(s, w, free, running, now), [], Available(s.workers[w], free, running)), w, s.queue)
  }

  lemma SweepIsFifo(s: State, w: WorkerID, free: int, running: seq<TaskAttemptID>, now: int, pending: seq<Slot>, k: nat)
    requires Wired(s) && Distinct(s.queue) && w in s.workers && pending == PendingIn(s, s.queue)
    requires k == Count(Available(s.workers[w], free, running), |pending|)
    ensures forall slot :: slot in pending ==> Names(s, slot)
    ensures Sweep(s, w, free, running, now).assignments == Batch(s, pending[..k], s.nextAttempt, w)
    ensures PendingIn(Sweep(s, w, free, running, now).state, s.queue) == pending[k..]
  {
    hide PendingIn, OfferSets, Batch;
    var s1 := Heartbeat(s, w, free, running, now);
    PendingInNames(s, s.queue);
    PendingInSame(s, s1, s.queue);
    OfferSetsTake(OfferState(s1, [], Available(s.workers[w], free, running)), w, s.queue);
    BatchSame(s, s1, pending[..k], s.nextAttempt, w);
  }

  lemma OfferShape(s: State, w: WorkerID, free: int, running: seq<TaskAttemptID>, now: int)
    requires Wired(s) && Offer(s, w, free, running, now).reply.Granted?
    ensures w in s.workers
    ensures Offer(s, w, free, running, now).reply == Granted(Sweep(s, w, free, running, now).assignments)
    ensures Offer(s, w, free, running, now).state == Compact(Sweep(s, w, free, running, now).state)
  {
    hide OfferSets, Heartbeat, Available;
  }

  /** FIFO order: an accepted offer assigns exactly the first k pending tasks of
      the queue, k being the smaller of the capacity left and the number
      pending, under consecutive new attempt IDs; the others stay pending. */
  lemma OfferIsFifo(s: State, w: WorkerID, free: int, running: seq<TaskAttemptID>, now: int, pending: seq<Slot>, k: nat)
    requires Inv(s) && Wired(s) && Offer(s, w, free, running, now).reply.Granted?
    requires pending == PendingIn(s, s.queue)
    requires k == Count(Available(s.workers[w], free, running), |pending|)
    ensures forall slot :: slot in pending ==> Names(s, slot)
    ensures Offer(s, w, free, running, now).reply == Granted(Batch(s, pending[..k], s.nextAttempt, w))
    ensures PendingIn(Sweep(s, w, free, running, now).state, s.queue) == pending[k..]
    ensures Offer(s, w, free, running, now).state == Compact(Sweep(s, w, free, running, now).state)
  {
    QueueDistinct(s);
    OfferShape(s, w, free, running, now);
    hide Inv, Wired, PendingIn, Batch, Sweep, Distinct, Offer;
    SweepIsFifo(s, w, free, running, now, pending, k);
  }

  lemma QueueDistinct(s: State)
    requires QueueOK(s)
    ensures Distinct(s.queue)
  {
    forall i, j | 0 <= i < j < |s.queue| ensures s.queue[i] != s.queue[j] {
      assert s.sets[s.queue[i]].sequence < s.sets[s.queue[j]].sequence;
    }
  }

  /** The pending list is complete and runs by set sequence, then by partition. */
  ghost predicate Before(s: State, a: Slot, b: Slot)
    requires Names(s, a) && Names(s, b)
  {
    s.sets[a.key].sequence < s.sets[b.key].sequence ||
    (a.key == b.key && s.sets[a.key].tasks[a.index].task.partitionID < s.sets[b.key].tasks[b.index].task.partitionID)
  }

  ghost predicate IsPending(s: State, slot: Slot) {
    Names(s, slot) && !s.sets[slot.key].terminal && !s.sets[slot.key].cancelled
    && s.sets[slot.key].tasks[slot.index].state == TaskPending
  }

  lemma {:induction false} PendingFromOrdered(s: State, key: SetKey, i: nat)
    requires key in s.sets && i <= |s.sets[key].tasks|
    ensures var p := PendingFrom(s.sets[key], key, i);
            && (forall slot :: slot in p <==> Names(s, slot) && slot.key == key && slot.index >= i
                                              && s.sets[key].tasks[slot.index].state == TaskPending)
            && (forall a, b :: 0 <= a < b < |p| ==> p[a].index < p[b].index)
    decreases |s.sets[key].tasks| - i
  {
    if i < |s.sets[key].tasks| {
      PendingFromOrdered(s, key, i + 1);
      var rest := PendingFrom(s.sets[key], key, i + 1);
      forall b | 0 <= b < |rest| ensures rest[b].index > i { assert rest[b] in rest; }
    }
  }

  lemma {:induction false} PendingInOrdered(s: State, keys: seq<SetKey>)
    requires forall key :: key in keys ==> key in s.sets && TasksOK(s.sets[key], s.maxTaskAttempts)
    requires forall i, j :: 0 <= i < j < |keys| ==> s.sets[keys[i]].sequence < s.sets[keys[j]].sequence
    ensures forall slot :: slot in PendingIn(s, keys) <==> IsPending(s, slot) && slot.key in keys
    ensures forall slot :: slot in PendingIn(s, keys) ==> Names(s, slot)
    ensures forall a, b :: 0 <= a < b < |PendingIn(s, keys)| ==>
      PendingIn(s, keys)[a] in PendingIn(s, keys) && PendingIn(s, keys)[b] in PendingIn(s, keys)
      && Before(s, PendingIn(s, keys)[a], PendingIn(s, keys)[b])
  {
    if keys != [] {
      var first, rest := PendingOf(s.sets[keys[0]], keys[0]), PendingIn(s, keys[1..]);
      PendingInOrdered(s, keys[1..]);
      PendingFromOrdered(s, keys[0], 0);
      assert keys == [keys[0]] + keys[1..];
      forall b | 0 <= b < |rest| ensures s.sets[keys[0]].sequence < s.sets[rest[b].key].sequence {
        assert rest[b] in rest;
        var j :| 0 <= j < |keys[1..]| && keys[1..][j] == rest[b].key;
        assert keys[j + 1] == rest[b].key;
      }
      assert PendingIn(s, keys) == first + rest;
      PendingJoin(s, first, rest, keys[0]);
    }
  }

  lemma PendingJoin(s: State, first: seq<Slot>, rest: seq<Slot>, key: SetKey)
    requires key in s.sets && TasksOK(s.sets[key], s.maxTaskAttempts)
    requires forall slot :: slot in first ==> Names(s, slot) && slot.key == key
    requires forall slot :: slot in rest ==> Names(s, slot)
    requires forall a, b :: 0 <= a < b < |first| ==> first[a].index < first[b].index
    requires forall a, b :: 0 <= a < b < |rest| ==> rest[a] in rest && rest[b] in rest && Before(s, rest[a], rest[b])
    requires forall b :: 0 <= b < |rest| ==>
      rest[b] in rest && Names(s, rest[b]) && s.sets[key].sequence < s.sets[rest[b].key].sequence
    ensures forall slot :: slot in first + rest ==> Names(s, slot)
    ensures forall a, b :: 0 <= a < b < |first + rest| ==>
      (first + rest)[a] in first + rest && (first + rest)[b] in first + rest && Before(s, (first + rest)[a], (first + rest)[b])
  {
    forall a, b | 0 <= a < b < |first + rest|
      ensures (first + rest)[a] in first + rest && (first + rest)[b] in first + rest
              && Before(s, (first + rest)[a], (first + rest)[b])
    {
      if a < |first| { assert first[a] in first; }
      if b < |first| { assert first[b] in first; }
      if |first| <= a { assert rest[a - |first|] in rest; }
    }
  }

  /** In every reachable state the pending list of the queue is exactly the
      pending tasks of live uncancelled sets, by (sequence, partition). */
  lemma PendingListIsFifoOrder(s: State)
    requires Inv(s)
    ensures forall key :: key in s.queue ==> key in s.sets
    ensures forall slot :: slot in PendingIn(s, s.queue) <==> IsPending(s, slot)
    ensures forall a, b :: 0 <= a < b < |PendingIn(s, s.queue)| ==>
      IsPending(s, PendingIn(s, s.queue)[a]) && IsPending(s, PendingIn(s, s.queue)[b])
      && Before(s, PendingIn(s, s.queue)[a], PendingIn(s, s.queue)[b])
  {
    PendingInOrdered(s, s.queue);
    forall slot | IsPending(s, slot) ensures slot in PendingIn(s, s.queue) { assert slot.key in s.queue; }
    var p := PendingIn(s, s.queue);
    forall a, b | 0 <= a < b < |p| ensures IsPending(s, p[a]) && IsPending(s, p[b]) && Before(s, p[a], p[b]) {
      assert p[a] in p && p[b] in p;
    }
  }
}
