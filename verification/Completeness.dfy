/** The other half of the equivalence with sequential evaluation: with reduce
    functions that never fail, whatever the list program computes the cluster
    computes too, partition by partition. */
module Completeness {
  import opened Types
  import opened Keyed
  import opened Planner
  import opened Streams
  import opened Evaluation

  ghost predicate NeverFails(w: World, id: string) {
    id in w.functions.reduces && forall a, b :: w.functions.reduces[id](a, b).Ok?
  }

  /** Every function the lineage's shuffles call is registered and never fails. */
  ghost predicate TotalReduces(w: World, c: Chain) {
    && (!c.SourceRDD? ==> TotalReduces(w, c.parent))
    && (c.ShuffledRDD? ==>
          NeverFails(w, c.operator.functionID) && (c.shuffle.mapSideCombine ==> NeverFails(w, c.shuffle.aggregatorID)))
  }

  /** A stage of `n` tasks ends well on every partition. */
  ghost predicate Succeeds(w: World, c: Chain, n: int)
    requires WellFormed(c)
  {
    forall p: nat :: p < n ==> Partition(w, c, n, p).Ok? && Partition(w, c, n, p).value.end.None?
  }

  // ---------------------------------------------------------------- narrow steps

  lemma {:induction false} EachSplit(step: StepFn, a: seq<Record>, b: seq<Record>)
    requires Each(step, a + b).Ok?
    ensures Each(step, a).Ok? && Each(step, b).Ok?
  {
    if a == [] {
      assert a + b == b;
    } else {
      assert (a + b)[0] == a[0] && (a + b)[1..] == a[1..] + b;
      assert step(a[0]).Ok? && Each(step, (a + b)[1..]).Ok?;
      EachSplit(step, a[1..], b);
      hide Each;
      EachStep(step, a);
    }
  }

  lemma {:induction false} EachPart(step: StepFn, parts: seq<seq<Record>>, p: nat)
    requires Each(step, Flatten(parts)).Ok? && p < |parts|
    ensures Each(step, parts[p]).Ok?
  {
    var last := |parts| - 1;
    EachSplit(step, Flatten(parts[..last]), parts[last]);
    if p < last { EachPart(step, parts[..last], p); }
  }

  lemma AlikeBack(meaning: Record -> Record, a: seq<Record>, b: seq<Record>)
    requires AllAlike(meaning, a, b)
    ensures AllAlike(meaning, b, a)
  {
    forall i | 0 <= i < |b| ensures Alike(meaning, b[i], a[i]) { assert Alike(meaning, a[i], b[i]); }
  }

  /** A step that the list program takes goes through on the records at hand. */
  lemma StepGoesThrough(w: World, sense: Sense, c: Chain, step: StepFn, items: seq<Record>, expected: seq<Record>)
    requires c.NarrowRDD? && Lawful(w, sense, c) && StepOf(w.functions, c.operator) == Ok(step)
    requires Each(step, expected).Ok? && Agrees(sense.meaning, c.parent, items, expected)
    ensures Each(step, items).Ok?
  {
    hide Each, StepOf, AllAlike, Respects;
    if Shuffles(c.parent) > 0 {
      AlikeBack(sense.meaning, items, expected);
      EachAlike(sense.meaning, step, expected, items);
    }
  }

  lemma NarrowPartition(w: World, c: Chain, n: int, p: nat, step: StepFn, items: seq<Record>)
    requires WellFormed(c) && c.NarrowRDD? && StepOf(w.functions, c.operator) == Ok(step) && Each(step, items).Ok?
    requires Partition(w, c.parent, n, p) == Ok(Stream(items, None))
    ensures Partition(w, c, n, p).Ok? && Partition(w, c, n, p).value.end.None?
  {
    ThroughIsEach(step, Stream(items, None));
    hide Each, Through, StepOf;
  }

  lemma NarrowSucceeds(w: World, sense: Sense, c: Chain, n: nat)
    requires WellFormed(c) && c.NarrowRDD? && WellFormed(c.parent) && ReaderFits(c.parent, n) && n > 0
    requires Lawful(w, sense, c) && Lawful(w, sense, c.parent) && Succeeds(w, c.parent, n) && Evaluate(w, sense.total, c).Ok?
    ensures Succeeds(w, c, n)
  {
    hide *;
    SucceedsAt(w, c.parent, n);
    ItemsComputed(w, c.parent, n);
    var parts := ItemsOf(w, c.parent, n);
    PartitionsEvaluate(w, sense, c.parent, n, parts);
    NarrowEvaluates(w, sense.total, c);
    var step, expected := StepOf(w.functions, c.operator).value, Evaluate(w, sense.total, c.parent).value;
    StepGoesThrough(w, sense, c, step, Flatten(parts), expected);
    forall p: nat | p < n ensures Partition(w, c, n, p).Ok? && Partition(w, c, n, p).value.end.None? {
      EachPart(step, parts, p);
      NarrowPartition(w, c, n, p, step, parts[p]);
    }
    SucceedsFrom(w, c, n);
  }

  lemma NarrowEvaluates(w: World, total: string -> ((Record, Record) -> Record), c: Chain)
    requires WellFormed(c) && c.NarrowRDD? && WellFormed(c.parent) && Evaluate(w, total, c).Ok?
    ensures Evaluate(w, total, c.parent).Ok? && StepOf(w.functions, c.operator).Ok?
    ensures Each(StepOf(w.functions, c.operator).value, Evaluate(w, total, c.parent).value).Ok?
  {
    hide StepOf, Each;
  }

  lemma SucceedsAt(w: World, c: Chain, n: nat)
    requires WellFormed(c) && Succeeds(w, c, n)
    ensures forall p: nat :: p < n ==> Partition(w, c, n, p).Ok? && Partition(w, c, n, p).value.end.None?
  {
    hide Partition;
  }

  lemma SucceedsFrom(w: World, c: Chain, n: nat)
    requires WellFormed(c) && forall p: nat :: p < n ==> Partition(w, c, n, p).Ok? && Partition(w, c, n, p).value.end.None?
    ensures Succeeds(w, c, n)
  {
    hide Partition;
  }

  // ---------------------------------------------------------------- shuffles

  lemma {:induction false} KeyedPart(parts: seq<seq<Record>>, p: nat)
    requires AllKeyed(Flatten(parts)) && p < |parts|
    ensures AllKeyed(parts[p])
  {
    var last := |parts| - 1;
    var before := Flatten(parts[..last]);
    assert Flatten(parts) == before + parts[last];
    assert AllKeyed(before) by {
      forall i | 0 <= i < |before| ensures before[i].KeyValue? { assert (before + parts[last])[i] == before[i]; }
    }
    if p < last {
      KeyedPart(parts[..last], p);
    } else {
      forall i | 0 <= i < |parts[last]| ensures parts[last][i].KeyValue? {
        assert (before + parts[last])[|before| + i] == parts[last][i];
      }
    }
  }

  /** A function that never fails folds every stream of pairs. */
  lemma FoldsStream(f: ReduceFn, items: seq<Record>)
    requires AllKeyed(items) && forall a, b :: f(a, b).Ok?
    ensures FoldStream(f, Stream(items, None), map[]).Ok?
  {
    FoldByKeyTotal(f, [] + Pairs(items));
    FoldStreamIsFold(f, Stream(items, None), map[], []);
  }

  lemma WritesSucceed(w: World, write: ShuffleWriteSpec, items: seq<Record>)
    requires AllKeyed(items) && (write.mapSideCombine ==> NeverFails(w, write.aggregatorID))
    ensures WritesOf(w, write, Stream(items, None)).Ok?
  {
    if write.mapSideCombine {
      FoldsStream(w.functions.reduces[write.aggregatorID], items);
    } else {
      PairsOfKeyed(Stream(items, None));
    }
    hide FoldStream, PairsOf;
  }

  lemma {:induction false} AllWritesSucceed(w: World, c: Chain, write: ShuffleWriteSpec, k: nat)
    requires WellFormed(c)
    requires forall m: nat :: m < k ==>
      Partition(w, c, c.width, m).Ok? && WritesOf(w, write, Partition(w, c, c.width, m).value).Ok?
    ensures AllWrites(w, c, write, k).Ok?
    decreases k
  {
    hide Partition, WritesOf, AllWrites, WellFormed;
    AllWritesStep(w, c, write, k);
    if k > 0 { AllWritesSucceed(w, c, write, k - 1); }
  }

  lemma ReducesSucceed(w: World, f: ReduceFn, n: nat, p: nat, writes: seq<seq<KV>>)
    requires n > 0 && forall a, b :: f(a, b).Ok?
    ensures Reduced(f, Joined(BucketStreams(w, n, p, writes))).end.None?
  {
    var pairs := Flatten(ReduceBuckets(w.hash, n, p, w.restore, writes));
    JoinedBuckets(w, n, p, writes);
    KeyedRecords(pairs);
    FoldsStream(f, ToRecords(pairs));
    hide FoldStream, Joined, BucketStreams;
  }

  lemma ShufflePartition(w: World, c: Chain, n: int, p: nat)
    requires WellFormed(c) && c.ShuffledRDD? && NeverFails(w, c.operator.functionID)
    requires WellFormed(c.parent) && AllWrites(w, c.parent, WriteOf(c.shuffle), c.parent.width).Ok?
    ensures Partition(w, c, n, p).Ok? && Partition(w, c, n, p).value.end.None?
  {
    ReducesSucceed(w, w.functions.reduces[c.operator.functionID], c.width, p,
                   AllWrites(w, c.parent, WriteOf(c.shuffle), c.parent.width).value);
    hide AllWrites, Reduced, Joined, BucketStreams;
  }

  lemma ShuffleEvaluates(w: World, total: string -> ((Record, Record) -> Record), c: Chain)
    requires WellFormed(c) && c.ShuffledRDD? && WellFormed(c.parent) && Evaluate(w, total, c).Ok?
    ensures Evaluate(w, total, c.parent).Ok? && AllKeyed(Evaluate(w, total, c.parent).value)
  {
  }

  lemma ShuffleSucceeds(w: World, sense: Sense, c: Chain)
    requires WellFormed(c) && c.ShuffledRDD? && WellFormed(c.parent) && ReaderFits(c.parent, c.parent.width)
    requires Lawful(w, sense, c.parent) && Succeeds(w, c.parent, c.parent.width)
    requires NeverFails(w, c.operator.functionID) && (c.shuffle.mapSideCombine ==> NeverFails(w, c.shuffle.aggregatorID))
    requires Evaluate(w, sense.total, c).Ok?
    ensures Succeeds(w, c, c.width)
  {
    hide *;
    var m, write := c.parent.width, WriteOf(c.shuffle);
    WidthPositive(c.parent);
    WidthPositive(c);
    SucceedsAt(w, c.parent, m);
    ItemsComputed(w, c.parent, m);
    var items := ItemsOf(w, c.parent, m);
    PartitionsEvaluate(w, sense, c.parent, m, items);
    ShuffleEvaluates(w, sense.total, c);
    var expected := Evaluate(w, sense.total, c.parent).value;
    AgreesIsAlike(sense.meaning, c.parent, Flatten(items), expected);
    AlikeBack(sense.meaning, Flatten(items), expected);
    KeyedAlike(sense.meaning, expected, Flatten(items));
    WriteCombines(c);
    forall k: nat | k < m
      ensures Partition(w, c.parent, m, k).Ok? && WritesOf(w, write, Partition(w, c.parent, m, k).value).Ok?
    {
      KeyedPart(items, k);
      WritesSucceed(w, write, items[k]);
    }
    AllWritesSucceed(w, c.parent, write, m);
    forall p: nat | p < c.width ensures Partition(w, c, c.width, p).Ok? && Partition(w, c, c.width, p).value.end.None? {
      ShufflePartition(w, c, c.width, p);
    }
    SucceedsFrom(w, c, c.width);
  }

  lemma WriteCombines(c: Chain)
    requires c.ShuffledRDD?
    ensures WriteOf(c.shuffle).mapSideCombine == c.shuffle.mapSideCombine
    ensures WriteOf(c.shuffle).aggregatorID == c.shuffle.aggregatorID
  {
  }

  // ---------------------------------------------------------------- the whole lineage

  lemma {:induction false} EvaluatedSucceeds(w: World, sense: Sense, c: Chain, n: nat)
    requires WellFormed(c) && ReaderFits(c, n) && Lawful(w, sense, c) && TotalReduces(w, c) && n > 0
    requires Evaluate(w, sense.total, c).Ok?
    ensures Succeeds(w, c, n)
    decreases c
  {
    hide *;
    if !c.SourceRDD? {
      ChainParts(w, sense, c, n);
      TotalParts(w, c);
    }
    match c
    case SourceRDD(_, _, _) => SourceSucceeds(w, sense.total, c, n);
    case NarrowRDD(parent, _, _, _) =>
      NarrowEvaluates(w, sense.total, c);
      EvaluatedSucceeds(w, sense, parent, n);
      NarrowSucceeds(w, sense, c, n);
    case ShuffledRDD(parent, _, _, _, _) =>
      WidthPositive(parent);
      ShuffleEvaluates(w, sense.total, c);
      EvaluatedSucceeds(w, sense, parent, parent.width);
      ShuffleSucceeds(w, sense, c);
  }

  lemma TotalParts(w: World, c: Chain)
    requires TotalReduces(w, c) && !c.SourceRDD?
    ensures TotalReduces(w, c.parent)
    ensures c.ShuffledRDD? ==>
      NeverFails(w, c.operator.functionID) && (c.shuffle.mapSideCombine ==> NeverFails(w, c.shuffle.aggregatorID))
  {
    hide NeverFails;
  }

  lemma SourceSucceeds(w: World, total: string -> ((Record, Record) -> Record), c: Chain, n: nat)
    requires WellFormed(c) && c.SourceRDD? && Evaluate(w, total, c).Ok?
    ensures Succeeds(w, c, n)
  {
  }

  /** With reduce functions that never fail, the cluster can compute every partition
      exactly when the list program computes the list. */
  lemma ComputedExactly(w: World, sense: Sense, c: Chain, n: nat)
    requires WellFormed(c) && ReaderFits(c, n) && Lawful(w, sense, c) && TotalReduces(w, c) && n > 0
    ensures (exists outs :: AllComputed(w, c, n, outs)) <==> Evaluate(w, sense.total, c).Ok?
  {
    hide *;
    if outs :| AllComputed(w, c, n, outs) { PartitionsEvaluate(w, sense, c, n, outs); }
    if Evaluate(w, sense.total, c).Ok? {
      EvaluatedSucceeds(w, sense, c, n);
      SucceedsAt(w, c, n);
      ItemsComputed(w, c, n);
    }
  }
}
