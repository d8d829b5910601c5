/** A lineage evaluated as a sequential list program, and the proof that the
    partitions the cluster computes are that list, in order. */
module Evaluation {
  import opened Types
  import opened Ordering
  import opened TextSource
  import opened Keyed
  import opened Planner
  import opened Streams

  // ---------------------------------------------------------------- the list program

  function Each(step: StepFn, items: seq<Record>): Result<seq<Record>> {
    if items == [] then Ok([])
    else
      match step(items[0])
      case Err(e) => Err(e)
      case Ok(out) =>
        match Each(step, items[1..])
        case Err(e) => Err(e)
        case Ok(rest) => Ok((if out.Some? then [out.value] else []) + rest)
  }

  predicate AllKeyed(items: seq<Record>) {
    forall i :: 0 <= i < |items| ==> items[i].KeyValue?
  }

  function Pairs(items: seq<Record>): (r: seq<KV>)
    requires AllKeyed(items)
    ensures |r| == |items| && forall i :: 0 <= i < |r| ==> r[i] == KV(items[i].key, items[i].value)
  {
    seq(|items|, i requires 0 <= i < |items| => KV(items[i].key, items[i].value))
  }

  function KeysOf(pairs: seq<KV>): (r: set<string>)
    ensures forall key :: key in r <==> ValuesOf(pairs, key) != []
  {
    var r := set i | 0 <= i < |pairs| :: pairs[i].key;
    assert forall key :: key in r <==> ValuesOf(pairs, key) != [] by {
      forall key ensures key in r <==> ValuesOf(pairs, key) != [] { ValuesPresent(pairs, key); }
    }
    r
  }

  ghost function ReducedMap(g: (Record, Record) -> Record, hash: string -> nat, n: nat, p: nat, pairs: seq<KV>): map<string, Record>
    requires n > 0
  {
    map key | key in KeysOf(pairs) && hash(key) % n == p :: Fold(g, ValuesOf(pairs, key))
  }

  /** Each key of one reduce partition with the fold of all its values, by key. */
  ghost function ReducedPart(g: (Record, Record) -> Record, hash: string -> nat, n: nat, p: nat, pairs: seq<KV>): seq<KV>
    requires n > 0
  {
    SortedPairs(ReducedMap(g, hash, n, p, pairs))
  }

  ghost function ReducedParts(g: (Record, Record) -> Record, hash: string -> nat, n: nat, k: nat, pairs: seq<KV>): seq<KV>
    requires n > 0
  {
    if k == 0 then [] else ReducedParts(g, hash, n, k - 1, pairs) + ReducedPart(g, hash, n, k - 1, pairs)
  }

  /** The whole lineage over whole lists; `total` gives each reduce function its
      meaning as a total function. */
  ghost function Evaluate(w: World, total: string -> ((Record, Record) -> Record), c: Chain): Result<seq<Record>>
    requires WellFormed(c)
  {
    match c
    case SourceRDD(_, op, _) =>
      if op.sourcePath in w.files then Ok(TextRecords(Lines(w.files[op.sourcePath]))) else Err(Permanent())
    case NarrowRDD(parent, _, op, _) =>
      (match Evaluate(w, total, parent)
       case Err(e) => Err(e)
       case Ok(items) =>
         match StepOf(w.functions, op)
         case Ok(step) => Each(step, items)
         case Err(e) => Err(e))
    case ShuffledRDD(parent, _, op, width, _) =>
      match Evaluate(w, total, parent)
      case Err(e) => Err(e)
      case Ok(items) =>
        if !AllKeyed(items) then Err(Permanent())
        else Ok(ToRecords(ReducedParts(total(op.functionID), w.hash, width, width, Pairs(items))))
  }

  // ---------------------------------------------------------------- what is asked of the user's functions

  /** What values mean to a job, and the total function each reduce function is part of. */
  datatype Sense = Sense(meaning: Record -> Record, total: string -> ((Record, Record) -> Record))

  /** Pairs are alike when their keys are equal and their values mean the same. */
  predicate Alike(meaning: Record -> Record, a: Record, b: Record) {
    if a.KeyValue? || b.KeyValue? then
      a.KeyValue? && b.KeyValue? && a.key == b.key && meaning(a.value) == meaning(b.value)
    else meaning(a) == meaning(b)
  }

  predicate AllAlike(meaning: Record -> Record, a: seq<Record>, b: seq<Record>) {
    |a| == |b| && forall i :: 0 <= i < |a| ==> Alike(meaning, a[i], b[i])
  }

  predicate OutcomesAlike(meaning: Record -> Record, a: Option<Record>, b: Option<Record>) {
    (a.Some? <==> b.Some?) && (a.Some? ==> Alike(meaning, a.value, b.value))
  }

  /** A step treats alike records alike. */
  ghost predicate Respects(meaning: Record -> Record, step: StepFn) {
    forall a, b :: Alike(meaning, a, b) && step(a).Ok? ==> step(b).Ok? && OutcomesAlike(meaning, step(a).value, step(b).value)
  }

  /** `g` works on what values mean. */
  ghost predicate Preserves(meaning: Record -> Record, g: (Record, Record) -> Record) {
    forall a, b :: meaning(g(a, b)) == g(meaning(a), meaning(b))
  }

  /** Where the reduce function succeeds it computes the associative `g`, as far as meaning goes. */
  ghost predicate Reduces(f: ReduceFn, meaning: Record -> Record, g: (Record, Record) -> Record) {
    Associative(g) && Preserves(meaning, g) && Computes(f, meaning, g)
  }

  /** What a shuffle's map tasks combine with, where combining is on. */
  function CombinerOf(w: World, c: Chain): ReduceFn
    requires c.ShuffledRDD? && c.operator.functionID in w.functions.reduces
  {
    if c.shuffle.mapSideCombine && c.shuffle.aggregatorID in w.functions.reduces then w.functions.reduces[c.shuffle.aggregatorID]
    else w.functions.reduces[c.operator.functionID]
  }

  /** What a lineage needs for its evaluation to be well defined: nothing before its
      first shuffle; storage that keeps what values mean and a lawful reduce function
      at every shuffle, where combining is on with a combining function that computes
      the same on meanings; steps that look at no more than meaning after one. */
  ghost predicate Lawful(w: World, sense: Sense, c: Chain) {
    match c
    case SourceRDD(_, _, _) => true
    case NarrowRDD(parent, _, op, _) =>
      && Lawful(w, sense, parent)
      && (Shuffles(parent) > 0 && StepOf(w.functions, op).Ok? ==> Respects(sense.meaning, StepOf(w.functions, op).value))
    case ShuffledRDD(parent, _, op, _, _) =>
      && Lawful(w, sense, parent) && Keeps(w.restore, sense.meaning)
      && (op.functionID in w.functions.reduces ==>
            && Reduces(w.functions.reduces[op.functionID], sense.meaning, sense.total(op.functionID))
            && Computes(CombinerOf(w, c), sense.meaning, sense.total(op.functionID)))
  }

  /** Without a shuffle the very records, with one records that are alike, in order. */
  predicate Agrees(meaning: Record -> Record, c: Chain, items: seq<Record>, expected: seq<Record>) {
    if Shuffles(c) == 0 then items == expected else AllAlike(meaning, items, expected)
  }

  lemma {:induction false} NothingAskedWithoutShuffle(w: World, sense: Sense, c: Chain)
    requires Shuffles(c) == 0
    ensures Lawful(w, sense, c)
  {
    if !c.SourceRDD? { NothingAskedWithoutShuffle(w, sense, c.parent); }
  }

  /** With one function on both sides nothing more is asked of combining. */
  lemma SameReducerCombines(w: World, c: Chain)
    requires c.ShuffledRDD? && SameReducers(c) && c.operator.functionID in w.functions.reduces
    ensures CombinerOf(w, c) == w.functions.reduces[c.operator.functionID]
  {
  }

  lemma AgreesIsAlike(meaning: Record -> Record, c: Chain, items: seq<Record>, expected: seq<Record>)
    requires Agrees(meaning, c, items, expected)
    ensures AllAlike(meaning, items, expected)
  {
  }

  // ---------------------------------------------------------------- narrow steps

  lemma {:induction false} ThroughIsEach(step: StepFn, s: Stream)
    ensures Through(step, s).end.None? <==> s.end.None? && Each(step, s.items).Ok?
    ensures Through(step, s).end.None? ==> Each(step, s.items) == Ok(Through(step, s).items)
    decreases |s.items|
  {
    if s.items != [] {
      var rest := s.(items := s.items[1..]);
      ThroughIsEach(step, rest);
      assert [] + Through(step, rest).items == Through(step, rest).items;
    }
  }

  lemma EachStep(step: StepFn, items: seq<Record>)
    requires items != [] ==> step(items[0]).Ok?
    ensures items == [] ==> Each(step, items) == Ok([])
    ensures items != [] ==> (Each(step, items).Ok? <==> Each(step, items[1..]).Ok?)
    ensures items != [] && Each(step, items).Ok? ==>
      var out := step(items[0]).value;
      Each(step, items).value == (if out.Some? then [out.value] else []) + Each(step, items[1..]).value
  {
  }

  lemma {:induction false} EachConcat(step: StepFn, a: seq<Record>, b: seq<Record>)
    requires Each(step, a).Ok? && Each(step, b).Ok?
    ensures Each(step, a + b) == Ok(Each(step, a).value + Each(step, b).value)
  {
    if a == [] {
      EachStep(step, a);
      hide Each;
      assert a + b == b;
      assert [] + Each(step, b).value == Each(step, b).value;
    } else {
      EachStep(step, a);
      EachStep(step, a + b);
      assert (a + b)[1..] == a[1..] + b;
      hide Each;
      EachConcat(step, a[1..], b);
      var out := step(a[0]).value;
      var first := if out.Some? then [out.value] else [];
      assert first + (Each(step, a[1..]).value + Each(step, b).value) == first + Each(step, a[1..]).value + Each(step, b).value;
    }
  }

  lemma {:induction false} EachFlatten(step: StepFn, parts: seq<seq<Record>>, outs: seq<seq<Record>>)
    requires |parts| == |outs| && forall i :: 0 <= i < |parts| ==> Each(step, parts[i]) == Ok(outs[i])
    ensures Each(step, Flatten(parts)) == Ok(Flatten(outs))
  {
    if parts != [] {
      var k := |parts| - 1;
      EachFlatten(step, parts[..k], outs[..k]);
      EachConcat(step, Flatten(parts[..k]), parts[k]);
    }
  }

  /** A step that respects meaning maps alike lists to alike lists. */
  lemma {:induction false} EachAlike(meaning: Record -> Record, step: StepFn, a: seq<Record>, b: seq<Record>)
    requires Respects(meaning, step) && AllAlike(meaning, a, b) && Each(step, a).Ok?
    ensures Each(step, b).Ok? && AllAlike(meaning, Each(step, a).value, Each(step, b).value)
  {
    if a != [] {
      assert Alike(meaning, a[0], b[0]);
      assert step(a[0]).Ok?;
      assert OutcomesAlike(meaning, step(a[0]).value, step(b[0]).value);
      hide Alike, Respects;
      EachStep(step, a);
      EachStep(step, b);
      hide Each;
      EachAlike(meaning, step, a[1..], b[1..]);
    }
  }

  // ---------------------------------------------------------------- keyed steps

  lemma {:induction false} PairsOfKeyed(s: Stream)
    ensures PairsOf(s).Ok? <==> s.end.None? && AllKeyed(s.items)
    ensures PairsOf(s).Ok? ==> PairsOf(s).value == Pairs(s.items)
    decreases |s.items|
  {
    if s.items != [] {
      PairsOfKeyed(s.(items := s.items[1..]));
      assert AllKeyed(s.items) <==> s.items[0].KeyValue? && AllKeyed(s.items[1..]) by {
        assert s.items == [s.items[0]] + s.items[1..];
      }
    }
  }

  /** A fold over a stream succeeds only on pairs, and then folds them by key. */
  lemma {:induction false} FoldStreamIsFold(f: ReduceFn, s: Stream, m: map<string, Record>, done: seq<KV>)
    requires FoldByKey(f, done) == Ok(m)
    ensures FoldStream(f, s, m).Ok? ==>
      s.end.None? && AllKeyed(s.items) && FoldByKey(f, done + Pairs(s.items)) == FoldStream(f, s, m)
    ensures s.end.None? && AllKeyed(s.items) && FoldByKey(f, done + Pairs(s.items)).Ok? ==> FoldStream(f, s, m).Ok?
    decreases |s.items|
  {
    if s.items == [] {
      assert done + Pairs(s.items) == done;
    } else if s.items[0].KeyValue? {
      var first := KV(s.items[0].key, s.items[0].value);
      var rest := s.(items := s.items[1..]);
      FoldOneMore(f, done, m, first);
      KeyedTail(s.items, done);
      hide FoldByKey, AddPair;
      if AddPair(f, m, first).Ok? {
        FoldStreamIsFold(f, rest, AddPair(f, m, first).value, done + [first]);
      } else if AllKeyed(s.items) {
        FoldStops(f, done + [first], Pairs(rest.items));
      }
    }
  }

  lemma FoldOneMore(f: ReduceFn, done: seq<KV>, m: map<string, Record>, next: KV)
    requires FoldByKey(f, done) == Ok(m)
    ensures FoldByKey(f, done + [next]) == AddPair(f, m, next)
  {
    assert (done + [next])[..|done|] == done;
  }

  lemma KeyedTail(items: seq<Record>, done: seq<KV>)
    requires items != [] && items[0].KeyValue?
    ensures AllKeyed(items) <==> AllKeyed(items[1..])
    ensures AllKeyed(items) ==>
      done + Pairs(items) == done + [KV(items[0].key, items[0].value)] + Pairs(items[1..])
  {
    var rest := items[1..];
    assert forall i :: 0 <= i < |rest| ==> items[i + 1] == rest[i];
    assert AllKeyed(items) ==> AllKeyed(rest);
    if AllKeyed(rest) {
      forall i | 0 <= i < |items| ensures items[i].KeyValue? {
        assert i > 0 ==> items[i] == rest[i - 1];
      }
      PairsTail(items);
      AppendTail(done, KV(items[0].key, items[0].value), Pairs(rest));
    }
  }

  lemma PairsTail(items: seq<Record>)
    requires items != [] && AllKeyed(items) && AllKeyed(items[1..])
    ensures Pairs(items) == [KV(items[0].key, items[0].value)] + Pairs(items[1..])
  {
  }

  lemma AppendTail(done: seq<KV>, first: KV, rest: seq<KV>)
    ensures done + ([first] + rest) == done + [first] + rest
  {
  }

  lemma {:induction false} FoldStops(f: ReduceFn, a: seq<KV>, b: seq<KV>)
    requires FoldByKey(f, a).Err?
    ensures FoldByKey(f, a + b) == FoldByKey(f, a)
  {
    if b == [] {
      assert a + b == a;
    } else {
      assert (a + b)[..|a + b| - 1] == a + b[..|b| - 1];
      FoldStops(f, a, b[..|b| - 1]);
    }
  }

  lemma {:induction false} JoinedLast(streams: seq<Stream>, last: Stream)
    requires forall i :: 0 <= i < |streams| ==> streams[i].end.None?
    ensures Joined(streams + [last]) == Stream(Joined(streams).items + last.items, last.end)
    ensures Joined(streams).end.None?
  {
    if streams == [] {
      assert [last][1..] == [];
      assert last.items + [] == last.items;
    } else {
      assert (streams + [last])[1..] == streams[1..] + [last];
      JoinedLast(streams[1..], last);
    }
  }

  lemma JoinedStep(streams: seq<Stream>, lists: seq<seq<KV>>, last: seq<KV>)
    requires forall i :: 0 <= i < |streams| ==> streams[i].end.None?
    requires Joined(streams) == Stream(ToRecords(Flatten(lists)), None)
    ensures Joined(streams + [Stream(ToRecords(last), None)]) == Stream(ToRecords(Flatten(lists + [last])), None)
  {
    JoinedLast(streams, Stream(ToRecords(last), None));
    hide Joined;
    FlattenLast(lists + [last], lists, last);
    ToRecordsJoin(Flatten(lists), last);
  }

  lemma {:induction false} JoinedUndamaged(lists: seq<seq<KV>>)
    ensures Joined(Undamaged(lists)) == Stream(ToRecords(Flatten(lists)), None)
  {
    if lists != [] {
      var init, last := lists[..|lists| - 1], lists[|lists| - 1];
      JoinedUndamaged(init);
      assert init + [last] == lists;
      JoinedStep(Undamaged(init), init, last);
    } else {
      assert ToRecords([]) == [];
    }
  }

  lemma JoinedBuckets(w: World, n: nat, p: nat, writes: seq<seq<KV>>)
    requires n > 0
    ensures Joined(BucketStreams(w, n, p, writes)) ==
            Stream(ToRecords(Flatten(ReduceBuckets(w.hash, n, p, w.restore, writes))), None)
  {
    JoinedUndamaged(ReduceBuckets(w.hash, n, p, w.restore, writes));
  }

  lemma ToRecordsJoin(a: seq<KV>, b: seq<KV>)
    ensures ToRecords(a + b) == ToRecords(a) + ToRecords(b)
  {
  }

  lemma KeyedRecords(pairs: seq<KV>)
    ensures AllKeyed(ToRecords(pairs)) && Pairs(ToRecords(pairs)) == pairs
  {
  }

  /** A map task that succeeds writes what Keyed.MapWrites says of its pairs. */
  lemma WritesOfPairs(w: World, write: ShuffleWriteSpec, f: ReduceFn, s: Stream)
    requires WritesOf(w, write, s).Ok?
    requires write.mapSideCombine && write.aggregatorID in w.functions.reduces ==> w.functions.reduces[write.aggregatorID] == f
    ensures s.end.None? && AllKeyed(s.items)
    ensures MapWrites(f, write.mapSideCombine, Pairs(s.items)) == WritesOf(w, write, s)
  {
    if write.mapSideCombine {
      FoldStreamIsFold(f, s, map[], []);
      assert [] + Pairs(s.items) == Pairs(s.items);
    } else {
      PairsOfKeyed(s);
    }
  }

  /** A reduce task that succeeds emits what Keyed.ReduceTask says. */
  lemma ReducedIsReduceTask(w: World, f: ReduceFn, n: nat, p: nat, writes: seq<seq<KV>>, out: seq<Record>)
    requires n > 0 && Reduced(f, Joined(BucketStreams(w, n, p, writes))) == Stream(out, None)
    ensures ReduceTask(f, w.hash, n, p, w.restore, writes).Ok?
    ensures out == ToRecords(ReduceTask(f, w.hash, n, p, w.restore, writes).value)
  {
    var pairs := Flatten(ReduceBuckets(w.hash, n, p, w.restore, writes));
    JoinedBuckets(w, n, p, writes);
    KeyedRecords(pairs);
    FoldStreamIsFold(f, Stream(ToRecords(pairs), None), map[], []);
    assert [] + pairs == pairs;
  }

  predicate PairsAlike(meaning: Record -> Record, a: seq<KV>, b: seq<KV>) {
    |a| == |b| && forall i :: 0 <= i < |a| ==> a[i].key == b[i].key && meaning(a[i].value) == meaning(b[i].value)
  }

  lemma {:induction false} ValuesAlike(meaning: Record -> Record, a: seq<KV>, b: seq<KV>, key: string)
    requires PairsAlike(meaning, a, b)
    ensures Meanings(meaning, ValuesOf(a, key)) == Meanings(meaning, ValuesOf(b, key))
    ensures ValuesOf(a, key) == [] <==> ValuesOf(b, key) == []
  {
    if a != [] {
      var last := |a| - 1;
      ValuesAlike(meaning, a[..last], b[..last], key);
      assert |Meanings(meaning, ValuesOf(a[..last], key))| == |Meanings(meaning, ValuesOf(b[..last], key))|;
      MeaningsMore(meaning, ValuesOf(a[..last], key), a[last].value);
      MeaningsMore(meaning, ValuesOf(b[..last], key), b[last].value);
    }
  }

  lemma MeaningsMore(meaning: Record -> Record, values: seq<Record>, last: Record)
    ensures Meanings(meaning, values + [last]) == Meanings(meaning, values) + [meaning(last)]
    ensures values + [] == values
  {
  }

  lemma {:induction false} FoldMeaning(meaning: Record -> Record, g: (Record, Record) -> Record, values: seq<Record>)
    requires Preserves(meaning, g) && values != []
    ensures meaning(Fold(g, values)) == Fold(g, Meanings(meaning, values))
  {
    var last := |values| - 1;
    if last > 0 {
      FoldMeaning(meaning, g, values[..last]);
      assert Meanings(meaning, values)[..last] == Meanings(meaning, values[..last]);
    }
  }

  lemma SortedAlike(meaning: Record -> Record, m: map<string, Record>, e: map<string, Record>)
    requires m.Keys == e.Keys && forall key :: key in m ==> meaning(m[key]) == meaning(e[key])
    ensures AllAlike(meaning, ToRecords(SortedPairs(m)), ToRecords(SortedPairs(e)))
  {
  }

  /** What a reduce task emits is alike to its part of the sequential reduction. */
  lemma ReduceTaskIsReducedPart(w: World, a: ReduceFn, f: ReduceFn, meaning: Record -> Record, g: (Record, Record) -> Record,
                                combine: bool, n: nat, p: nat, parts: seq<seq<KV>>, writes: seq<seq<KV>>, expected: seq<KV>)
    requires Reduces(f, meaning, g) && Computes(a, meaning, g) && Keeps(w.restore, meaning) && p < n && |writes| == |parts|
    requires forall i :: 0 <= i < |parts| ==> MapWrites(a, combine, parts[i]) == Ok(writes[i])
    requires ReduceTask(f, w.hash, n, p, w.restore, writes).Ok?
    requires PairsAlike(meaning, Flatten(parts), expected)
    ensures AllAlike(meaning, ToRecords(ReduceTask(f, w.hash, n, p, w.restore, writes).value),
                     ToRecords(ReducedPart(g, w.hash, n, p, expected)))
  {
    hide *;
    FoldOfReduceTask(f, w.hash, n, p, w.restore, writes);
    var m := FoldByKey(f, Flatten(ReduceBuckets(w.hash, n, p, w.restore, writes))).value;
    var e := ReducedMap(g, w.hash, n, p, expected);
    ReducedKeys(w, a, f, meaning, g, combine, n, p, parts, writes, expected, m);
    ReduceTaskOfFold(f, w.hash, n, p, w.restore, writes, m);
    SortedAlike(meaning, m, e);
    ReducedPartOfMap(g, w.hash, n, p, expected);
  }

  lemma FoldOfReduceTask(f: ReduceFn, hash: string -> nat, n: nat, p: nat, norm: Record -> Record, writes: seq<seq<KV>>)
    requires n > 0 && ReduceTask(f, hash, n, p, norm, writes).Ok?
    ensures FoldByKey(f, Flatten(ReduceBuckets(hash, n, p, norm, writes))).Ok?
  {
  }

  lemma ReducedPartOfMap(g: (Record, Record) -> Record, hash: string -> nat, n: nat, p: nat, pairs: seq<KV>)
    requires n > 0
    ensures ReducedPart(g, hash, n, p, pairs) == SortedPairs(ReducedMap(g, hash, n, p, pairs))
  {
    hide ReducedMap, SortedPairs;
  }

  lemma ReducedKeys(w: World, a: ReduceFn, f: ReduceFn, meaning: Record -> Record, g: (Record, Record) -> Record, combine: bool,
                    n: nat, p: nat, parts: seq<seq<KV>>, writes: seq<seq<KV>>, expected: seq<KV>, m: map<string, Record>)
    requires Reduces(f, meaning, g) && Computes(a, meaning, g) && Keeps(w.restore, meaning) && p < n && |writes| == |parts|
    requires forall i :: 0 <= i < |parts| ==> MapWrites(a, combine, parts[i]) == Ok(writes[i])
    requires FoldByKey(f, Flatten(ReduceBuckets(w.hash, n, p, w.restore, writes))) == Ok(m)
    requires PairsAlike(meaning, Flatten(parts), expected)
    ensures m.Keys == ReducedMap(g, w.hash, n, p, expected).Keys
    ensures forall key :: key in m ==> meaning(m[key]) == meaning(ReducedMap(g, w.hash, n, p, expected)[key])
  {
    hide *;
    var e := ReducedMap(g, w.hash, n, p, expected);
    forall key
      ensures key in m <==> key in e
      ensures key in m ==> meaning(m[key]) == meaning(e[key])
    {
      ReducedKey(w, a, f, meaning, g, combine, n, p, parts, writes, expected, m, key);
    }
    assert forall key :: key in m.Keys <==> key in e.Keys;
  }

  lemma ReducedKey(w: World, a: ReduceFn, f: ReduceFn, meaning: Record -> Record, g: (Record, Record) -> Record, combine: bool,
                   n: nat, p: nat, parts: seq<seq<KV>>, writes: seq<seq<KV>>, expected: seq<KV>, m: map<string, Record>, key: string)
    requires Reduces(f, meaning, g) && Computes(a, meaning, g) && Keeps(w.restore, meaning) && p < n && |writes| == |parts|
    requires forall i :: 0 <= i < |parts| ==> MapWrites(a, combine, parts[i]) == Ok(writes[i])
    requires FoldByKey(f, Flatten(ReduceBuckets(w.hash, n, p, w.restore, writes))) == Ok(m)
    requires PairsAlike(meaning, Flatten(parts), expected)
    ensures var e := ReducedMap(g, w.hash, n, p, expected);
            (key in m <==> key in e) && (key in m ==> meaning(m[key]) == meaning(e[key]))
  {
    ReduceKeyMeaning(a, f, meaning, g, combine, w.restore, w.hash, n, p, parts, writes, key);
    ValuesAlike(meaning, Flatten(parts), expected, key);
    if ValuesOf(expected, key) != [] { FoldMeaning(meaning, g, ValuesOf(expected, key)); }
  }

  lemma ReduceTaskOfFold(f: ReduceFn, hash: string -> nat, n: nat, p: nat, norm: Record -> Record, writes: seq<seq<KV>>,
                         m: map<string, Record>)
    requires n > 0 && FoldByKey(f, Flatten(ReduceBuckets(hash, n, p, norm, writes))) == Ok(m)
    ensures ReduceTask(f, hash, n, p, norm, writes) == Ok(SortedPairs(m))
  {
  }

  // ---------------------------------------------------------------- the whole lineage

  /** A stage of `n` tasks computes every partition of the lineage in full. */
  ghost predicate AllComputed(w: World, c: Chain, n: int, outs: seq<seq<Record>>)
    requires WellFormed(c)
  {
    |outs| == n && forall p :: 0 <= p < n ==> Partition(w, c, n, p) == Ok(Stream(outs[p], None))
  }

  lemma {:induction false} SourceEvaluates(file: string, n: nat, k: nat, outs: seq<seq<Record>>)
    requires k <= n && |outs| == k && n > 0
    requires forall p :: 0 <= p < k ==> outs[p] == TextRecords(PartitionLines(file, p, n))
    ensures Flatten(outs) == TextRecords(FirstPartitions(file, k, n))
    decreases k
  {
    if k > 0 {
      SourceEvaluates(file, n, k - 1, outs[..k - 1]);
    }
  }

  lemma {:induction false} AllWritesParts(w: World, c: Chain, write: ShuffleWriteSpec, k: nat, m: nat)
    requires WellFormed(c) && AllWrites(w, c, write, k).Ok? && m < k
    ensures Partition(w, c, c.width, m).Ok?
    ensures WritesOf(w, write, Partition(w, c, c.width, m).value) == Ok(AllWrites(w, c, write, k).value[m])
    decreases k
  {
    hide *;
    AllWritesStep(w, c, write, k);
    if m < k - 1 { AllWritesParts(w, c, write, k - 1, m); }
  }

  lemma {:induction false} ReducedPartsAlike(meaning: Record -> Record, g: (Record, Record) -> Record, hash: string -> nat, n: nat,
                                             k: nat, pairs: seq<KV>, outs: seq<seq<Record>>)
    requires n > 0 && |outs| == k
    requires forall p :: 0 <= p < k ==> AllAlike(meaning, outs[p], ToRecords(ReducedPart(g, hash, n, p, pairs)))
    ensures AllAlike(meaning, Flatten(outs), ToRecords(ReducedParts(g, hash, n, k, pairs)))
  {
    if k > 0 {
      hide ReducedPart, Alike;
      ReducedPartsAlike(meaning, g, hash, n, k - 1, pairs, outs[..k - 1]);
      var before, last := ReducedParts(g, hash, n, k - 1, pairs), ReducedPart(g, hash, n, k - 1, pairs);
      ToRecordsJoin(before, last);
      AlikeJoin(meaning, Flatten(outs[..k - 1]), ToRecords(before), outs[k - 1], ToRecords(last));
    }
  }

  lemma AlikeJoin(meaning: Record -> Record, a: seq<Record>, b: seq<Record>, c: seq<Record>, d: seq<Record>)
    requires AllAlike(meaning, a, b) && AllAlike(meaning, c, d)
    ensures AllAlike(meaning, a + c, b + d)
  {
    hide Alike;
  }

  lemma {:induction false} PairsFlatten(items: seq<seq<Record>>, parts: seq<seq<KV>>)
    requires |items| == |parts| && forall i :: 0 <= i < |items| ==> AllKeyed(items[i]) && parts[i] == Pairs(items[i])
    ensures AllKeyed(Flatten(items)) && Pairs(Flatten(items)) == Flatten(parts)
  {
    if items != [] {
      var k := |items| - 1;
      PairsFlatten(items[..k], parts[..k]);
      var a, b := Flatten(items[..k]), items[k];
      assert Pairs(a + b) == Pairs(a) + Pairs(b);
    }
  }

  lemma KeyedAlike(meaning: Record -> Record, a: seq<Record>, b: seq<Record>)
    requires AllAlike(meaning, a, b) && AllKeyed(a)
    ensures AllKeyed(b) && PairsAlike(meaning, Pairs(a), Pairs(b))
  {
    forall i | 0 <= i < |b|
      ensures b[i].KeyValue? && a[i].key == b[i].key && meaning(a[i].value) == meaning(b[i].value)
    {
      assert Alike(meaning, a[i], b[i]);
    }
  }

  lemma SourceCase(w: World, total: string -> ((Record, Record) -> Record), c: Chain, n: nat, outs: seq<seq<Record>>)
    requires WellFormed(c) && c.SourceRDD? && n > 0 && AllComputed(w, c, n, outs)
    ensures Evaluate(w, total, c) == Ok(Flatten(outs))
  {
    var path := c.operator.sourcePath;
    assert Partition(w, c, n, 0) == OpenSource(w, path, 0, n);
    var file := w.files[path];
    forall p | 0 <= p < n ensures outs[p] == TextRecords(PartitionLines(file, p, n)) {
      assert Partition(w, c, n, p) == OpenSource(w, path, p, n);
    }
    SourceEvaluates(file, n, n, outs);
    PartitionsAreLines(file, n);
  }

  /** What each partition of the parent was, given that a narrow step succeeded on it. */
  lemma NarrowInputs(w: World, c: Chain, n: nat, outs: seq<seq<Record>>, p: nat)
    requires WellFormed(c) && c.NarrowRDD? && AllComputed(w, c, n, outs) && p < n
    ensures StepOf(w.functions, c.operator).Ok? && |outs| == n
    ensures Partition(w, c.parent, n, p).Ok? && Partition(w, c.parent, n, p).value.end.None?
    ensures Each(StepOf(w.functions, c.operator).value, Partition(w, c.parent, n, p).value.items) == Ok(outs[p])
  {
    assert Partition(w, c, n, p) == Ok(Stream(outs[p], None));
    ThroughIsEach(StepOf(w.functions, c.operator).value, Partition(w, c.parent, n, p).value);
  }

  lemma NarrowCase(w: World, sense: Sense, c: Chain, n: nat, outs: seq<seq<Record>>, parts: seq<seq<Record>>)
    requires WellFormed(c) && c.NarrowRDD? && n > 0 && AllComputed(w, c, n, outs) && Lawful(w, sense, c)
    requires WellFormed(c.parent) && |parts| == n && forall p :: 0 <= p < n ==> Partition(w, c.parent, n, p) == Ok(Stream(parts[p], None))
    requires Evaluate(w, sense.total, c.parent).Ok?
    requires Agrees(sense.meaning, c.parent, Flatten(parts), Evaluate(w, sense.total, c.parent).value)
    ensures Evaluate(w, sense.total, c).Ok? && Agrees(sense.meaning, c, Flatten(outs), Evaluate(w, sense.total, c).value)
  {
    hide *;
    NarrowInputs(w, c, n, outs, 0);
    var step, expected := StepOf(w.functions, c.operator).value, Evaluate(w, sense.total, c.parent).value;
    forall p | 0 <= p < |parts| ensures Each(step, parts[p]) == Ok(outs[p]) {
      NarrowInputs(w, c, n, outs, p);
    }
    EachFlatten(step, parts, outs);
    EvaluateNarrow(w, sense.total, c, expected, step);
    NarrowAgrees(w, sense, c, step, Flatten(parts), expected);
  }

  lemma EvaluateNarrow(w: World, total: string -> ((Record, Record) -> Record), c: Chain, items: seq<Record>, step: StepFn)
    requires WellFormed(c) && c.NarrowRDD? && Evaluate(w, total, c.parent) == Ok(items) && StepOf(w.functions, c.operator) == Ok(step)
    ensures Evaluate(w, total, c) == Each(step, items)
  {
    hide StepOf, Each;
  }

  lemma NarrowAgrees(w: World, sense: Sense, c: Chain, step: StepFn, items: seq<Record>, expected: seq<Record>)
    requires c.NarrowRDD? && Lawful(w, sense, c) && StepOf(w.functions, c.operator) == Ok(step)
    requires Each(step, items).Ok? && Agrees(sense.meaning, c.parent, items, expected)
    ensures Each(step, expected).Ok? && Agrees(sense.meaning, c, Each(step, items).value, Each(step, expected).value)
  {
    hide Each, StepOf, AllAlike, Respects;
    if Shuffles(c.parent) > 0 { EachAlike(sense.meaning, step, items, expected); }
  }

  ghost function ItemsOf(w: World, c: Chain, n: nat): (r: seq<seq<Record>>)
    requires WellFormed(c)
    requires forall p: nat :: p < n ==> Partition(w, c, n, p).Ok?
    ensures |r| == n
    ensures forall p :: 0 <= p < n ==> r[p] == Partition(w, c, n, p).value.items
  {
    seq(n, p requires 0 <= p < n => Partition(w, c, n, p).value.items)
  }

  /** What a shuffle's reduce task must have been given. */
  lemma ShuffleInputs(w: World, c: Chain, n: nat, outs: seq<seq<Record>>, p: nat)
    requires WellFormed(c) && c.ShuffledRDD? && AllComputed(w, c, n, outs) && p < n
    ensures |outs| == n && c.operator.functionID in w.functions.reduces
    ensures AllWrites(w, c.parent, WriteOf(c.shuffle), c.parent.width).Ok?
    ensures Reduced(w.functions.reduces[c.operator.functionID],
                    Joined(BucketStreams(w, c.width, p, AllWrites(w, c.parent, WriteOf(c.shuffle), c.parent.width).value)))
            == Stream(outs[p], None)
  {
    assert Partition(w, c, n, p) == Ok(Stream(outs[p], None));
    hide AllWrites, BucketStreams, Joined, Reduced;
  }

  /** What a map task of the shuffle must have computed and written. */
  lemma MapTaskInputs(w: World, c: Chain, writes: seq<seq<KV>>, m: nat)
    requires WellFormed(c) && c.ShuffledRDD? && m < c.parent.width
    requires AllWrites(w, c.parent, WriteOf(c.shuffle), c.parent.width) == Ok(writes)
    requires c.operator.functionID in w.functions.reduces
    ensures Partition(w, c.parent, c.parent.width, m).Ok?
    ensures var s := Partition(w, c.parent, c.parent.width, m).value;
            s.end.None? && AllKeyed(s.items)
            && MapWrites(CombinerOf(w, c), c.shuffle.mapSideCombine, Pairs(s.items)) == Ok(writes[m])
  {
    AllWritesParts(w, c.parent, WriteOf(c.shuffle), c.parent.width, m);
    hide Partition, AllWrites, WellFormed;
    WritesOfPairs(w, WriteOf(c.shuffle), CombinerOf(w, c),
                  Partition(w, c.parent, c.parent.width, m).value);
  }

  lemma ShuffleCase(w: World, sense: Sense, c: Chain, outs: seq<seq<Record>>, items: seq<seq<Record>>)
    requires WellFormed(c) && c.ShuffledRDD? && AllComputed(w, c, c.width, outs) && Lawful(w, sense, c)
    requires WellFormed(c.parent) && |items| == c.parent.width
    requires forall m :: 0 <= m < |items| ==>
      Partition(w, c.parent, c.parent.width, m) == Ok(Stream(items[m], None)) && AllKeyed(items[m])
    requires Evaluate(w, sense.total, c.parent).Ok?
    requires Agrees(sense.meaning, c.parent, Flatten(items), Evaluate(w, sense.total, c.parent).value)
    ensures Evaluate(w, sense.total, c).Ok? && Agrees(sense.meaning, c, Flatten(outs), Evaluate(w, sense.total, c).value)
  {
    hide *;
    var n, expected := c.width, Evaluate(w, sense.total, c.parent).value;
    WidthPositive(c);
    ShuffleInputs(w, c, n, outs, 0);
    LawfulReduce(w, sense, c);
    var meaning := sense.meaning;
    var a, f, g := CombinerOf(w, c), w.functions.reduces[c.operator.functionID], sense.total(c.operator.functionID);
    var writes := AllWrites(w, c.parent, WriteOf(c.shuffle), c.parent.width).value;
    var parts := seq(|items|, m requires 0 <= m < |items| => Pairs(items[m]));
    forall m | 0 <= m < |parts| ensures MapWrites(a, c.shuffle.mapSideCombine, parts[m]) == Ok(writes[m]) {
      MapTaskInputs(w, c, writes, m);
    }
    PairsFlatten(items, parts);
    AgreesIsAlike(meaning, c.parent, Flatten(items), expected);
    KeyedAlike(meaning, Flatten(items), expected);
    forall p | 0 <= p < n ensures AllAlike(meaning, outs[p], ToRecords(ReducedPart(g, w.hash, n, p, Pairs(expected)))) {
      ShuffleInputs(w, c, n, outs, p);
      ReducedIsReduceTask(w, f, n, p, writes, outs[p]);
      ReduceTaskIsReducedPart(w, a, f, meaning, g, c.shuffle.mapSideCombine, n, p, parts, writes, Pairs(expected));
    }
    ReducedPartsAlike(meaning, g, w.hash, n, n, Pairs(expected), outs);
    EvaluateShuffle(w, sense.total, c, expected);
    AlikeAgrees(meaning, c, Flatten(outs), Evaluate(w, sense.total, c).value);
  }

  lemma WidthPositive(c: Chain)
    requires WellFormed(c)
    ensures c.width > 0
  {
  }

  lemma AlikeAgrees(meaning: Record -> Record, c: Chain, items: seq<Record>, expected: seq<Record>)
    requires c.ShuffledRDD? && AllAlike(meaning, items, expected)
    ensures Agrees(meaning, c, items, expected)
  {
  }

  lemma LawfulReduce(w: World, sense: Sense, c: Chain)
    requires c.ShuffledRDD? && Lawful(w, sense, c) && c.operator.functionID in w.functions.reduces
    ensures Keeps(w.restore, sense.meaning)
    ensures Reduces(w.functions.reduces[c.operator.functionID], sense.meaning, sense.total(c.operator.functionID))
    ensures Computes(CombinerOf(w, c), sense.meaning, sense.total(c.operator.functionID))
  {
    hide Reduces, Keeps, Computes, CombinerOf;
  }

  lemma EvaluateShuffle(w: World, total: string -> ((Record, Record) -> Record), c: Chain, items: seq<Record>)
    requires WellFormed(c) && c.ShuffledRDD? && Evaluate(w, total, c.parent) == Ok(items) && AllKeyed(items)
    ensures Evaluate(w, total, c) ==
            Ok(ToRecords(ReducedParts(total(c.operator.functionID), w.hash, c.width, c.width, Pairs(items))))
  {
  }

  /** When every partition of a lineage is computed, the partitions in order agree
      with what the sequential list program computes: any number of shuffles,
      combined or not on the map side, through storage that keeps meaning. */
  lemma {:induction false} PartitionsEvaluate(w: World, sense: Sense, c: Chain, n: nat, outs: seq<seq<Record>>)
    requires WellFormed(c) && ReaderFits(c, n) && Lawful(w, sense, c) && n > 0 && AllComputed(w, c, n, outs)
    ensures Evaluate(w, sense.total, c).Ok? && Agrees(sense.meaning, c, Flatten(outs), Evaluate(w, sense.total, c).value)
    decreases c
  {
    hide *;
    if !c.SourceRDD? { ChainParts(w, sense, c, n); }
    match c
    case SourceRDD(_, _, _) =>
      SourceCase(w, sense.total, c, n, outs);
      SourceAgrees(sense.meaning, c, Flatten(outs));
    case NarrowRDD(parent, _, _, _) =>
      forall p: nat | p < n ensures Partition(w, parent, n, p).Ok? && Partition(w, parent, n, p).value.end.None? {
        NarrowInputs(w, c, n, outs, p);
      }
      var parts := ItemsOf(w, parent, n);
      ItemsComputed(w, parent, n);
      PartitionsEvaluate(w, sense, parent, n, parts);
      NarrowCase(w, sense, c, n, outs, parts);
    case ShuffledRDD(parent, _, _, _, shuffle) =>
      ShuffleInputs(w, c, n, outs, 0);
      var writes := AllWrites(w, parent, WriteOf(shuffle), parent.width).value;
      forall m: nat | m < parent.width
        ensures Partition(w, parent, parent.width, m).Ok? && Partition(w, parent, parent.width, m).value.end.None?
                && AllKeyed(Partition(w, parent, parent.width, m).value.items)
      {
        MapTaskInputs(w, c, writes, m);
      }
      WidthPositive(parent);
      var items := ItemsOf(w, parent, parent.width);
      ItemsComputed(w, parent, parent.width);
      PartitionsEvaluate(w, sense, parent, parent.width, items);
      ShuffleCase(w, sense, c, outs, items);
  }

  lemma SourceAgrees(meaning: Record -> Record, c: Chain, items: seq<Record>)
    requires c.SourceRDD?
    ensures Agrees(meaning, c, items, items)
  {
  }

  lemma ChainParts(w: World, sense: Sense, c: Chain, n: int)
    requires WellFormed(c) && ReaderFits(c, n) && Lawful(w, sense, c) && !c.SourceRDD?
    ensures WellFormed(c.parent) && Lawful(w, sense, c.parent)
    ensures c.NarrowRDD? ==> ReaderFits(c.parent, n)
    ensures c.ShuffledRDD? ==> c.width == n && ReaderFits(c.parent, c.parent.width)
  {
    hide Respects, Reduces, Keeps, Computes, StepOf;
  }

  lemma ItemsComputed(w: World, c: Chain, n: nat)
    requires WellFormed(c) && (forall p: nat :: p < n ==> Partition(w, c, n, p).Ok? && Partition(w, c, n, p).value.end.None?)
    ensures forall p :: 0 <= p < n ==> Partition(w, c, n, p) == Ok(Stream(ItemsOf(w, c, n)[p], None))
    ensures AllComputed(w, c, n, ItemsOf(w, c, n))
  {
    hide Partition;
  }
}
