/** What happens when a shuffle combines with another function than its node reduces
    with. Validation allows it and the driver never builds it. The shuffle still
    folds every key right exactly when the combining function computes, on meanings,
    what the reducing one does. */
module MixedAggregators {
  import opened Types
  import opened Ordering
  import opened TextSource
  import opened Lineage
  import opened Planner
  import opened Keyed
  import opened Streams
  import opened Evaluation
  import JobMeaning
  import opened EndToEnd
  import opened EndToEndResult
  import Dag

  lemma OneKey(m: map<string, Record>, key: string, value: Record)
    requires m == map[key := value]
    ensures SortedPairs(m) == [KV(key, value)]
  {
    var keys := SortedKeys(m.Keys);
    assert key in keys;
    if |keys| > 1 {
      assert keys[0] in keys && keys[1] in keys;
      assert Less(keys[0], keys[1]);
      LessIrreflexive(key);
    }
  }

  /** Two pairs of one key fold to one pair. */
  lemma TwoPairsFold(f: ReduceFn, key: string, x: Record, y: Record)
    requires f(x, y).Ok?
    ensures FoldStream(f, Stream([KeyValue(key, x), KeyValue(key, y)], None), map[]) == Ok(map[key := f(x, y).value])
  {
    var s := Stream([KeyValue(key, x), KeyValue(key, y)], None);
    var s1 := s.(items := s.items[1..]);
    var s2 := s1.(items := s1.items[1..]);
    assert AddPair(f, map[], KV(key, x)) == Ok(map[key := x]);
    assert map[key := x][key := f(x, y).value] == map[key := f(x, y).value];
    assert AddPair(f, map[key := x], KV(key, y)) == Ok(map[key := f(x, y).value]);
    assert FoldStream(f, s2, map[key := f(x, y).value]) == Ok(map[key := f(x, y).value]);
    assert FoldStream(f, s1, map[key := x]) == FoldStream(f, s2, map[key := f(x, y).value]);
    assert FoldStream(f, s, map[]) == FoldStream(f, s1, map[key := x]);
  }

  lemma OnePairBucket(hash: string -> nat, norm: Record -> Record, key: string, z: Record)
    ensures Flatten(ReduceBuckets(hash, 1, 0, norm, [[KV(key, z)]])) == [KV(key, norm(z))]
  {
    var pair := [KV(key, z)];
    assert pair[..0] == [];
    assert Bucket(hash, 1, 0, []) == [] && Home(hash, 1, key) == 0;
    assert Bucket(hash, 1, 0, pair) == [] + pair == pair;
    assert Restored(norm, pair) == [KV(key, norm(z))];
    var buckets := ReduceBuckets(hash, 1, 0, norm, [pair]);
    hide Bucket, Restored, ReduceBuckets;
    assert buckets == [[KV(key, norm(z))]];
    assert buckets[..0] == [];
    assert Flatten(buckets) == [] + [KV(key, norm(z))];
  }

  lemma OnePairReduces(f: ReduceFn, key: string, z: Record)
    ensures Reduced(f, Stream(ToRecords([KV(key, z)]), None)) == Stream([KeyValue(key, z)], None)
  {
    var s := Stream(ToRecords([KV(key, z)]), None);
    assert s.items == [KeyValue(key, z)];
    var s1 := s.(items := s.items[1..]);
    assert AddPair(f, map[], KV(key, z)) == Ok(map[key := z]);
    assert FoldStream(f, s1, map[key := z]) == Ok(map[key := z]);
    assert FoldStream(f, s, map[]) == FoldStream(f, s1, map[key := z]);
    OneKey(map[key := z], key, z);
  }

  /** Reading back the one pair of one map task. */
  lemma OnePairReads(w: World, f: ReduceFn, key: string, z: Record)
    ensures Reduced(f, Joined(BucketStreams(w, 1, 0, [[KV(key, z)]]))) == Stream([KeyValue(key, w.restore(z))], None)
  {
    hide *;
    JoinedBuckets(w, 1, 0, [[KV(key, z)]]);
    OnePairBucket(w.hash, w.restore, key, z);
    OnePairReduces(f, key, w.restore(z));
  }

  /** A map partition with two values of one key: what is combined is what comes out,
      whatever the node's own function would have made of them. */
  lemma AggregatorDecides(w: World, c: Chain, key: string, x: Record, y: Record)
    requires WellFormed(c) && c.ShuffledRDD? && c.width == 1 && c.parent.width == 1 && c.shuffle.mapSideCombine
    requires Partition(w, c.parent, 1, 0) == Ok(Stream([KeyValue(key, x), KeyValue(key, y)], None))
    requires c.operator.functionID in w.functions.reduces && c.shuffle.aggregatorID in w.functions.reduces
    requires w.functions.reduces[c.shuffle.aggregatorID](x, y).Ok?
    ensures Partition(w, c, 1, 0) ==
            Ok(Stream([KeyValue(key, w.restore(w.functions.reduces[c.shuffle.aggregatorID](x, y).value))], None))
  {
    var a, f := w.functions.reduces[c.shuffle.aggregatorID], w.functions.reduces[c.operator.functionID];
    var z, write := a(x, y).value, WriteOf(c.shuffle);
    hide Reduced, Joined, BucketStreams, FoldStream;
    TwoPairsFold(a, key, x, y);
    OneKey(map[key := z], key, z);
    assert WritesOf(w, write, Stream([KeyValue(key, x), KeyValue(key, y)], None)) == Ok([KV(key, z)]);
    AllWritesStep(w, c.parent, write, 0);
    AllWritesStep(w, c.parent, write, 1);
    assert [] + [[KV(key, z)]] == [[KV(key, z)]];
    OnePairReads(w, f, key, z);
  }

  /** The sequential program folds them with the node's function. */
  lemma ReducerEvaluates(w: World, total: string -> ((Record, Record) -> Record), c: Chain, key: string, x: Record, y: Record)
    requires WellFormed(c) && c.ShuffledRDD? && c.width == 1
    requires Evaluate(w, total, c.parent) == Ok([KeyValue(key, x), KeyValue(key, y)])
    ensures Evaluate(w, total, c) == Ok([KeyValue(key, total(c.operator.functionID)(x, y))])
  {
    hide *;
    var items, g := [KeyValue(key, x), KeyValue(key, y)], total(c.operator.functionID);
    TwoPairs(key, x, y);
    EvaluateShuffle(w, total, c, items);
    ReducedTwo(g, w.hash, key, x, y);
    OnePart(g, w.hash, [KV(key, x), KV(key, y)], KV(key, g(x, y)));
  }

  lemma TwoPairs(key: string, x: Record, y: Record)
    ensures AllKeyed([KeyValue(key, x), KeyValue(key, y)])
    ensures Pairs([KeyValue(key, x), KeyValue(key, y)]) == [KV(key, x), KV(key, y)]
  {
  }

  lemma OnePart(g: (Record, Record) -> Record, hash: string -> nat, pairs: seq<KV>, pair: KV)
    requires ReducedPart(g, hash, 1, 0, pairs) == [pair]
    ensures ToRecords(ReducedParts(g, hash, 1, 1, pairs)) == [KeyValue(pair.key, pair.value)]
  {
    hide ReducedPart;
    assert ReducedParts(g, hash, 1, 0, pairs) == [];
    assert ReducedParts(g, hash, 1, 1, pairs) == [] + [pair];
  }

  lemma ReducedTwo(g: (Record, Record) -> Record, hash: string -> nat, key: string, x: Record, y: Record)
    ensures ReducedPart(g, hash, 1, 0, [KV(key, x), KV(key, y)]) == [KV(key, g(x, y))]
  {
    var pairs := [KV(key, x), KV(key, y)];
    TwoValues(key, x, y);
    assert [x, y][..1] == [x];
    assert Fold(g, [x, y]) == g(x, y);
    hide ValuesOf, Fold;
    var m := ReducedMap(g, hash, 1, 0, pairs);
    forall k ensures k in KeysOf(pairs) <==> k == key {
      ValuesPresent(pairs, k);
      assert pairs[0].key == key && pairs[1].key == key;
    }
    assert m == map[key := g(x, y)];
    OneKey(m, key, g(x, y));
  }

  lemma TwoValues(key: string, x: Record, y: Record)
    ensures ValuesOf([KV(key, x), KV(key, y)], key) == [x, y]
  {
    var pairs := [KV(key, x), KV(key, y)];
    assert pairs[..1] == [KV(key, x)] && [KV(key, x)][..0] == [];
    assert ValuesOf([], key) == [];
    assert ValuesOf([KV(key, x)], key) == [] + [x];
  }

  // ---------------------------------------------------------------- exactly when it is right

  /** Reduce task `p` of a shuffle whose map tasks combine with `a` and that reduces with `f` emits `out`. */
  ghost predicate Emitted(a: ReduceFn, f: ReduceFn, norm: Record -> Record, hash: string -> nat, n: nat, p: nat,
                          parts: seq<seq<KV>>, writes: seq<seq<KV>>, out: seq<KV>)
  {
    && p < n && |writes| == |parts| && (forall i :: 0 <= i < |parts| ==> MapWrites(a, true, parts[i]) == Ok(writes[i]))
    && ReduceTask(f, hash, n, p, norm, writes) == Ok(out)
  }

  /** Whatever the hash, the widths and the data, every value emitted means the left
      fold by `g` of all values of its key. */
  ghost predicate AlwaysFolds<W(!new)>(a: ReduceFn, f: ReduceFn, meaning: Record -> W, g: (W, W) -> W, norm: Record -> Record) {
    forall hash: string -> nat, n: nat, p: nat, parts: seq<seq<KV>>, writes: seq<seq<KV>>, out: seq<KV> ::
      Emitted(a, f, norm, hash, n, p, parts, writes, out) ==> FoldsOf(meaning, g, parts, out)
  }

  /** A shuffle that combines with one function and reduces with another is right on
      all data exactly when the one computes on meanings what the other does. */
  lemma AggregatorExactly<W(!new)>(a: ReduceFn, f: ReduceFn, meaning: Record -> W, g: (W, W) -> W, norm: Record -> Record)
    requires Computes(f, meaning, g) && Associative(g) && Keeps(norm, meaning)
    ensures AlwaysFolds(a, f, meaning, g, norm) <==> Computes(a, meaning, g)
  {
    if Computes(a, meaning, g) {
      forall hash: string -> nat, n: nat, p: nat, parts: seq<seq<KV>>, writes: seq<seq<KV>>, out: seq<KV>
        | Emitted(a, f, norm, hash, n, p, parts, writes, out)
        ensures FoldsOf(meaning, g, parts, out)
      {
        ShuffleKeepsMeaning(a, f, meaning, g, true, norm, hash, n, p, parts, writes, out);
      }
    }
    if AlwaysFolds(a, f, meaning, g, norm) {
      forall x, y | a(x, y).Ok? ensures meaning(a(x, y).value) == g(meaning(x), meaning(y)) {
        TwoValuesTell(a, f, meaning, g, norm, x, y);
      }
    }
  }

  lemma TwoValuesTell<W(!new)>(a: ReduceFn, f: ReduceFn, meaning: Record -> W, g: (W, W) -> W, norm: Record -> Record,
                               x: Record, y: Record)
    requires AlwaysFolds(a, f, meaning, g, norm) && Keeps(norm, meaning) && a(x, y).Ok?
    ensures meaning(a(x, y).value) == g(meaning(x), meaning(y))
  {
    hide *;
    var hash, z := (key: string) => 0, a(x, y).value;
    var parts, writes, out := [[KV("", x), KV("", y)]], [[KV("", z)]], [KV("", norm(z))];
    TwoPairsEmit(a, f, norm, x, y);
    AlwaysFoldsHere(a, f, meaning, g, norm, hash, 1, 0, parts, writes, out);
    FoldsOfTwo(meaning, g, x, y, norm(z));
    KeepsIt(norm, meaning, z);
  }

  lemma KeepsIt<W>(norm: Record -> Record, meaning: Record -> W, z: Record)
    requires Keeps(norm, meaning)
    ensures meaning(norm(z)) == meaning(z)
  {
  }

  lemma AlwaysFoldsHere<W(!new)>(
    a: ReduceFn, f: ReduceFn, meaning: Record -> W, g: (W, W) -> W, norm: Record -> Record, hash: string -> nat, n: nat, p: nat,
    parts: seq<seq<KV>>, writes: seq<seq<KV>>, out: seq<KV>)
    requires AlwaysFolds(a, f, meaning, g, norm) && Emitted(a, f, norm, hash, n, p, parts, writes, out)
    ensures FoldsOf(meaning, g, parts, out)
  {
    hide Emitted, FoldsOf;
  }

  lemma FoldsOfTwo<W(!new)>(meaning: Record -> W, g: (W, W) -> W, x: Record, y: Record, v: Record)
    requires FoldsOf(meaning, g, [[KV("", x), KV("", y)]], [KV("", v)])
    ensures meaning(v) == g(meaning(x), meaning(y))
  {
    var pairs := [KV("", x), KV("", y)];
    var parts := [pairs];
    TwoValues("", x, y);
    assert parts[..0] == [];
    assert Flatten(parts) == [] + pairs == pairs;
    FoldOfTwo(meaning, g, x, y);
    hide ValuesOf, Flatten, Fold;
    assert [KV("", v)][0].value == v;
  }

  lemma FoldOfTwo<W(!new)>(meaning: Record -> W, g: (W, W) -> W, x: Record, y: Record)
    ensures Fold(g, Meanings(meaning, [x, y])) == g(meaning(x), meaning(y))
  {
    assert Meanings(meaning, [x, y]) == [meaning(x), meaning(y)];
    assert [meaning(x), meaning(y)][..1] == [meaning(x)];
  }

  lemma TwoPairsEmit(a: ReduceFn, f: ReduceFn, norm: Record -> Record, x: Record, y: Record)
    requires a(x, y).Ok?
    ensures Emitted(a, f, norm, (key: string) => 0, 1, 0, [[KV("", x), KV("", y)]], [[KV("", a(x, y).value)]],
                    [KV("", norm(a(x, y).value))])
  {
    hide *;
    var z, hash := a(x, y).value, (key: string) => 0;
    TwoPairsWrite(a, "", x, y);
    OnePairEmits(f, norm, hash, "", z);
    OneRun(a, f, norm, hash, [KV("", x), KV("", y)], [KV("", z)], [KV("", norm(z))]);
  }

  lemma OneRun(a: ReduceFn, f: ReduceFn, norm: Record -> Record, hash: string -> nat, part: seq<KV>, write: seq<KV>, out: seq<KV>)
    requires MapWrites(a, true, part) == Ok(write) && ReduceTask(f, hash, 1, 0, norm, [write]) == Ok(out)
    ensures Emitted(a, f, norm, hash, 1, 0, [part], [write], out)
  {
    hide MapWrites, ReduceTask;
  }

  lemma TwoPairsWrite(a: ReduceFn, key: string, x: Record, y: Record)
    requires a(x, y).Ok?
    ensures MapWrites(a, true, [KV(key, x), KV(key, y)]) == Ok([KV(key, a(x, y).value)])
  {
    TwoPairsCombine(a, key, x, y);
    OneKey(map[key := a(x, y).value], key, a(x, y).value);
    hide FoldByKey, SortedPairs;
  }

  lemma OnePairEmits(f: ReduceFn, norm: Record -> Record, hash: string -> nat, key: string, z: Record)
    ensures ReduceTask(f, hash, 1, 0, norm, [[KV(key, z)]]) == Ok([KV(key, norm(z))])
  {
    OnePairBucket(hash, norm, key, z);
    OnePairFolds(f, key, norm(z));
    OneKey(map[key := norm(z)], key, norm(z));
    hide FoldByKey, SortedPairs, Flatten, ReduceBuckets;
  }

  lemma TwoPairsCombine(a: ReduceFn, key: string, x: Record, y: Record)
    requires a(x, y).Ok?
    ensures FoldByKey(a, [KV(key, x), KV(key, y)]) == Ok(map[key := a(x, y).value])
  {
    var pairs := [KV(key, x), KV(key, y)];
    assert pairs[..1] == [KV(key, x)];
    OnePairFolds(a, key, x);
    assert map[key := x][key := a(x, y).value] == map[key := a(x, y).value];
  }

  lemma OnePairFolds(f: ReduceFn, key: string, z: Record)
    ensures FoldByKey(f, [KV(key, z)]) == Ok(map[key := z])
  {
    assert [KV(key, z)][..0] == [];
    assert FoldByKey(f, []) == Ok(map[]);
  }

  // ---------------------------------------------------------------- an example

  /** Pairs every line with one key; reduces to the last value, combines to the first. */
  function MixedNodes(): Nodes {
    map[0 := SourceNode(0, "in", 1), 1 := NarrowNode(1, SourceNode(0, "in", 1), 0, OpMapToPair, "pair"),
        2 := RDDNode(2, OperatorSpec(OpReduceByKey, "last", ""),
                     [Dependency(DependencyShuffle, 1, None,
                                 Some(ShuffleDependencySpec(0, PartitionerSpec(true, 1), "first", true)))],
                     1, Some(PartitionerSpec(true, 1)))]
  }

  function MixedChain(): Chain {
    var pairs := NarrowRDD(SourceRDD(0, OperatorSpec(OpSource, "", "in"), 1), 1, OperatorSpec(OpMapToPair, "pair", ""), 1);
    ShuffledRDD(pairs, 2, OperatorSpec(OpReduceByKey, "last", ""), 1,
                ShuffleDependencySpec(0, PartitionerSpec(true, 1), "first", true))
  }

  lemma MixedIsAccepted()
    ensures Acceptable(MixedNodes(), 2) && Grounded(MixedNodes(), 2, 3)
    ensures ChainFrom(MixedNodes(), 2, 3) == MixedChain() && WellFormed(MixedChain())
  {
    var nodes, c := MixedNodes(), MixedChain();
    assert Grounded(nodes, 0, 1);
    assert ChainFrom(nodes, 0, 1) == c.parent.parent;
    assert Grounded(nodes, 1, 2);
    assert ChainFrom(nodes, 1, 2) == c.parent;
    assert Grounded(nodes, 2, 3);
    FoundedIsAcceptable(nodes, 2);
    assert WellFormed(c.parent.parent) && WellFormed(c.parent);
  }

  function Pair(r: Record): Result<KV> { Ok(KV("k", r)) }
  function First(a: Record, b: Record): Record { a }
  function Last(a: Record, b: Record): Record { b }

  function MixedWorld(codec: Codec): World {
    World(map["in" := "a\nb\n"],
          Functions(map[], map[], map["pair" := Pair], map[],
                    map["first" := (a, b) => Ok(First(a, b)), "last" := (a, b) => Ok(Last(a, b))]),
          (key: string) => 0, codec, r => r)
  }

  lemma TwoLines()
    ensures Lines("a\nb\n") == ["a", "b"]
  {
    var file := "a\nb\n";
    assert LineEnd(file, 2) == LineEnd(file, 3) == 4 && LineEnd(file, 0) == LineEnd(file, 1) == 2;
    assert file[0..2] == "a\n" && file[2..4] == "b\n";
    assert Trim("a\n") == "a" && Trim("b\n") == "b";
    assert LinesBetween(file, 4, 4) == [];
    assert LinesBetween(file, 2, 4) == ["b"] + [] == ["b"];
    assert LinesBetween(file, 0, 4) == ["a"] + ["b"];
  }

  /** With both functions total and associative, an accepted lineage that combines
      with one and reduces with the other answers with the first line where the
      sequential program gives the last. */
  lemma MixedAnswerDiffers(codec: Codec, total: string -> ((Record, Record) -> Record))
    requires total("last") == Last
    ensures Associative(First) && Associative(Last)
    ensures Acceptable(MixedNodes(), 2) && Grounded(MixedNodes(), 2, 3) && ChainFrom(MixedNodes(), 2, 3) == MixedChain()
    ensures var w, c := MixedWorld(codec), MixedChain();
            && WellFormed(c)
            && Partition(w, c, 1, 0) == Ok(Stream([KeyValue("k", Text("a"))], None))
            && Evaluate(w, total, c) == Ok([KeyValue("k", Text("b"))])
  {
    var w, c := MixedWorld(codec), MixedChain();
    MixedIsAccepted();
    MixedInput(codec);
    MixedEvaluates(codec, total);
    hide Partition, Evaluate;
    AggregatorDecides(w, c, "k", Text("a"), Text("b"));
    ReducerEvaluates(w, total, c, "k", Text("a"), Text("b"));
  }

  lemma MixedInput(codec: Codec)
    ensures WellFormed(MixedChain().parent)
    ensures Partition(MixedWorld(codec), MixedChain().parent, 1, 0) ==
            Ok(Stream([KeyValue("k", Text("a")), KeyValue("k", Text("b"))], None))
  {
    var w, c := MixedWorld(codec), MixedChain();
    MixedIsAccepted();
    var file := "a\nb\n";
    PartitionsAreLines(file, 1);
    TwoLines();
    assert FirstPartitions(file, 0, 1) == [];
    assert FirstPartitions(file, 1, 1) == [] + PartitionLines(file, 0, 1);
    var lines := Stream([Text("a"), Text("b")], None);
    assert TextRecords(["a", "b"]) == [Text("a"), Text("b")];
    assert Partition(w, c.parent.parent, 1, 0) == Ok(lines);
    assert StepOf(w.functions, c.parent.operator) == Ok(PairStep(Pair));
    hide PartitionLines, FirstPartitions, Lines, Through;
    PairedTwo(Text("a"), Text("b"));
  }

  lemma PairStepIs(r: Record)
    ensures PairStep(Pair)(r) == Ok(Some(KeyValue("k", r)))
  {
    var f := Pair;
    assert f(r) == Ok(KV("k", r));
  }

  lemma PairedTwo(x: Record, y: Record)
    ensures Through(PairStep(Pair), Stream([x, y], None)) == Stream([KeyValue("k", x), KeyValue("k", y)], None)
  {
    PairStepIs(x);
    PairStepIs(y);
    var step := PairStep(Pair);
    hide PairStep;
    var both := Stream([x, y], None);
    var last := both.(items := both.items[1..]);
    var none := last.(items := last.items[1..]);
    assert Through(step, none) == none;
    assert Through(step, last) == Stream([KeyValue("k", y)] + [], None);
    assert Through(step, both) == Stream([KeyValue("k", x)] + [KeyValue("k", y)], None);
  }

  lemma MixedEvaluates(codec: Codec, total: string -> ((Record, Record) -> Record))
    ensures WellFormed(MixedChain().parent)
    ensures Evaluate(MixedWorld(codec), total, MixedChain().parent) == Ok([KeyValue("k", Text("a")), KeyValue("k", Text("b"))])
  {
    var w, c := MixedWorld(codec), MixedChain();
    var outs := [[KeyValue("k", Text("a")), KeyValue("k", Text("b"))]];
    MixedInput(codec);
    assert ReaderFits(c.parent, 1);
    var sense := Sense(r => r, total);
    NothingAskedWithoutShuffle(w, sense, c.parent);
    PartitionsEvaluate(w, sense, c.parent, 1, outs);
    assert outs[..0] == [];
    assert Flatten(outs) == outs[0];
  }

  // ---------------------------------------------------------------- as a job

  lemma MixedComputed(codec: Codec, result: Dag.JobResult)
    requires WellFormed(MixedChain()) && JobMeaning.ComputedAs(MixedWorld(codec), MixedChain(), ActionSpec(ActionCollect, 2), result)
    requires Partition(MixedWorld(codec), MixedChain(), 1, 0) == Ok(Stream([KeyValue("k", Text("a"))], None))
    ensures result == Dag.JobResult([KeyValue("k", Text("a"))], 0)
  {
    hide Partition, MixedWorld;
    var outs :| AllComputed(MixedWorld(codec), MixedChain(), 1, outs)
                && result == JobMeaning.Expected(ActionSpec(ActionCollect, 2), Flatten(outs));
    assert outs == [outs[0]] && outs[..0] == [];
    assert Flatten(outs) == [] + outs[0];
  }

  lemma MixedSubmission(w: World, sub: Submission, result: Dag.JobResult)
    requires sub == Submission(MixedNodes(), ActionSpec(ActionCollect, 2)) && Right(w, sub, result)
    ensures WellFormed(MixedChain()) && JobMeaning.ComputedAs(w, MixedChain(), ActionSpec(ActionCollect, 2), result)
  {
    MixedIsAccepted();
    hide JobMeaning.ComputedAs, WellFormed, ReaderFits, Grounded, ChainFrom, MixedNodes;
    var n: nat :| Grounded(sub.nodes, 2, n) && ChainOf(sub.nodes, 2) == ChainFrom(sub.nodes, 2, n);
    ChainUnique(sub.nodes, 2, n, 3);
  }

  /** In every run, a job that collects this accepted lineage and is answered with
      success is answered with the first line; its sequential evaluation is the last. */
  lemma MixedJobDiffers(
    codec: Codec, total: string -> ((Record, Record) -> Record), maxStageAttempts: nat, maxTaskAttempts: nat,
    names: FunctionNames, runID: string, events: seq<Event>, id: Types.JobID, result: Dag.JobResult)
    requires maxStageAttempts > 0 && maxTaskAttempts > 0 && total("last") == Last
    requires Legal(MixedWorld(codec), Start(MixedWorld(codec), maxStageAttempts, maxTaskAttempts, names, runID), events)
    requires var s := Run(MixedWorld(codec), Start(MixedWorld(codec), maxStageAttempts, maxTaskAttempts, names, runID), events);
             && id in s.dag.responses && Dag.Completed(result) in s.dag.responses[id]
             && id in s.submissions && s.submissions[id] == Submission(MixedNodes(), ActionSpec(ActionCollect, 2))
    ensures Acceptable(MixedNodes(), 2) && WellFormed(MixedChain())
    ensures result == Dag.JobResult([KeyValue("k", Text("a"))], 0)
    ensures Evaluate(MixedWorld(codec), total, MixedChain()) == Ok([KeyValue("k", Text("b"))])
  {
    hide *;
    var w := MixedWorld(codec);
    MixedAnswerDiffers(codec, total);
    SuccessIsComputed(w, maxStageAttempts, maxTaskAttempts, names, runID, events, id, result);
    MixedSubmission(w, Submission(MixedNodes(), ActionSpec(ActionCollect, 2)), result);
    MixedComputed(codec, result);
  }
}
