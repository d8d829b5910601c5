/** The end-to-end theorem for jobs that sum integers by key, as word count does:
    integers go into storage as machine numbers and come back as JSON numbers, the
    sum is bounded, and still every answer is the true sum. */
module WordCount {
  import opened Types
  import opened Ordering
  import opened Lineage
  import opened Planner
  import opened Keyed
  import opened Streams
  import opened Evaluation
  import opened ReduceMeaning
  import opened JobMeaning
  import opened ExampleFunctions
  import opened EndToEnd
  import opened EndToEndResult
  import Dag

  function SumSense(): Sense {
    Sense(Plain, (id: string) => TotalSum)
  }

  /** The lineage ends in a sum by key of whatever a lineage without a shuffle yields. */
  ghost predicate SumsByKey(w: World, c: Chain) {
    && c.ShuffledRDD? && Shuffles(c.parent) == 0
    && c.operator.functionID in w.functions.reduces
    && (forall a, b :: w.functions.reduces[c.operator.functionID](a, b) == SumInt(a, b))
    && (forall a, b :: CombinerOf(w, c)(a, b) == SumInt(a, b))
  }

  /** Storage may change how an integer is represented, not which it is. */
  ghost predicate KeepsIntegers(w: World) {
    forall r :: IntegerOf(w.restore(r)) == IntegerOf(r)
  }

  lemma SumsAreLawful(w: World, c: Chain)
    requires SumsByKey(w, c) && KeepsIntegers(w)
    ensures Lawful(w, SumSense(), c)
  {
    NothingAskedWithoutShuffle(w, SumSense(), c.parent);
    SumIntIsLawful();
    SameComputes(w.functions.reduces[c.operator.functionID]);
    SameComputes(CombinerOf(w, c));
    assert Keeps(w.restore, Plain);
  }

  lemma SameComputes(f: ReduceFn)
    requires forall a, b :: f(a, b) == SumInt(a, b)
    ensures Computes(f, Plain, TotalSum)
  {
    SumIntIsLawful();
    forall a, b | f(a, b).Ok? ensures Plain(f(a, b).value) == TotalSum(Plain(a), Plain(b)) {
      assert f(a, b) == SumInt(a, b);
    }
  }

  // ---------------------------------------------------------------- the sums of a list of pairs

  /** The records are the true sums of the pairs: every key once, by hash partition and
      then by key, with the sum of all its values, which is no integer only if one of
      them is none. */
  predicate TrueSums(hash: string -> nat, n: nat, records: seq<Record>, pairs: seq<KV>)
    requires n > 0
  {
    && (forall i :: 0 <= i < |records| ==>
          && records[i].KeyValue?
          && var values := ValuesOf(pairs, records[i].key);
             values != [] && IntegerOf(records[i].value) == if AllIntegers(values) then Some(Sum(values)) else None)
    && (forall i :: 0 <= i < |pairs| ==> exists j :: 0 <= j < |records| && records[j].KeyValue? && records[j].key == pairs[i].key)
    && (forall i, j :: 0 <= i < j < |records| && records[i].KeyValue? && records[j].KeyValue? ==>
          InPlace(hash, n, records[i].key, records[j].key))
  }

  lemma AlikeSums(hash: string -> nat, n: nat, records: seq<Record>, list: seq<KV>, pairs: seq<KV>)
    requires n > 0 && AllAlike(Plain, records, ToRecords(list)) && Listing(TotalSum, hash, n, 0, n, pairs, list)
    ensures TrueSums(hash, n, records, pairs)
  {
    forall i | 0 <= i < |records|
      ensures records[i].KeyValue? && records[i].key == list[i].key
      ensures var values := ValuesOf(pairs, list[i].key);
              IntegerOf(records[i].value) == if AllIntegers(values) then Some(Sum(values)) else None
    {
      assert Alike(Plain, records[i], ToRecords(list)[i]);
      TotalSumIsSum(ValuesOf(pairs, list[i].key));
      assert Plain(records[i].value) == Plain(list[i].value);
    }
    forall i | 0 <= i < |pairs| ensures exists j :: 0 <= j < |records| && records[j].KeyValue? && records[j].key == pairs[i].key {
      ValuesPresent(pairs, pairs[i].key);
      assert Present(list, pairs[i].key);
      var j :| 0 <= j < |list| && list[j].key == pairs[i].key;
      assert records[j].key == pairs[i].key;
    }
  }

  lemma EvaluatedSums(w: World, c: Chain, records: seq<Record>)
    requires SumsByKey(w, c) && WellFormed(c) && Evaluate(w, SumSense().total, c).Ok?
    requires Agrees(Plain, c, records, Evaluate(w, SumSense().total, c).value)
    ensures var input := Evaluate(w, SumSense().total, c.parent);
            input.Ok? && AllKeyed(input.value) && TrueSums(w.hash, c.width, records, Pairs(input.value))
  {
    var input, n := Evaluate(w, SumSense().total, c.parent), c.width;
    assert input.Ok? && AllKeyed(input.value);
    var pairs := Pairs(input.value);
    PartsList(TotalSum, w.hash, n, n, pairs);
    EvaluateShuffle(w, SumSense().total, c, input.value);
    hide TrueSums, AllAlike, Listing, ReducedParts, Evaluate;
    var list := ReducedParts(TotalSum, w.hash, n, n, pairs);
    AlikeSums(w.hash, n, records, list, pairs);
  }

  /** Every job that sums by key and is answered with success is answered with the
      true sums over everything its input lineage yields. */
  lemma SumJobIsExact(
    w: World, maxStageAttempts: nat, maxTaskAttempts: nat, names: FunctionNames, runID: string,
    events: seq<Event>, id: JobID, result: Dag.JobResult)
    requires maxStageAttempts > 0 && maxTaskAttempts > 0 && KeepsIntegers(w)
    requires Legal(w, Start(w, maxStageAttempts, maxTaskAttempts, names, runID), events)
    requires var s := Run(w, Start(w, maxStageAttempts, maxTaskAttempts, names, runID), events);
             && id in s.dag.responses && Dag.Completed(result) in s.dag.responses[id] && id in s.submissions
             && var sub := s.submissions[id];
                sub.action.kind == ActionCollect
                && (Founded(sub.nodes, sub.action.targetRDD) ==> SumsByKey(w, ChainOf(sub.nodes, sub.action.targetRDD)))
    ensures var s := Run(w, Start(w, maxStageAttempts, maxTaskAttempts, names, runID), events);
            var sub := s.submissions[id];
            && Founded(sub.nodes, sub.action.targetRDD)
            && var c := ChainOf(sub.nodes, sub.action.targetRDD);
               && c.ShuffledRDD? && WellFormed(c)
               && var input := Evaluate(w, SumSense().total, c.parent);
                  input.Ok? && AllKeyed(input.value) && TrueSums(w.hash, c.width, result.records, Pairs(input.value))
  {
    hide *;
    var sub := Run(w, Start(w, maxStageAttempts, maxTaskAttempts, names, runID), events).submissions[id];
    SumIsCovered(w, sub);
    SuccessIsSequentialEvaluation(w, SumSense(), maxStageAttempts, maxTaskAttempts, names, runID, events, id, result);
    var c := ChainOf(sub.nodes, sub.action.targetRDD);
    SumShape(w, c);
    CollectAgrees(c, sub.action, result, Evaluate(w, SumSense().total, c).value);
    EvaluatedSums(w, c, result.records);
  }

  lemma SumIsCovered(w: World, sub: Submission)
    requires KeepsIntegers(w)
    requires Founded(sub.nodes, sub.action.targetRDD) ==> SumsByKey(w, ChainOf(sub.nodes, sub.action.targetRDD))
    ensures Covered(w, SumSense(), sub)
  {
    if Founded(sub.nodes, sub.action.targetRDD) { SumsAreLawful(w, ChainOf(sub.nodes, sub.action.targetRDD)); }
    hide Lawful, ChainOf, Founded;
  }

  lemma SumShape(w: World, c: Chain)
    requires SumsByKey(w, c) && WellFormed(c)
    ensures c.ShuffledRDD? && WellFormed(c.parent)
  {
  }

  lemma CollectAgrees(c: Chain, action: ActionSpec, result: Dag.JobResult, expected: seq<Record>)
    requires action.kind == ActionCollect && Answers(SumSense().meaning, c, action, result, expected)
    ensures Agrees(Plain, c, result.records, expected)
  {
    hide Agrees;
  }
}
