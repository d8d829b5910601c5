/** What the narrow steps of a pipeline do to a list, kind by kind, in terms of the
    registered function alone (executor/iterator.go, executor/pipeline.go). */
module StepMeaning {
  import opened Types
  import opened TextSource
  import opened Planner
  import opened Streams
  import opened Evaluation

  // ---------------------------------------------------------------- the first failure

  /** What a step makes of one record, and what it fails with. */
  lemma {:induction false} EachOutcome(step: StepFn, items: seq<Record>)
    ensures Each(step, items).Ok? <==> forall i :: 0 <= i < |items| ==> step(items[i]).Ok?
    ensures Each(step, items).Err? ==>
      exists j :: 0 <= j < |items| && step(items[j]).Err? && Each(step, items) == Err(step(items[j]).error)
                  && forall i :: 0 <= i < j ==> step(items[i]).Ok?
  {
    if items != [] && step(items[0]).Ok? {
      EachOutcome(step, items[1..]);
      if Each(step, items).Err? {
        var j :| 0 <= j < |items[1..]| && step(items[1..][j]).Err? && Each(step, items[1..]) == Err(step(items[1..][j]).error)
                 && forall i :: 0 <= i < j ==> step(items[1..][i]).Ok?;
        assert items[j + 1] == items[1..][j];
        forall i | 0 <= i < j + 1 ensures step(items[i]).Ok? { assert i > 0 ==> items[i] == items[1..][i - 1]; }
      } else {
        forall i | 0 <= i < |items| ensures step(items[i]).Ok? { assert i > 0 ==> items[i] == items[1..][i - 1]; }
      }
      if forall i :: 0 <= i < |items| ==> step(items[i]).Ok? {
        forall i | 0 <= i < |items[1..]| ensures step(items[1..][i]).Ok? { assert items[1..][i] == items[i + 1]; }
      }
    }
  }

  /** A step that drops nothing keeps the length and works place by place. */
  lemma {:induction false} EachPlace(step: StepFn, items: seq<Record>)
    requires Each(step, items).Ok? && forall i :: 0 <= i < |items| && step(items[i]).Ok? ==> step(items[i]).value.Some?
    ensures |Each(step, items).value| == |items|
    ensures forall i :: 0 <= i < |items| ==> step(items[i]) == Ok(Some(Each(step, items).value[i]))
  {
    if items != [] {
      assert forall i :: 0 <= i < |items[1..]| ==> items[1..][i] == items[i + 1];
      EachPlace(step, items[1..]);
      forall i | 0 <= i < |items| ensures step(items[i]) == Ok(Some(Each(step, items).value[i])) {
        assert i > 0 ==> items[i] == items[1..][i - 1];
      }
    }
  }

  /** The records a filter keeps, in order. */
  function Kept(f: Record -> Result<bool>, items: seq<Record>): seq<Record> {
    if items == [] then []
    else (if f(items[0]) == Ok(true) then [items[0]] else []) + Kept(f, items[1..])
  }

  /** Every record kept passed, and every record that passed is kept. */
  lemma {:induction false} KeptIsFilter(f: Record -> Result<bool>, items: seq<Record>)
    ensures multiset(Kept(f, items)) <= multiset(items)
    ensures forall r :: r in Kept(f, items) <==> r in items && f(r) == Ok(true)
  {
    if items != [] {
      KeptIsFilter(f, items[1..]);
      assert items == [items[0]] + items[1..];
    }
  }

  lemma {:induction false} EachFilter(f: Record -> Result<bool>, items: seq<Record>)
    requires Each(FilterStep(f), items).Ok?
    ensures Each(FilterStep(f), items).value == Kept(f, items)
  {
    if items != [] {
      EachFilter(f, items[1..]);
    }
  }

  // ---------------------------------------------------------------- in a lineage

  /** The function of each kind that a narrow node names. */
  predicate Calls(w: World, c: Chain) {
    c.NarrowRDD?
    && match c.operator.kind
       case OpMap => c.operator.functionID in w.functions.maps
       case OpFilter => c.operator.functionID in w.functions.filters
       case OpMapToPair => c.operator.functionID in w.functions.pairMaps
       case OpMapValues => c.operator.functionID in w.functions.valueMaps
       case _ => false
  }

  /** What the node's function says of one record. */
  function Judged(w: World, c: Chain, r: Record): Result<()>
    requires Calls(w, c)
  {
    var id := c.operator.functionID;
    if c.operator.kind == OpMap then Unit(w.functions.maps[id](r))
    else if c.operator.kind == OpFilter then Unit(w.functions.filters[id](r))
    else if c.operator.kind == OpMapToPair then Unit(w.functions.pairMaps[id](r))
    else if r.KeyValue? then Unit(w.functions.valueMaps[id](r.value))
    else Err(Permanent())
  }

  function Unit<T>(r: Result<T>): Result<()> {
    if r.Ok? then Ok(()) else Err(r.error)
  }

  /** What a node that drops nothing makes of one record. */
  predicate MakesOne(w: World, c: Chain, r: Record, out: Record)
    requires Calls(w, c) && c.operator.kind != OpFilter
  {
    var id := c.operator.functionID;
    if c.operator.kind == OpMap then w.functions.maps[id](r) == Ok(out)
    else if c.operator.kind == OpMapToPair then out.KeyValue? && w.functions.pairMaps[id](r) == Ok(KV(out.key, out.value))
    else r.KeyValue? && out.KeyValue? && out.key == r.key && w.functions.valueMaps[id](r.value) == Ok(out.value)
  }

  /** What a narrow node makes of the records it takes in. */
  predicate Makes(w: World, c: Chain, items: seq<Record>, out: seq<Record>)
    requires Calls(w, c)
  {
    var id := c.operator.functionID;
    if c.operator.kind == OpFilter then out == Kept(w.functions.filters[id], items)
    else |out| == |items| && forall i :: 0 <= i < |items| ==> MakesOne(w, c, items[i], out[i])
  }

  lemma StepJudges(w: World, c: Chain, r: Record)
    requires Calls(w, c)
    ensures StepOf(w.functions, c.operator).Ok?
    ensures var step := StepOf(w.functions, c.operator).value;
            Unit(step(r)) == Judged(w, c, r) && (c.operator.kind != OpFilter && step(r).Ok? ==> step(r).value.Some?)
  {
  }

  lemma UnknownFunction(w: World, c: Chain)
    requires c.NarrowRDD? && !Calls(w, c)
    ensures StepOf(w.functions, c.operator) == Err(Permanent())
  {
  }

  /** A map applies its function to each record, a filter keeps exactly the records
      that pass, in order, a map to pairs builds each pair from its record, and a map
      of values changes values under unchanged keys; a record that is no pair, and a
      function nobody registered, are permanent errors, and otherwise the first
      failure of the function is the node's. */
  lemma NarrowExactly(w: World, total: string -> ((Record, Record) -> Record), c: Chain, items: seq<Record>)
    requires WellFormed(c) && c.NarrowRDD? && Evaluate(w, total, c.parent) == Ok(items)
    ensures !Calls(w, c) ==> Evaluate(w, total, c) == Err(Permanent())
    ensures Calls(w, c) ==>
      if forall i :: 0 <= i < |items| ==> Judged(w, c, items[i]).Ok? then
        Evaluate(w, total, c).Ok? && Makes(w, c, items, Evaluate(w, total, c).value)
      else exists j :: 0 <= j < |items| && Evaluate(w, total, c).Err? && Judged(w, c, items[j]) == Err(Evaluate(w, total, c).error)
                       && forall i :: 0 <= i < j ==> Judged(w, c, items[i]).Ok?
  {
    if !Calls(w, c) {
      UnknownFunction(w, c);
    } else {
      hide Evaluate, Judged, Makes;
      StepKnown(w, c);
      var step := StepOf(w.functions, c.operator).value;
      EvaluateNarrow(w, total, c, items, step);
      forall i | 0 <= i < |items| ensures Unit(step(items[i])) == Judged(w, c, items[i]) { StepJudges(w, c, items[i]); }
      EachOutcome(step, items);
      if Each(step, items).Ok? { StepMakes(w, c, step, items); }
    }
  }

  lemma StepKnown(w: World, c: Chain)
    requires Calls(w, c)
    ensures StepOf(w.functions, c.operator).Ok?
  {
  }

  lemma StepMakes(w: World, c: Chain, step: StepFn, items: seq<Record>)
    requires Calls(w, c) && StepOf(w.functions, c.operator) == Ok(step) && Each(step, items).Ok?
    ensures Makes(w, c, items, Each(step, items).value)
  {
    var id := c.operator.functionID;
    if c.operator.kind == OpFilter {
      assert step == FilterStep(w.functions.filters[id]);
      EachFilter(w.functions.filters[id], items);
    } else {
      forall i | 0 <= i < |items| && step(items[i]).Ok? ensures step(items[i]).value.Some? { StepJudges(w, c, items[i]); }
      EachPlace(step, items);
      EachOutcome(step, items);
      hide Each;
      var out := Each(step, items).value;
      forall i | 0 <= i < |items| ensures MakesOne(w, c, items[i], out[i]) { StepPlace(w, c, step, items[i], out[i]); }
    }
  }

  lemma StepPlace(w: World, c: Chain, step: StepFn, r: Record, out: Record)
    requires Calls(w, c) && c.operator.kind != OpFilter
    requires StepOf(w.functions, c.operator) == Ok(step) && step(r) == Ok(Some(out))
    ensures MakesOne(w, c, r, out)
  {
    var id := c.operator.functionID;
    if c.operator.kind == OpMap {
      assert step == MapStep(w.functions.maps[id]);
    } else if c.operator.kind == OpMapToPair {
      assert step == PairStep(w.functions.pairMaps[id]);
      PairPlace(w.functions.pairMaps[id], r, out);
    } else {
      assert step == ValueStep(w.functions.valueMaps[id]);
    }
  }

  lemma PairPlace(f: Record -> Result<KV>, r: Record, out: Record)
    requires PairStep(f)(r) == Ok(Some(out))
    ensures out.KeyValue? && f(r) == Ok(KV(out.key, out.value))
  {
    assert f(r).Ok? && out == ToRecord(f(r).value);
  }

  // ---------------------------------------------------------------- sources

  /** A source yields the lines of its range as texts; a partition it does not have or a
      file that does not exist is a permanent failure. */
  lemma SourceExactly(w: World, path: string, p: int, n: int)
    ensures var s := OpenSource(w, path, p, n);
            if path in w.files && 0 <= p < n then
              s.Ok? && s.value.end.None? && |s.value.items| == |PartitionLines(w.files[path], p, n)|
              && forall i :: 0 <= i < |s.value.items| ==> s.value.items[i] == Text(PartitionLines(w.files[path], p, n)[i])
            else s == Err(Failure(FailurePermanent, None))
  {
    hide PartitionLines;
  }
}
