/** The bounded integer sum of the example jobs (internal/examplefuncs/functions.go). */
module ExampleFunctions {
  import opened Types
  import opened Keyed
  import opened Evaluation

  const MAX_INT64 := 0x7FFF_FFFF_FFFF_FFFF
  const MIN_INT64 := -0x8000_0000_0000_0000

  predicate InInt64(n: int) { MIN_INT64 <= n <= MAX_INT64 }

  /** The integer a record stands for: a machine integer, or a JSON number that is one. */
  function IntegerValue(r: Record): Option<int> {
    match r
    case Integer(n) => if InInt64(n) then Some(n) else None
    case JsonNumber(Some(n)) => if InInt64(n) then Some(n) else None
    case _ => None
  }

  /** sum_int: an error unless both are integers and the sum fits 64 bits. The test
      compares against the limit less one operand, so that nothing can wrap. */
  function SumInt(left: Record, right: Record): Result<Record> {
    match (IntegerValue(left), IntegerValue(right))
    case (Some(l), Some(r)) =>
      if (r > 0 && l > MAX_INT64 - r) || (r < 0 && l < MIN_INT64 - r) then Err(Permanent()) else Ok(Integer(l + r))
    case _ => Err(Permanent())
  }

  /** The overflow test is exact: the sum is computed just when it is representable. */
  lemma SumIntExactly(left: Record, right: Record)
    ensures SumInt(left, right).Ok? <==>
            IntegerValue(left).Some? && IntegerValue(right).Some? && InInt64(IntegerValue(left).value + IntegerValue(right).value)
    ensures SumInt(left, right).Ok? ==>
            IntegerValue(SumInt(left, right).value) == Some(IntegerValue(left).value + IntegerValue(right).value)
  {
  }

  /** As a partial function the bounded sum is not associative. */
  lemma SumIntIsNotAssociative()
    ensures var a, b, c := Integer(MAX_INT64), Integer(1), Integer(-1);
            SumInt(a, b).Err? && SumInt(b, c).Ok? && SumInt(a, SumInt(b, c).value).Ok?
  {
    assert SumInt(Integer(1), Integer(-1)) == Ok(Integer(0));
  }

  // ---------------------------------------------------------------- sums over a shuffle

  /** The integer a record stands for, whatever its size: what storage must keep. */
  function IntegerOf(r: Record): Option<int> {
    match r
    case Integer(n) => Some(n)
    case JsonNumber(n) => n
    case _ => None
  }

  function AddValues(a: Option<int>, b: Option<int>): Option<int> {
    if a.Some? && b.Some? then Some(a.value + b.value) else None
  }

  function Sum(values: seq<Record>): int {
    if values == [] then 0
    else
      var last := IntegerOf(values[|values| - 1]);
      Sum(values[..|values| - 1]) + if last.Some? then last.value else 0
  }

  predicate AllIntegers(values: seq<Record>) {
    forall i :: 0 <= i < |values| ==> IntegerOf(values[i]).Some?
  }

  lemma {:induction false} FoldIsSum(values: seq<Record>)
    requires values != []
    ensures Fold(AddValues, Meanings(IntegerOf, values)) == if AllIntegers(values) then Some(Sum(values)) else None
  {
    var init := values[..|values| - 1];
    assert Meanings(IntegerOf, values)[..|values| - 1] == Meanings(IntegerOf, init);
    if |values| > 1 {
      FoldIsSum(init);
    } else {
      assert Sum(init) == 0;
    }
  }

  lemma SumIntComputes()
    ensures Computes(SumInt, IntegerOf, AddValues) && Associative(AddValues)
  {
    forall a, b | SumInt(a, b).Ok? ensures IntegerOf(SumInt(a, b).value) == AddValues(IntegerOf(a), IntegerOf(b)) {
      SumIntExactly(a, b);
    }
  }

  /** However the fold is split between map and reduce tasks, a run of sum_int that
      succeeds gives each key the true sum of all its values: never wrapped, never
      partial, with map-side combine on or off, through storage or not. */
  lemma BoundedSumsAreExact(
    combine: bool, norm: Record -> Record, hash: string -> nat, n: nat, p: nat, parts: seq<seq<KV>>, writes: seq<seq<KV>>,
    out: seq<KV>, i: nat)
    requires Keeps(norm, IntegerOf) && p < n && |writes| == |parts| && i < |out|
    requires forall k :: 0 <= k < |parts| ==> MapWrites(SumInt, combine, parts[k]) == Ok(writes[k])
    requires ReduceTask(SumInt, hash, n, p, norm, writes) == Ok(out)
    ensures var values := ValuesOf(Flatten(parts), out[i].key);
            IntegerOf(out[i].value) == if AllIntegers(values) then Some(Sum(values)) else None
  {
    hide *;
    SumIntComputes();
    ShuffleKeepsMeaning(SumInt, SumInt, IntegerOf, AddValues, combine, norm, hash, n, p, parts, writes, out);
    FoldIsSum(ValuesOf(Flatten(parts), out[i].key));
  }

  // ---------------------------------------------------------------- end to end

  /** All that matters of a value that is summed. */
  function Plain(r: Record): Record {
    match IntegerOf(r)
    case Some(n) => Integer(n)
    case None => Other(0)
  }

  /** The total sum that sum_int is part of. */
  function TotalSum(a: Record, b: Record): Record {
    match (IntegerOf(a), IntegerOf(b))
    case (Some(l), Some(r)) => Integer(l + r)
    case _ => Other(0)
  }

  /** Storage that returns every integer as a JSON number, as the record decoder does. */
  function AsNumbers(r: Record): Record {
    if r.Integer? then JsonNumber(Some(r.n)) else r
  }

  /** The bounded sum meets what the end-to-end theorem asks of a reduce function,
      and storage as JSON numbers what it asks of storage. */
  lemma SumIntIsLawful()
    ensures Reduces(SumInt, Plain, TotalSum) && Keeps(AsNumbers, Plain)
  {
    forall x, y, z ensures TotalSum(TotalSum(x, y), z) == TotalSum(x, TotalSum(y, z)) { TotalSumAssociates(x, y, z); }
    forall a, b ensures Plain(TotalSum(a, b)) == TotalSum(Plain(a), Plain(b)) { TotalSumPreserves(a, b); }
    forall a, b | SumInt(a, b).Ok? ensures Plain(SumInt(a, b).value) == TotalSum(Plain(a), Plain(b)) { SumIntIsTotalSum(a, b); }
    forall a ensures Plain(AsNumbers(a)) == Plain(a) { NumbersKeepMeaning(a); }
    hide SumInt, TotalSum, Plain, AsNumbers;
    assert Associative(TotalSum) && Preserves(Plain, TotalSum) && Computes(SumInt, Plain, TotalSum);
    assert Keeps(AsNumbers, Plain);
  }

  lemma TotalSumAssociates(x: Record, y: Record, z: Record)
    ensures TotalSum(TotalSum(x, y), z) == TotalSum(x, TotalSum(y, z))
  {
    var sum := AddValues(AddValues(IntegerOf(x), IntegerOf(y)), IntegerOf(z));
    assert TotalSum(TotalSum(x, y), z) == if sum.Some? then Integer(sum.value) else Other(0);
    assert TotalSum(x, TotalSum(y, z)) == if sum.Some? then Integer(sum.value) else Other(0);
  }

  lemma TotalSumPreserves(a: Record, b: Record)
    ensures Plain(TotalSum(a, b)) == TotalSum(Plain(a), Plain(b))
  {
  }

  lemma SumIntIsTotalSum(a: Record, b: Record)
    requires SumInt(a, b).Ok?
    ensures Plain(SumInt(a, b).value) == TotalSum(Plain(a), Plain(b))
  {
    SumIntExactly(a, b);
  }

  lemma NumbersKeepMeaning(a: Record)
    ensures Plain(AsNumbers(a)) == Plain(a)
  {
  }

  lemma {:induction false} TotalSumIsSum(values: seq<Record>)
    requires values != []
    ensures IntegerOf(Fold(TotalSum, values)) == if AllIntegers(values) then Some(Sum(values)) else None
  {
    var init := values[..|values| - 1];
    if |values| > 1 {
      TotalSumIsSum(init);
    } else {
      assert Sum(init) == 0;
    }
  }
}
