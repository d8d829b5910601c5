/** The meaning of a keyed shuffle: bucketing map output by hash, optionally
    after combining it, and reducing what each bucket collects. Nothing here
    runs; the executor's loops are proved against these functions. */
module Keyed {
  import opened Types
  import opened Ordering

  type ReduceFn = (Record, Record) -> Result<Record>

  // ---------------------------------------------------------------- folding by key

  function AddPair(f: ReduceFn, m: map<string, Record>, pair: KV): Result<map<string, Record>> {
    if pair.key in m then
      match f(m[pair.key], pair.value)
      case Ok(value) => Ok(m[pair.key := value])
      case Err(e) => Err(e)
    else Ok(m[pair.key := pair.value])
  }

  /** Folds the values of each key in order; the first failing call fails the fold. */
  function FoldByKey(f: ReduceFn, pairs: seq<KV>): Result<map<string, Record>> {
    if pairs == [] then Ok(map[])
    else
      match FoldByKey(f, pairs[..|pairs| - 1])
      case Ok(m) => AddPair(f, m, pairs[|pairs| - 1])
      case Err(e) => Err(e)
  }

  ghost function SortedPairs(m: map<string, Record>): (r: seq<KV>)
    ensures |r| == |SortedKeys(m.Keys)|
    ensures forall i :: 0 <= i < |r| ==> r[i].key == SortedKeys(m.Keys)[i] && r[i].key in m && r[i].value == m[r[i].key]
  {
    var keys := SortedKeys(m.Keys);
    assert forall i :: 0 <= i < |keys| ==> keys[i] in keys;
    seq(|keys|, i requires 0 <= i < |keys| => KV(keys[i], m[keys[i]]))
  }

  /** What a map task writes: its pairs, or one combined pair per key in key order. */
  ghost function MapWrites(f: ReduceFn, combine: bool, pairs: seq<KV>): Result<seq<KV>> {
    if !combine then Ok(pairs)
    else
      match FoldByKey(f, pairs)
      case Ok(m) => Ok(SortedPairs(m))
      case Err(e) => Err(e)
  }

  function Home(hash: string -> nat, n: nat, key: string): (r: nat)
    requires n > 0
    ensures r < n
  {
    hash(key) % n
  }

  function Bucket(hash: string -> nat, n: nat, p: nat, pairs: seq<KV>): seq<KV>
    requires n > 0
  {
    if pairs == [] then []
    else
      var last := pairs[|pairs| - 1];
      Bucket(hash, n, p, pairs[..|pairs| - 1]) + if Home(hash, n, last.key) == p then [last] else []
  }

  function Flatten<T>(parts: seq<seq<T>>): seq<T> {
    if parts == [] then [] else Flatten(parts[..|parts| - 1]) + parts[|parts| - 1]
  }

  /** The values of one key, in order. */
  function ValuesOf(pairs: seq<KV>, key: string): seq<Record> {
    if pairs == [] then []
    else
      var last := pairs[|pairs| - 1];
      ValuesOf(pairs[..|pairs| - 1], key) + if last.key == key then [last.value] else []
  }

  /** Storing a pair and reading it back may change how its value is
      represented (an integer comes back as a JSON number), never its key. */
  function Restored(norm: Record -> Record, pairs: seq<KV>): (r: seq<KV>)
    ensures |r| == |pairs|
    ensures forall i :: 0 <= i < |r| ==> r[i] == KV(pairs[i].key, norm(pairs[i].value))
  {
    if pairs == [] then []
    else
      var last := pairs[|pairs| - 1];
      Restored(norm, pairs[..|pairs| - 1]) + [KV(last.key, norm(last.value))]
  }

  /** The buckets one reduce task reads: one per map partition, in map order. */
  function ReduceBuckets(hash: string -> nat, n: nat, p: nat, norm: Record -> Record, writes: seq<seq<KV>>): (r: seq<seq<KV>>)
    requires n > 0
    ensures |r| == |writes|
    ensures forall i :: 0 <= i < |r| ==> r[i] == Restored(norm, Bucket(hash, n, p, writes[i]))
  {
    if writes == [] then []
    else ReduceBuckets(hash, n, p, norm, writes[..|writes| - 1]) + [Restored(norm, Bucket(hash, n, p, writes[|writes| - 1]))]
  }

  // ---------------------------------------------------------------- what reduce functions must satisfy

  function Fold<W>(g: (W, W) -> W, values: seq<W>): W
    requires |values| > 0
  {
    if |values| == 1 then values[0] else g(Fold(g, values[..|values| - 1]), values[|values| - 1])
  }

  ghost predicate Associative<W(!new)>(g: (W, W) -> W) {
    forall x, y, z :: g(g(x, y), z) == g(x, g(y, z))
  }

  /** Where the user function succeeds it computes `g` on what its arguments mean. */
  ghost predicate Computes<W>(f: ReduceFn, meaning: Record -> W, g: (W, W) -> W) {
    forall a, b :: f(a, b).Ok? ==> meaning(f(a, b).value) == g(meaning(a), meaning(b))
  }

  ghost predicate Keeps<W>(norm: Record -> Record, meaning: Record -> W) {
    forall a :: meaning(norm(a)) == meaning(a)
  }

  function Meanings<W>(meaning: Record -> W, values: seq<Record>): (r: seq<W>)
    ensures |r| == |values|
    ensures forall i :: 0 <= i < |r| ==> r[i] == meaning(values[i])
  {
    seq(|values|, i requires 0 <= i < |values| => meaning(values[i]))
  }

  // ---------------------------------------------------------------- lists of values

  lemma {:induction false} ValuesConcat(a: seq<KV>, b: seq<KV>, key: string)
    ensures ValuesOf(a + b, key) == ValuesOf(a, key) + ValuesOf(b, key)
  {
    if b == [] {
      assert a + b == a;
    } else {
      assert (a + b)[..|a + b| - 1] == a + b[..|b| - 1];
      ValuesConcat(a, b[..|b| - 1], key);
    }
  }

  lemma {:induction false} ValuesPresent(pairs: seq<KV>, key: string)
    ensures ValuesOf(pairs, key) != [] <==> exists i :: 0 <= i < |pairs| && pairs[i].key == key
  {
    if pairs != [] {
      var init := pairs[..|pairs| - 1];
      ValuesPresent(init, key);
      if i :| 0 <= i < |pairs| && pairs[i].key == key {
        assert i < |init| ==> init[i].key == key;
      }
      if i :| 0 <= i < |init| && init[i].key == key { assert pairs[i].key == key; }
    }
  }

  lemma {:induction false} ValuesOfBucket(hash: string -> nat, n: nat, p: nat, pairs: seq<KV>, key: string)
    requires n > 0
    ensures ValuesOf(Bucket(hash, n, p, pairs), key) == if Home(hash, n, key) == p then ValuesOf(pairs, key) else []
  {
    if pairs != [] {
      var last := pairs[|pairs| - 1];
      var init := Bucket(hash, n, p, pairs[..|pairs| - 1]);
      ValuesOfBucket(hash, n, p, pairs[..|pairs| - 1], key);
      ValuesConcat(init, if Home(hash, n, last.key) == p then [last] else [], key);
    }
  }

  lemma {:induction false} ValuesOfRestored(norm: Record -> Record, pairs: seq<KV>, key: string)
    ensures ValuesOf(Restored(norm, pairs), key) == Meanings(norm, ValuesOf(pairs, key))
  {
    if pairs != [] {
      var init := pairs[..|pairs| - 1];
      ValuesOfRestored(norm, init, key);
      assert Restored(norm, pairs)[..|pairs| - 1] == Restored(norm, init);
    }
  }

  /** In a listing with distinct keys each key has its own value only. */
  lemma {:induction false} ValuesOfDistinct(pairs: seq<KV>, i: nat)
    requires i < |pairs|
    requires forall a, b :: 0 <= a < b < |pairs| ==> pairs[a].key != pairs[b].key
    ensures ValuesOf(pairs, pairs[i].key) == [pairs[i].value]
  {
    var init := pairs[..|pairs| - 1];
    if i == |pairs| - 1 {
      ValuesPresent(init, pairs[i].key);
    } else {
      ValuesOfDistinct(init, i);
    }
  }

  lemma ValuesOfSortedPairs(m: map<string, Record>, key: string)
    ensures ValuesOf(SortedPairs(m), key) == if key in m then [m[key]] else []
  {
    var pairs := SortedPairs(m);
    var keys := SortedKeys(m.Keys);
    ValuesPresent(pairs, key);
    if key in m {
      var i :| 0 <= i < |keys| && keys[i] == key;
      forall a, b | 0 <= a < b < |pairs| ensures pairs[a].key != pairs[b].key { LessIrreflexive(keys[a]); }
      ValuesOfDistinct(pairs, i);
    }
  }

  // ---------------------------------------------------------------- one fold

  /** A successful fold holds, for each key present, the left fold of its values. */
  lemma {:induction false} FoldByKeyMeaning<W>(
    f: ReduceFn, meaning: Record -> W, g: (W, W) -> W, pairs: seq<KV>, key: string)
    requires Computes(f, meaning, g)
    requires FoldByKey(f, pairs).Ok?
    ensures key in FoldByKey(f, pairs).value <==> ValuesOf(pairs, key) != []
    ensures key in FoldByKey(f, pairs).value ==>
      meaning(FoldByKey(f, pairs).value[key]) == Fold(g, Meanings(meaning, ValuesOf(pairs, key)))
  {
    if pairs != [] {
      var init, last := pairs[..|pairs| - 1], pairs[|pairs| - 1];
      FoldByKeyMeaning(f, meaning, g, init, key);
      var before := Meanings(meaning, ValuesOf(init, key));
      var after := Meanings(meaning, ValuesOf(pairs, key));
      var m := FoldByKey(f, init).value;
      assert FoldByKey(f, pairs) == AddPair(f, m, last);
      if last.key == key {
        assert after == before + [meaning(last.value)];
        FoldLast(g, before, meaning(last.value));
        assert key in m ==> f(m[key], last.value).Ok? && before != [];
      } else {
        assert after == before;
      }
    }
  }

  lemma FoldLast<W>(g: (W, W) -> W, values: seq<W>, last: W)
    ensures Fold(g, values + [last]) == if values == [] then last else g(Fold(g, values), last)
  {
    assert (values + [last])[..|values|] == values;
  }

  /** A total reduce function never fails a fold. */
  lemma {:induction false} FoldByKeyTotal(f: ReduceFn, pairs: seq<KV>)
    requires forall a, b :: f(a, b).Ok?
    ensures FoldByKey(f, pairs).Ok?
  {
    if pairs != [] { FoldByKeyTotal(f, pairs[..|pairs| - 1]); }
  }

  /** Folding two stretches and then their results is folding them together. */
  lemma {:induction false} FoldJoin<W(!new)>(g: (W, W) -> W, a: seq<W>, b: seq<W>)
    requires Associative(g) && |a| > 0 && |b| > 0
    ensures Fold(g, a + b) == g(Fold(g, a), Fold(g, b))
  {
    assert (a + b)[..|a + b| - 1] == a + b[..|b| - 1];
    if |b| == 1 {
      assert a + [] == a;
    } else {
      FoldJoin(g, a, b[..|b| - 1]);
      assert Fold(g, b) == g(Fold(g, b[..|b| - 1]), b[|b| - 1]);
    }
  }

  // ---------------------------------------------------------------- the whole shuffle

  /** Two lists of values are both empty or fold to the same meaning. */
  ghost predicate SameFold<W>(meaning: Record -> W, g: (W, W) -> W, r: seq<Record>, v: seq<Record>) {
    (r == [] <==> v == []) && (r != [] ==> Fold(g, Meanings(meaning, r)) == Fold(g, Meanings(meaning, v)))
  }

  /** One map task's writes carry, per key, either the key's values or their one combined value. */
  lemma WritesMeaning<W>(a: ReduceFn, meaning: Record -> W, g: (W, W) -> W, combine: bool, pairs: seq<KV>, key: string)
    requires combine ==> Computes(a, meaning, g)
    requires MapWrites(a, combine, pairs).Ok?
    ensures SameFold(meaning, g, ValuesOf(MapWrites(a, combine, pairs).value, key), ValuesOf(pairs, key))
  {
    if combine {
      var m := FoldByKey(a, pairs).value;
      FoldByKeyMeaning(a, meaning, g, pairs, key);
      ValuesOfSortedPairs(m, key);
    }
  }

  lemma BucketMeaning<W>(
    a: ReduceFn, meaning: Record -> W, g: (W, W) -> W, combine: bool, norm: Record -> Record,
    hash: string -> nat, n: nat, p: nat, part: seq<KV>, writes: seq<KV>, key: string)
    requires (combine ==> Computes(a, meaning, g)) && Keeps(norm, meaning) && n > 0
    requires MapWrites(a, combine, part) == Ok(writes)
    ensures var r := ValuesOf(Restored(norm, Bucket(hash, n, p, writes)), key);
            if Home(hash, n, key) == p then SameFold(meaning, g, r, ValuesOf(part, key)) else r == []
  {
    WritesMeaning(a, meaning, g, combine, part, key);
    ValuesOfBucket(hash, n, p, writes, key);
    ValuesOfRestored(norm, Bucket(hash, n, p, writes), key);
    var w := ValuesOf(writes, key);
    assert Meanings(meaning, Meanings(norm, w)) == Meanings(meaning, w);
  }

  lemma JoinSameFold<W(!new)>(meaning: Record -> W, g: (W, W) -> W,
                              r0: seq<Record>, r1: seq<Record>, v0: seq<Record>, v1: seq<Record>)
    requires Associative(g)
    requires SameFold(meaning, g, r0, v0) && SameFold(meaning, g, r1, v1)
    ensures SameFold(meaning, g, r0 + r1, v0 + v1)
  {
    assert Meanings(meaning, r0 + r1) == Meanings(meaning, r0) + Meanings(meaning, r1);
    assert Meanings(meaning, v0 + v1) == Meanings(meaning, v0) + Meanings(meaning, v1);
    if r0 == [] {
      assert r0 + r1 == r1 && v0 + v1 == v1;
    } else if r1 == [] {
      assert r0 + r1 == r0 && v0 + v1 == v0;
    } else {
      FoldJoin(g, Meanings(meaning, r0), Meanings(meaning, r1));
      FoldJoin(g, Meanings(meaning, v0), Meanings(meaning, v1));
    }
  }

  /** The values one reduce task sees for a key of its own fold to what all of
      the key's values fold to; it sees none of any other key. */
  lemma {:induction false} ReduceInputMeaning<W(!new)>(
    a: ReduceFn, meaning: Record -> W, g: (W, W) -> W, combine: bool, norm: Record -> Record,
    hash: string -> nat, n: nat, p: nat, parts: seq<seq<KV>>, writes: seq<seq<KV>>, key: string)
    requires (combine ==> Computes(a, meaning, g)) && Associative(g) && Keeps(norm, meaning) && n > 0
    requires |writes| == |parts|
    requires forall i :: 0 <= i < |parts| ==> MapWrites(a, combine, parts[i]) == Ok(writes[i])
    ensures var r := ValuesOf(Flatten(ReduceBuckets(hash, n, p, norm, writes)), key);
            if Home(hash, n, key) == p then SameFold(meaning, g, r, ValuesOf(Flatten(parts), key)) else r == []
  {
    if parts != [] {
      var k := |parts| - 1;
      ReduceInputMeaning(a, meaning, g, combine, norm, hash, n, p, parts[..k], writes[..k], key);
      BucketMeaning(a, meaning, g, combine, norm, hash, n, p, parts[k], writes[k], key);
      var before, last := ReduceBuckets(hash, n, p, norm, writes[..k]), Restored(norm, Bucket(hash, n, p, writes[k]));
      FlattenLast(ReduceBuckets(hash, n, p, norm, writes), before, last);
      ValuesConcat(Flatten(parts[..k]), parts[k], key);
      ValuesConcat(Flatten(before), last, key);
      if Home(hash, n, key) == p {
        JoinSameFold(meaning, g, ValuesOf(Flatten(before), key), ValuesOf(last, key),
                     ValuesOf(Flatten(parts[..k]), key), ValuesOf(parts[k], key));
      }
    }
  }

  lemma FlattenLast<T>(all: seq<seq<T>>, before: seq<seq<T>>, last: seq<T>)
    requires all == before + [last]
    ensures Flatten(all) == Flatten(before) + last
  {
    assert all[..|all| - 1] == before;
  }

  /** What reduce task `p` emits when it succeeds. */
  ghost function ReduceTask(f: ReduceFn, hash: string -> nat, n: nat, p: nat, norm: Record -> Record, writes: seq<seq<KV>>):
    Result<seq<KV>>
    requires n > 0
  {
    match FoldByKey(f, Flatten(ReduceBuckets(hash, n, p, norm, writes)))
    case Ok(m) => Ok(SortedPairs(m))
    case Err(e) => Err(e)
  }

  /** Shuffling keeps meaning: whatever the map partitions, whether or not they are
      combined first, a reduce task that succeeds emits exactly the keys whose home
      it is, in ascending order, each once, with a value meaning the left fold of all
      the key's values in (map partition, record) order. The map side may combine
      with another function, as long as that computes the same on meanings. */
  lemma ShuffleKeepsMeaning<W(!new)>(
    a: ReduceFn, f: ReduceFn, meaning: Record -> W, g: (W, W) -> W, combine: bool, norm: Record -> Record,
    hash: string -> nat, n: nat, p: nat, parts: seq<seq<KV>>, writes: seq<seq<KV>>, out: seq<KV>)
    requires (combine ==> Computes(a, meaning, g)) && Computes(f, meaning, g) && Associative(g) && Keeps(norm, meaning) && p < n
    requires |writes| == |parts|
    requires forall i :: 0 <= i < |parts| ==> MapWrites(a, combine, parts[i]) == Ok(writes[i])
    requires ReduceTask(f, hash, n, p, norm, writes) == Ok(out)
    ensures forall i, j :: 0 <= i < j < |out| ==> Precedes(out[i].key, out[j].key)
    ensures forall key :: Emits(out, key) <==> hash(key) % n == p && ValuesOf(Flatten(parts), key) != []
    ensures FoldsOf(meaning, g, parts, out)
  {
    var m := FoldByKey(f, Flatten(ReduceBuckets(hash, n, p, norm, writes))).value;
    forall key
      ensures key in m <==> Home(hash, n, key) == p && ValuesOf(Flatten(parts), key) != []
      ensures key in m ==> meaning(m[key]) == Fold(g, Meanings(meaning, ValuesOf(Flatten(parts), key)))
    {
      ReduceKeyMeaning(a, f, meaning, g, combine, norm, hash, n, p, parts, writes, key);
    }
    SortedPairsEmit(m);
    forall i, j | 0 <= i < j < |out| ensures Precedes(out[i].key, out[j].key) { LessExactly(out[i].key, out[j].key); }
  }

  /** Each value emitted means the left fold of its key's values over all map partitions. */
  ghost predicate FoldsOf<W>(meaning: Record -> W, g: (W, W) -> W, parts: seq<seq<KV>>, out: seq<KV>) {
    forall i :: 0 <= i < |out| ==>
      ValuesOf(Flatten(parts), out[i].key) != [] &&
      meaning(out[i].value) == Fold(g, Meanings(meaning, ValuesOf(Flatten(parts), out[i].key)))
  }

  ghost predicate Emits(out: seq<KV>, key: string) {
    exists i :: 0 <= i < |out| && out[i].key == key
  }

  lemma SortedPairsEmit(m: map<string, Record>)
    ensures forall key :: Emits(SortedPairs(m), key) <==> key in m
    ensures forall i, j :: 0 <= i < j < |SortedPairs(m)| ==> Less(SortedPairs(m)[i].key, SortedPairs(m)[j].key)
  {
    var out, keys := SortedPairs(m), SortedKeys(m.Keys);
    forall key ensures Emits(out, key) <==> key in m {
      if key in m {
        assert key in keys;
        var i :| 0 <= i < |keys| && keys[i] == key;
        assert out[i].key == key;
      }
    }
  }

  lemma ReduceKeyMeaning<W(!new)>(
    a: ReduceFn, f: ReduceFn, meaning: Record -> W, g: (W, W) -> W, combine: bool, norm: Record -> Record,
    hash: string -> nat, n: nat, p: nat, parts: seq<seq<KV>>, writes: seq<seq<KV>>, key: string)
    requires (combine ==> Computes(a, meaning, g)) && Computes(f, meaning, g) && Associative(g) && Keeps(norm, meaning) && p < n
    requires |writes| == |parts|
    requires forall i :: 0 <= i < |parts| ==> MapWrites(a, combine, parts[i]) == Ok(writes[i])
    requires FoldByKey(f, Flatten(ReduceBuckets(hash, n, p, norm, writes))).Ok?
    ensures var m := FoldByKey(f, Flatten(ReduceBuckets(hash, n, p, norm, writes))).value;
            var v := ValuesOf(Flatten(parts), key);
            && (key in m <==> Home(hash, n, key) == p && v != [])
            && (key in m ==> meaning(m[key]) == Fold(g, Meanings(meaning, v)))
  {
    FoldByKeyMeaning(f, meaning, g, Flatten(ReduceBuckets(hash, n, p, norm, writes)), key);
    ReduceInputMeaning(a, meaning, g, combine, norm, hash, n, p, parts, writes, key);
  }

  /** With a total reduce function every task of the shuffle succeeds. */
  lemma TotalShuffleSucceeds(f: ReduceFn, combine: bool, pairs: seq<KV>, hash: string -> nat, n: nat, p: nat,
                             norm: Record -> Record, writes: seq<seq<KV>>)
    requires (forall a, b :: f(a, b).Ok?) && n > 0
    ensures MapWrites(f, combine, pairs).Ok? && ReduceTask(f, hash, n, p, norm, writes).Ok?
  {
    FoldByKeyTotal(f, pairs);
    FoldByKeyTotal(f, Flatten(ReduceBuckets(hash, n, p, norm, writes)));
  }

  /** Over all reduce tasks each key appears in exactly one output, at one place. */
  lemma KeyEmittedOnce(
    a: ReduceFn, f: ReduceFn, combine: bool, norm: Record -> Record, hash: string -> nat, n: nat,
    parts: seq<seq<KV>>, writes: seq<seq<KV>>, outs: seq<seq<KV>>, p: nat, i: nat, q: nat, j: nat)
    requires |outs| == n && n > 0 && |writes| == |parts|
    requires forall k :: 0 <= k < |parts| ==> MapWrites(a, combine, parts[k]) == Ok(writes[k])
    requires forall k :: 0 <= k < n ==> ReduceTask(f, hash, n, k, norm, writes) == Ok(outs[k])
    requires p < n && q < n && i < |outs[p]| && j < |outs[q]|
    requires outs[p][i].key == outs[q][j].key
    ensures p == q && i == j
  {
    var none := (r: Record) => ();
    var unit := (x: (), y: ()) => ();
    ShuffleKeepsMeaning(a, f, none, unit, combine, norm, hash, n, p, parts, writes, outs[p]);
    ShuffleKeepsMeaning(a, f, none, unit, combine, norm, hash, n, q, parts, writes, outs[q]);
    LessIrreflexive(outs[p][i].key);
    LessExactly(outs[p][i].key, outs[p][i].key);
  }
}
