/** What a reduction yields as a list: every key once, by reduce partition and then by
    key, with the fold of its values. */
module ReduceMeaning {
  import opened Types
  import opened Ordering
  import opened Planner
  import opened Keyed
  import opened Streams
  import opened Evaluation

  predicate Present(list: seq<KV>, key: string) {
    exists i :: 0 <= i < |list| && list[i].key == key
  }

  /** By reduce partition, and within one by key. */
  predicate InPlace(hash: string -> nat, n: nat, a: string, b: string)
    requires n > 0
  {
    hash(a) % n < hash(b) % n || (hash(a) % n == hash(b) % n && Precedes(a, b))
  }

  /** The list holds each key whose partition is in the range once, with the fold of
      its values, by partition and then by key. */
  ghost predicate Listing(g: (Record, Record) -> Record, hash: string -> nat, n: nat, lo: nat, hi: nat, pairs: seq<KV>, list: seq<KV>)
    requires n > 0
  {
    && (forall key :: Present(list, key) <==> lo <= hash(key) % n < hi && ValuesOf(pairs, key) != [])
    && (forall i :: 0 <= i < |list| ==>
          ValuesOf(pairs, list[i].key) != [] && list[i].value == Fold(g, ValuesOf(pairs, list[i].key)))
    && (forall i, j :: 0 <= i < j < |list| ==> InPlace(hash, n, list[i].key, list[j].key))
  }

  lemma PartLists(g: (Record, Record) -> Record, hash: string -> nat, n: nat, p: nat, pairs: seq<KV>)
    requires n > 0
    ensures Listing(g, hash, n, p, p + 1, pairs, ReducedPart(g, hash, n, p, pairs))
  {
    var m := ReducedMap(g, hash, n, p, pairs);
    var part := SortedPairs(m);
    SortedPairsEmit(m);
    forall key ensures Present(part, key) <==> key in m { assert Emits(part, key) <==> key in m; }
    forall i, j | 0 <= i < j < |part| ensures InPlace(hash, n, part[i].key, part[j].key) {
      LessExactly(part[i].key, part[j].key);
      PresentAt(part, i);
      PresentAt(part, j);
    }
  }

  lemma {:induction false} PartsList(g: (Record, Record) -> Record, hash: string -> nat, n: nat, k: nat, pairs: seq<KV>)
    requires n > 0
    ensures Listing(g, hash, n, 0, k, pairs, ReducedParts(g, hash, n, k, pairs))
  {
    hide *;
    PartsStep(g, hash, n, k, pairs);
    if k == 0 {
      NoListing(g, hash, n, pairs);
    } else {
      PartsList(g, hash, n, k - 1, pairs);
      PartLists(g, hash, n, k - 1, pairs);
      ListingsJoin(g, hash, n, 0, k - 1, k, pairs, ReducedParts(g, hash, n, k - 1, pairs), ReducedPart(g, hash, n, k - 1, pairs));
    }
  }

  lemma PartsStep(g: (Record, Record) -> Record, hash: string -> nat, n: nat, k: nat, pairs: seq<KV>)
    requires n > 0
    ensures ReducedParts(g, hash, n, k, pairs) ==
            if k == 0 then [] else ReducedParts(g, hash, n, k - 1, pairs) + ReducedPart(g, hash, n, k - 1, pairs)
  {
    hide ReducedPart;
  }

  lemma NoListing(g: (Record, Record) -> Record, hash: string -> nat, n: nat, pairs: seq<KV>)
    requires n > 0
    ensures Listing(g, hash, n, 0, 0, pairs, [])
  {
  }

  lemma ListingsJoin(g: (Record, Record) -> Record, hash: string -> nat, n: nat, lo: nat, mid: nat, hi: nat, pairs: seq<KV>,
                     a: seq<KV>, b: seq<KV>)
    requires n > 0 && lo <= mid <= hi && Listing(g, hash, n, lo, mid, pairs, a) && Listing(g, hash, n, mid, hi, pairs, b)
    ensures Listing(g, hash, n, lo, hi, pairs, a + b)
  {
    hide ValuesOf, Fold, Present, Precedes;
    var list := a + b;
    forall key ensures Present(list, key) <==> Present(a, key) || Present(b, key) { PresentJoin(a, b, key); }
    forall i, j | 0 <= i < j < |list| ensures InPlace(hash, n, list[i].key, list[j].key) {
      if i < |a| <= j {
        PresentAt(a, i);
        PresentAt(b, j - |a|);
      }
    }
  }

  lemma PresentAt(list: seq<KV>, i: nat)
    requires i < |list|
    ensures Present(list, list[i].key)
  {
  }

  lemma PresentJoin(a: seq<KV>, b: seq<KV>, key: string)
    ensures Present(a + b, key) <==> Present(a, key) || Present(b, key)
  {
    var list := a + b;
    if i :| 0 <= i < |a| && a[i].key == key { assert list[i].key == key; }
    if i :| 0 <= i < |b| && b[i].key == key { assert list[|a| + i].key == key; }
  }

  /** In a listing no key comes twice. */
  lemma ListedOnce(g: (Record, Record) -> Record, hash: string -> nat, n: nat, lo: nat, hi: nat, pairs: seq<KV>, list: seq<KV>)
    requires n > 0 && Listing(g, hash, n, lo, hi, pairs, list)
    ensures forall i, j :: 0 <= i < j < |list| ==> list[i].key != list[j].key
  {
    hide Precedes;
    forall i, j | 0 <= i < j < |list| ensures list[i].key != list[j].key {
      LessIrreflexive(list[i].key);
      LessExactly(list[i].key, list[i].key);
    }
  }

  /** The sequential evaluation of a reduction lists every key of its input once, by
      hash partition and then by key, with the left fold of all its values. */
  lemma ReductionExactly(w: World, total: string -> ((Record, Record) -> Record), c: Chain, items: seq<Record>)
    requires WellFormed(c) && c.ShuffledRDD? && Evaluate(w, total, c.parent) == Ok(items)
    ensures Evaluate(w, total, c).Ok? <==> forall i :: 0 <= i < |items| ==> items[i].KeyValue?
    ensures AllKeyed(items) ==>
      exists list :: Evaluate(w, total, c) == Ok(ToRecords(list))
                     && Listing(total(c.operator.functionID), w.hash, c.width, 0, c.width, Pairs(items), list)
  {
    if AllKeyed(items) {
      PartsList(total(c.operator.functionID), w.hash, c.width, c.width, Pairs(items));
      EvaluateShuffle(w, total, c, items);
    }
  }
}
