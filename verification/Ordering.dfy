/** The order of keys: Go compares strings byte by byte, which for UTF-8 is the
    lexicographic order of code points. `SortKeys` stands for sort.Strings. */
module Ordering {

  predicate Less(a: string, b: string) {
    |b| > 0 && (|a| == 0 || a[0] < b[0] || (a[0] == b[0] && Less(a[1..], b[1..])))
  }

  /** `a` is a proper beginning of `b`, or has the smaller character where they first differ. */
  predicate Precedes(a: string, b: string) {
    || (|a| < |b| && a == b[..|a|])
    || exists i :: 0 <= i < |a| && i < |b| && a[..i] == b[..i] && a[i] < b[i]
  }

  lemma {:induction false} LessExactly(a: string, b: string)
    ensures Less(a, b) <==> Precedes(a, b)
  {
    if |a| > 0 && |b| > 0 && a[0] == b[0] {
      LessExactly(a[1..], b[1..]);
      PrecedesTail(a, b);
    } else if |a| > 0 && |b| > 0 {
      assert a[..0] == b[..0];
      forall i | 0 < i < |a| && i < |b| ensures a[..i] != b[..i] { assert a[..i][0] == a[0] && b[..i][0] == b[0]; }
      if |a| < |b| { assert b[..|a|][0] == b[0]; }
    }
  }

  lemma PrecedesTail(a: string, b: string)
    requires |a| > 0 && |b| > 0 && a[0] == b[0]
    ensures Precedes(a, b) <==> Precedes(a[1..], b[1..])
  {
    var c, d := a[1..], b[1..];
    assert a == [a[0]] + c && b == [b[0]] + d;
    if |a| < |b| { assert b[..|a|] == [b[0]] + d[..|c|]; }
    forall i | 0 <= i < |c| && i < |d| ensures a[..i + 1] == b[..i + 1] <==> c[..i] == d[..i] {
      assert a[..i + 1] == [a[0]] + c[..i] && b[..i + 1] == [b[0]] + d[..i];
      if a[..i + 1] == b[..i + 1] { assert c[..i] == a[..i + 1][1..] && d[..i] == b[..i + 1][1..]; }
    }
    if i :| 0 <= i < |a| && i < |b| && a[..i] == b[..i] && a[i] < b[i] {
      assert i > 0;
      assert c[..i - 1] == d[..i - 1] && c[i - 1] < d[i - 1];
    }
    if i :| 0 <= i < |c| && i < |d| && c[..i] == d[..i] && c[i] < d[i] {
      assert a[..i + 1] == b[..i + 1] && a[i + 1] < b[i + 1];
    }
    if |c| < |d| && c == d[..|c|] { assert a == b[..|a|]; }
    if |a| < |b| && a == b[..|a|] { assert c == b[..|a|][1..] == d[..|c|]; }
  }

  predicate StrictlySorted(s: seq<string>) {
    forall i, j :: 0 <= i < j < |s| ==> Less(s[i], s[j])
  }

  lemma {:induction false} LessTotal(a: string, b: string)
    ensures a == b || Less(a, b) || Less(b, a)
  {
    if |a| > 0 && |b| > 0 && a[0] == b[0] {
      LessTotal(a[1..], b[1..]);
      assert a == [a[0]] + a[1..] && b == [b[0]] + b[1..];
    }
  }

  lemma {:induction false} LessIrreflexive(a: string)
    ensures !Less(a, a)
  {
    if |a| > 0 { LessIrreflexive(a[1..]); }
  }

  lemma {:induction false} LessTransitive(a: string, b: string, c: string)
    requires Less(a, b) && Less(b, c)
    ensures Less(a, c)
  {
    if |a| > 0 && a[0] == b[0] && b[0] == c[0] { LessTransitive(a[1..], b[1..], c[1..]); }
  }

  /** Insertion into a sorted sequence. The keys sorted here are those of a map, so none repeats. */
  function Insert(k: string, s: seq<string>): (r: seq<string>)
  {
    if s == [] then [k]
    else if k == s[0] then s
    else if Less(k, s[0]) then [k] + s
    else [s[0]] + Insert(k, s[1..])
  }

  function SortKeys(keys: seq<string>): (r: seq<string>)
  {
    if keys == [] then [] else Insert(keys[0], SortKeys(keys[1..]))
  }

  lemma {:induction false} InsertSorts(k: string, s: seq<string>)
    requires StrictlySorted(s)
    ensures StrictlySorted(Insert(k, s))
    ensures forall x :: x in Insert(k, s) <==> x == k || x in s
  {
    if s != [] && k != s[0] {
      var tail := s[1..];
      assert s == [s[0]] + tail;
      if Less(k, s[0]) {
        forall i | 0 <= i < |tail| ensures Less(k, tail[i]) { LessTransitive(k, s[0], s[i + 1]); }
      } else {
        LessTotal(k, s[0]);
        InsertSorts(k, tail);
        var r := Insert(k, tail);
        forall i | 0 <= i < |r| ensures Less(s[0], r[i]) {
          assert r[i] in r;
          if r[i] != k { var j :| 0 <= j < |tail| && tail[j] == r[i]; assert s[j + 1] == tail[j]; }
        }
      }
    }
  }

  lemma {:induction false} SortKeysSorts(keys: seq<string>)
    ensures StrictlySorted(SortKeys(keys))
    ensures forall x :: x in SortKeys(keys) <==> x in keys
  {
    if keys != [] {
      assert keys == [keys[0]] + keys[1..];
      SortKeysSorts(keys[1..]);
      InsertSorts(keys[0], SortKeys(keys[1..]));
    }
  }

  /** A set of keys has only one strictly sorted enumeration. */
  lemma {:induction false} SortedUnique(a: seq<string>, b: seq<string>)
    requires StrictlySorted(a) && StrictlySorted(b)
    requires forall x :: x in a <==> x in b
    ensures a == b
  {
    assert (|a| > 0 ==> a[0] in a) && (|b| > 0 ==> b[0] in b);
    if a != [] {
      assert a[0] in b;
      assert b[0] in a;
      var i :| 0 <= i < |b| && b[i] == a[0];
      var j :| 0 <= j < |a| && a[j] == b[0];
      if a[0] != b[0] {
        LessTransitive(a[0], b[0], a[0]);
        LessIrreflexive(a[0]);
      }
      forall x | x in a[1..] ensures x in b[1..] { TailMember(a, b, x); }
      forall x | x in b[1..] ensures x in a[1..] { TailMember(b, a, x); }
      SortedUnique(a[1..], b[1..]);
      assert a == [a[0]] + a[1..] && b == [b[0]] + b[1..];
    }
  }

  lemma TailMember(a: seq<string>, b: seq<string>, x: string)
    requires |a| > 0 && |b| > 0 && a[0] == b[0] && StrictlySorted(a)
    requires forall y :: y in a <==> y in b
    requires x in a[1..]
    ensures x in b[1..]
  {
    var i :| 1 <= i < |a| && a[i] == x;
    assert Less(a[0], x);
    LessIrreflexive(x);
    assert x in b;
    var j :| 0 <= j < |b| && b[j] == x;
    assert b[1..][j - 1] == x;
  }

  /** The keys of a set in ascending order. */
  ghost function SortedKeys(s: set<string>): (r: seq<string>)
    ensures StrictlySorted(r) && forall x :: x in r <==> x in s
  {
    if s == {} then []
    else
      var k :| k in s;
      var rest := SortedKeys(s - {k});
      InsertSorts(k, rest);
      Insert(k, rest)
  }

  /** Sorting any listing of a set enumerates it in the one ascending order. */
  lemma SortKeysIsSortedKeys(keys: seq<string>, s: set<string>)
    requires forall x :: x in keys <==> x in s
    ensures SortKeys(keys) == SortedKeys(s)
  {
    SortKeysSorts(keys);
    SortedUnique(SortKeys(keys), SortedKeys(s));
  }
}
