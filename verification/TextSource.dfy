/** Byte-range splitting of a text file (executor/text_source.go). A byte is
    modelled as a character; the file does not change while it is read. */
module TextSource {
  import opened Types

  // ---------------------------------------------------------------- the lines of a file

  /** The offset just after the first newline at or after `pos`, or the end of the file. */
  function LineEnd(file: string, pos: nat): (r: nat)
    requires pos <= |file|
    ensures pos <= r <= |file|
    ensures pos < |file| ==> pos < r
    decreases |file| - pos
  {
    if pos == |file| then pos
    else if file[pos] == '\n' then pos + 1
    else LineEnd(file, pos + 1)
  }

  function TrimSuffix(s: string, c: char): string {
    if |s| > 0 && s[|s| - 1] == c then s[..|s| - 1] else s
  }

  /** A line without its newline and one carriage return. */
  function Trim(line: string): string {
    TrimSuffix(TrimSuffix(line, '\n'), '\r')
  }

  /** The lines that start in [pos, limit), where `pos` is the start of a line. */
  function LinesBetween(file: string, pos: nat, limit: nat): seq<string>
    requires pos <= |file| && limit <= |file|
    decreases |file| - pos
  {
    if pos >= limit then []
    else
      var next := LineEnd(file, pos);
      [Trim(file[pos..next])] + LinesBetween(file, next, limit)
  }

  function Lines(file: string): seq<string> {
    LinesBetween(file, 0, |file|)
  }

  // ---------------------------------------------------------------- partitions

  predicate LineStart(file: string, pos: int) {
    0 <= pos <= |file| && (pos == 0 || pos == |file| || file[pos - 1] == '\n')
  }

  /** Where the partition that owns offsets from `start` on begins to read. */
  function FirstLine(file: string, start: nat): (r: nat)
    requires start <= |file|
    ensures r <= |file|
  {
    if start == 0 || file[start - 1] == '\n' then start else LineEnd(file, start)
  }

  function Boundary(size: nat, partition: nat, numPartitions: nat): (r: nat)
    requires 0 < numPartitions && partition <= numPartitions
    ensures r <= size
  {
    assert size * partition <= size * numPartitions;
    DivBound(size * partition, numPartitions, size);
    size * partition / numPartitions
  }

  lemma {:induction false} MulStep(x: nat, y: nat, n: nat)
    ensures x < y ==> x * n + n <= y * n
    decreases y
  {
    if x < y {
      assert y * n == (y - 1) * n + n;
      if x < y - 1 { MulStep(x, y - 1, n); }
    }
  }

  lemma DivBound(a: nat, n: nat, size: nat)
    requires n > 0 && a <= size * n
    ensures a / n <= size
  {
    MulStep(size, a / n, n);
  }

  lemma DivMonotone(a: nat, b: nat, n: nat)
    requires n > 0 && a <= b
    ensures a / n <= b / n
  {
    MulStep(b / n, a / n, n);
    assert a == (a / n) * n + a % n && b == (b / n) * n + b % n;
  }

  lemma BoundaryMonotone(size: nat, p: nat, n: nat)
    requires p < n
    ensures Boundary(size, p, n) <= Boundary(size, p + 1, n)
  {
    assert size * p <= size * (p + 1);
    DivMonotone(size * p, size * (p + 1), n);
  }

  lemma BoundaryEnds(size: nat, n: nat)
    requires n > 0
    ensures Boundary(size, 0, n) == 0 && Boundary(size, n, n) == size
  {
    assert size * 0 == 0;
    DivBound(size * n, n, size);
    MulStep(size * n / n, size, n);
    assert size * n == (size * n / n) * n + size * n % n;
  }

  /** The boundary is the offset in proportion to the partition, rounded down. */
  lemma BoundaryExactly(size: nat, p: nat, n: nat)
    requires 0 < n && p <= n
    ensures Boundary(size, p, n) * n <= size * p < (Boundary(size, p, n) + 1) * n
  {
    var a := size * p;
    assert a == (a / n) * n + a % n;
    assert (a / n + 1) * n == (a / n) * n + n;
  }

  /** What partition `p` of `n` reads. */
  function PartitionLines(file: string, p: nat, n: nat): seq<string>
    requires p < n
  {
    LinesBetween(file, FirstLine(file, Boundary(|file|, p, n)), Boundary(|file|, p + 1, n))
  }

  function FirstPartitions(file: string, k: nat, n: nat): seq<string>
    requires k <= n
  {
    if k == 0 then [] else FirstPartitions(file, k - 1, n) + PartitionLines(file, k - 1, n)
  }

  // ---------------------------------------------------------------- splitting loses nothing

  lemma {:induction false} LineEndStops(file: string, pos: nat, q: nat)
    requires pos <= |file| && pos <= q < LineEnd(file, pos)
    ensures q + 1 == LineEnd(file, pos) || file[q] != '\n'
    ensures LineStart(file, LineEnd(file, pos))
    decreases |file| - pos
  {
    if file[pos] != '\n' {
      if q > pos { LineEndStops(file, pos + 1, q); }
      else if LineEnd(file, pos + 1) > pos + 1 { LineEndStops(file, pos + 1, pos + 1); }
    }
  }

  lemma {:induction false} LineEndSuffix(file: string, pos: nat, q: nat)
    requires pos <= |file| && pos <= q < LineEnd(file, pos)
    ensures LineEnd(file, q) == LineEnd(file, pos)
    decreases q - pos
  {
    if q > pos {
      LineEndStops(file, pos, pos);
      LineEndSuffix(file, pos + 1, q);
    }
  }

  /** No line starts strictly inside a line, so the first line at or after an
      offset inside it is the next one. */
  lemma FirstLineInside(file: string, pos: nat, start: nat)
    requires pos <= |file| && pos < start <= LineEnd(file, pos)
    ensures FirstLine(file, start) == LineEnd(file, pos)
  {
    LineEndStops(file, pos, start - 1);
    if start < LineEnd(file, pos) { LineEndSuffix(file, pos, start); }
    else if file[start - 1] != '\n' {
      assert start == |file| by { LineEndStops(file, pos, start - 1); }
    }
  }

  /** Reading up to `a` and then from the first line at or after `a` up to `b`
      is reading up to `b`. */
  lemma {:induction false} LinesJoin(file: string, pos: nat, a: nat, b: nat)
    requires pos <= |file| && a <= b <= |file|
    requires pos < a || FirstLine(file, a) == pos
    ensures LinesBetween(file, pos, a) + LinesBetween(file, FirstLine(file, a), b) == LinesBetween(file, pos, b)
    decreases |file| - pos
  {
    if pos < a {
      var next := LineEnd(file, pos);
      if a <= next { FirstLineInside(file, pos, a); }
      LinesJoin(file, next, a, b);
      assert LinesBetween(file, pos, b) == [Trim(file[pos..next])] + LinesBetween(file, next, b);
    }
  }

  lemma {:induction false} FirstPartitionsAreLines(file: string, k: nat, n: nat)
    requires k <= n && n > 0
    ensures FirstPartitions(file, k, n) == LinesBetween(file, 0, Boundary(|file|, k, n))
  {
    hide *;
    FirstPartitionsStep(file, k, n);
    if k == 0 {
      BoundaryEnds(|file|, n);
      NothingBetween(file);
    } else {
      FirstPartitionsAreLines(file, k - 1, n);
      BoundaryMonotone(|file|, k - 1, n);
      StartsAtZero(file, Boundary(|file|, k - 1, n));
      LinesJoin(file, 0, Boundary(|file|, k - 1, n), Boundary(|file|, k, n));
    }
  }

  lemma FirstPartitionsStep(file: string, k: nat, n: nat)
    requires k <= n && n > 0
    ensures FirstPartitions(file, k, n) ==
            if k == 0 then []
            else FirstPartitions(file, k - 1, n)
                 + LinesBetween(file, FirstLine(file, Boundary(|file|, k - 1, n)), Boundary(|file|, k, n))
  {
    hide LinesBetween, FirstLine, Boundary;
  }

  lemma NothingBetween(file: string)
    ensures LinesBetween(file, 0, 0) == []
  {
  }

  lemma StartsAtZero(file: string, a: nat)
    requires a <= |file|
    ensures 0 < a || FirstLine(file, a) == 0
  {
    hide LineEnd;
  }

  /** The partitions of any file, in order, are exactly its lines. */
  lemma PartitionsAreLines(file: string, n: nat)
    requires n > 0
    ensures FirstPartitions(file, n, n) == Lines(file)
  {
    FirstPartitionsAreLines(file, n, n);
    BoundaryEnds(|file|, n);
  }

  /** Put back together, the raw lines are the file: a line is what lies between
      two consecutive newlines, the last one possibly unterminated. */
  function RawLines(file: string, pos: nat): seq<string>
    requires pos <= |file|
    decreases |file| - pos
  {
    if pos == |file| then [] else [file[pos..LineEnd(file, pos)]] + RawLines(file, LineEnd(file, pos))
  }

  function Concat(parts: seq<string>): string {
    if parts == [] then "" else parts[0] + Concat(parts[1..])
  }

  predicate IsLine(line: string, last: bool) {
    |line| > 0 && (forall i :: 0 <= i < |line| - 1 ==> line[i] != '\n') && (last || line[|line| - 1] == '\n')
  }

  /** The text of a line: without its newline, and then without one carriage return. */
  predicate IsTextOf(text: string, line: string) {
    var body := if |line| > 0 && line[|line| - 1] == '\n' then line[..|line| - 1] else line;
    if |body| > 0 && body[|body| - 1] == '\r' then body == text + "\r" else body == text
  }

  lemma TrimIsText(line: string)
    ensures IsTextOf(Trim(line), line)
  {
  }

  lemma LinesStep(file: string, pos: nat)
    requires pos < |file|
    ensures pos < LineEnd(file, pos) <= |file|
    ensures RawLines(file, pos) == [file[pos..LineEnd(file, pos)]] + RawLines(file, LineEnd(file, pos))
    ensures LinesBetween(file, pos, |file|)
            == [Trim(file[pos..LineEnd(file, pos)])] + LinesBetween(file, LineEnd(file, pos), |file|)
  {
    hide Trim;
  }

  lemma RawLineIsLine(file: string, pos: nat)
    requires pos < |file|
    ensures IsLine(file[pos..LineEnd(file, pos)], LineEnd(file, pos) == |file|)
  {
    var line := file[pos..LineEnd(file, pos)];
    forall i | 0 <= i < |line| - 1 ensures line[i] != '\n' { LineEndStops(file, pos, pos + i); }
    LineEndStops(file, pos, pos);
    hide LineEnd;
  }

  lemma NoMoreLines(file: string)
    ensures RawLines(file, |file|) == [] && LinesBetween(file, |file|, |file|) == []
  {
  }

  /** One line more before `rest`. */
  lemma ConsLine(line: string, text: string, raw: seq<string>, texts: seq<string>)
    requires IsLine(line, raw == []) && IsTextOf(text, line) && |raw| == |texts|
    requires forall i :: 0 <= i < |raw| ==> IsLine(raw[i], i == |raw| - 1) && IsTextOf(texts[i], raw[i])
    ensures Concat([line] + raw) == line + Concat(raw)
    ensures forall i :: 0 <= i < |raw| + 1 ==>
      IsLine(([line] + raw)[i], i == |raw|) && IsTextOf(([text] + texts)[i], ([line] + raw)[i])
  {
    hide IsLine, IsTextOf;
    assert ([line] + raw)[1..] == raw;
    forall i | 0 <= i < |raw| + 1
      ensures IsLine(([line] + raw)[i], i == |raw|) && IsTextOf(([text] + texts)[i], ([line] + raw)[i])
    {
      if i > 0 { assert IsLine(raw[i - 1], i - 1 == |raw| - 1); }
    }
  }

  lemma {:induction false} LinesAreTheFile(file: string, pos: nat)
    requires pos <= |file|
    ensures Concat(RawLines(file, pos)) == file[pos..]
    ensures |RawLines(file, pos)| == |LinesBetween(file, pos, |file|)|
    ensures forall i :: 0 <= i < |RawLines(file, pos)| ==>
      && IsLine(RawLines(file, pos)[i], i == |RawLines(file, pos)| - 1)
      && IsTextOf(LinesBetween(file, pos, |file|)[i], RawLines(file, pos)[i])
    decreases |file| - pos
  {
    hide *;
    NoMoreLines(file);
    NothingToJoin();
    if pos < |file| {
      var next := LineEnd(file, pos);
      LinesStep(file, pos);
      LinesAreTheFile(file, next);
      RawLineIsLine(file, pos);
      RawLinesLeft(file, next);
      TrimIsText(file[pos..next]);
      ConsLine(file[pos..next], Trim(file[pos..next]), RawLines(file, next), LinesBetween(file, next, |file|));
      assert file[pos..] == file[pos..next] + file[next..];
    }
  }

  lemma NothingToJoin()
    ensures Concat([]) == ""
  {
  }

  lemma RawLinesLeft(file: string, pos: nat)
    requires pos <= |file|
    ensures RawLines(file, pos) == [] <==> pos == |file|
  {
  }

  /** Reading one line moves to the rest; an unterminated line is the last. */
  lemma NextLine(file: string, pos: nat, end: nat)
    requires pos < |file| && pos < end <= |file|
    ensures LinesBetween(file, pos, end) != []
    ensures LinesBetween(file, pos, end)[0] == Trim(file[pos..LineEnd(file, pos)])
    ensures LinesBetween(file, pos, end)[1..] == LinesBetween(file, LineEnd(file, pos), end)
    ensures file[LineEnd(file, pos) - 1] == '\n' || LineEnd(file, pos) == |file|
  {
    LineEndStops(file, pos, pos);
  }

  /** The two cases of a read: at the end there is nothing, before it there is a line. */
  lemma AtPosition(file: string, pos: nat, end: nat)
    requires pos <= |file| && end <= |file| && (pos < end || end == |file|)
    ensures pos <= LineEnd(file, pos) <= |file| && LinesBetween(file, |file|, end) == []
    ensures if pos < end then
              && LinesBetween(file, pos, end) == [Trim(file[pos..LineEnd(file, pos)])] + LinesBetween(file, LineEnd(file, pos), end)
              && pos < LineEnd(file, pos) && (file[LineEnd(file, pos) - 1] == '\n' || LineEnd(file, pos) == |file|)
            else LinesBetween(file, pos, end) == [] && LineEnd(file, pos) == pos
  {
    if pos < end { NextLine(file, pos, end); }
  }

  // ---------------------------------------------------------------- the iterator

  datatype Pull = Line(line: string) | Exhausted | Failed(error: Failure)

  class TextPartitionIterator {
    const file: string
    var pos: nat
    var end: nat
    var last: bool
    var done: bool

    ghost predicate Valid()
      reads this
    {
      pos <= |file| && end <= |file| && (last ==> end == |file|)
    }

    /** The lines still to come. */
    ghost function Rest(): seq<string>
      requires Valid()
      reads this
    {
      if done then [] else LinesBetween(file, pos, end)
    }

    constructor (file: string, start: nat, end: nat, last: bool)
      requires start <= |file| && end <= |file| && (last ==> end == |file|)
      ensures Valid() && this.file == file && !done && this.end == end && this.last == last
      ensures pos == FirstLine(file, start)
    {
      this.file, this.end, this.last, this.done := file, end, last, false;
      new;
      var offset := start;
      if start > 0 && file[start - 1] != '\n' {
        var fragment := ReadString(file, start);
        offset := start + |fragment|;
      }
      pos := offset;
    }

    method Next(cancelled: bool) returns (r: Pull)
      requires Valid()
      modifies this
      ensures Valid()
      ensures !cancelled || old(done) ==>
        if old(Rest()) == [] then r == Exhausted && Rest() == []
        else r == Line(old(Rest())[0]) && Rest() == old(Rest())[1..]
      ensures cancelled && !old(done) ==> r == Failed(Canceled()) && Rest() == []
      ensures done ==> Rest() == []
    {
      if done { return Exhausted; }
      if cancelled {
        done := true;
        return Failed(Canceled());
      }
      if !last && pos >= end {
        done := true;
        return Exhausted;
      }
      AtPosition(file, pos, end);
      hide LineEnd, LinesBetween, Trim;
      var line := ReadString(file, pos);
      pos := pos + |line|;
      if |line| == 0 || line[|line| - 1] != '\n' { done := true; }
      if |line| == 0 { return Exhausted; }
      return Line(Trim(line));
    }
  }

  /** bufio's ReadString: up to and including the next newline, or the rest of the file. */
  method ReadString(file: string, pos: nat) returns (line: string)
    requires pos <= |file|
    ensures line == file[pos..LineEnd(file, pos)]
  {
    var i := pos;
    while i < |file| && file[i] != '\n'
      invariant pos <= i <= |file|
      invariant LineEnd(file, i) == LineEnd(file, pos)
    {
      i := i + 1;
    }
    line := file[pos..if i < |file| then i + 1 else i];
  }

  /** Open: the iterator of one partition, or a permanent error for a partition outside the file's. */
  method Open(file: string, partition: int, numPartitions: int, cancelled: bool)
    returns (r: Result<TextPartitionIterator>)
    ensures cancelled ==> r == Err(Canceled())
    ensures !cancelled && !(0 <= partition < numPartitions) ==> r == Err(Permanent())
    ensures !cancelled && 0 <= partition < numPartitions ==>
      r.Ok? && fresh(r.value) && r.value.Valid() && r.value.file == file &&
      r.value.Rest() == PartitionLines(file, partition, numPartitions)
  {
    if cancelled { return Err(Canceled()); }
    if numPartitions <= 0 || partition < 0 || partition >= numPartitions { return Err(Permanent()); }
    var start, end := Boundary(|file|, partition, numPartitions), Boundary(|file|, partition + 1, numPartitions);
    BoundaryEnds(|file|, numPartitions);
    var source := new TextPartitionIterator(file, start, end, partition == numPartitions - 1);
    r := Ok(source);
  }
}
