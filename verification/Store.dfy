/** The shuffle store (shuffle/writer.go, reader.go, filesystem.go, record.go).
    Directories are maps from bucket to contents; a manifest is the metadata whose
    canonical encoding it holds. A byte is modelled as a character. */
module Store {
  import opened Types
  import opened TextSource
  import opened Keyed
  import opened Streams
  import opened Environment

  // ---------------------------------------------------------------- records and buckets

  const MAX_RECORD_BYTES: nat := 1048576

  /** What the library functions behind the codec guarantee. */
  ghost predicate LawfulCodec(c: Codec, restore: Record -> Record) {
    && (forall r :: c.encode(r).Some? ==>
          var line := c.encode(r).value;
          |line| <= MAX_RECORD_BYTES && '\n' !in line && c.decode(line) == Some(KV(r.key, restore(r.value))))
    && (forall data :: LowerHex(c.digest(data), 64)) && c.digest("") == EMPTY_SHA256
  }

  /** The bytes of a list of records: one line each. */
  function Bytes(c: Codec, records: seq<KV>): string {
    if records == [] then ""
    else
      var last := c.encode(records[|records| - 1]);
      Bytes(c, records[..|records| - 1]) + (if last.Some? then last.value + "\n" else "")
  }

  predicate Encodable(c: Codec, records: seq<KV>) {
    forall i :: 0 <= i < |records| ==> c.encode(records[i]).Some?
  }

  /** The metadata of one bucket of an attempt that wrote `written`. */
  function BucketInfo(c: Codec, hash: string -> nat, n: nat, p: nat, written: seq<KV>): BucketMetadata
    requires n > 0
  {
    var records := Bucket(hash, n, p, written);
    var bytes := Bytes(c, records);
    BucketMetadata(p, |records|, |bytes|, c.digest(bytes))
  }

  function Infos(c: Codec, hash: string -> nat, n: nat, written: seq<KV>): (r: seq<BucketMetadata>)
    requires n > 0
    ensures |r| == n && forall p :: 0 <= p < n ==> r[p] == BucketInfo(c, hash, n, p, written)
  {
    seq(n, p requires 0 <= p < n => BucketInfo(c, hash, n, p, written))
  }

  /** What publishing the records of an attempt yields. */
  function Manifest(c: Codec, hash: string -> nat, a: AttemptIdentity, maps: int, n: nat, written: seq<KV>): MapOutput
    requires n > 0
  {
    MapOutput(FORMAT_VERSION, a, maps, n, Infos(c, hash, n, written))
  }

  datatype Directory = Directory(buckets: map<PartitionID, string>, manifest: Option<MapOutput>)

  function PublishedDirectory(c: Codec, hash: string -> nat, a: AttemptIdentity, maps: int, n: nat, written: seq<KV>): Directory
    requires n > 0
  {
    Directory(PublishedBuckets(c, hash, n, written), Some(Manifest(c, hash, a, maps, n, written)))
  }

  function PublishedBuckets(c: Codec, hash: string -> nat, n: nat, written: seq<KV>): map<PartitionID, string>
    requires n > 0
  {
    map p: int | 0 <= p < n :: Bytes(c, Bucket(hash, n, p, written))
  }

  // ---------------------------------------------------------------- framing

  datatype Frame = EndOfFile | RecordLine(line: string, next: nat) | TooLarge | MissingNewline

  /** The record line at `pos`. */
  function FrameAt(file: string, pos: nat): Frame
    requires pos <= |file|
  {
    var end := LineEnd(file, pos);
    if pos == |file| then EndOfFile
    else if file[end - 1] == '\n' then
      if end - 1 - pos > MAX_RECORD_BYTES then TooLarge else RecordLine(file[pos..end - 1], end)
    else if end - pos > MAX_RECORD_BYTES then TooLarge
    else MissingNewline
  }

  // ---------------------------------------------------------------- verified reading

  function InputLost(a: AttemptIdentity, p: PartitionID): Failure {
    Failure(FailureShuffleInput, Some(InputReference(a, p)))
  }

  predicate Certified(c: Codec, meta: BucketMetadata, file: string, records: nat) {
    records == meta.recordCount && |file| == meta.byteCount && c.digest(file) == meta.sha256
  }

  /** The records a reader yields from `pos` on, having yielded `records`, and
      whether it ends well: only when counts, size and digest all agree. */
  function ReadFrom(c: Codec, hash: string -> nat, output: MapOutput, p: nat, file: string, pos: nat, records: nat): Stream
    requires p < |output.buckets| && output.numReducePartitions > 0 && pos <= |file|
    decreases |file| - pos
  {
    var lost := InputLost(output.attempt, p);
    match FrameAt(file, pos)
    case EndOfFile => Stream([], if Certified(c, output.buckets[p], file, records) then None else Some(lost))
    case TooLarge => Stream([], Some(lost))
    case MissingNewline => Stream([], Some(lost))
    case RecordLine(line, next) =>
      match c.decode(line)
      case None => Stream([], Some(lost))
      case Some(pair) =>
        if Home(hash, output.numReducePartitions, pair.key) != p || records + 1 > output.buckets[p].recordCount then
          Stream([], Some(lost))
        else
          var rest := ReadFrom(c, hash, output, p, file, next, records + 1);
          Stream([ToRecord(pair)] + rest.items, rest.end)
  }

  // ---------------------------------------------------------------- round trip

  lemma {:induction false} LineEndAfter(a: string, line: string, b: string, pos: nat)
    requires |a| <= pos <= |a| + |line| && '\n' !in line
    ensures LineEnd(a + line + "\n" + b, pos) == |a| + |line| + 1
    decreases |a| + |line| - pos
  {
    var file := a + line + "\n" + b;
    if pos < |a| + |line| {
      assert file[pos] == line[pos - |a|];
      LineEndAfter(a, line, b, pos + 1);
    } else {
      assert file[pos] == '\n';
    }
  }

  lemma {:induction false} BytesJoin(c: Codec, a: seq<KV>, b: seq<KV>)
    ensures Bytes(c, a + b) == Bytes(c, a) + Bytes(c, b)
  {
    if b == [] {
      assert a + b == a;
    } else {
      assert (a + b)[..|a + b| - 1] == a + b[..|b| - 1];
      BytesJoin(c, a, b[..|b| - 1]);
    }
  }

  lemma {:induction false} BytesOfOne(c: Codec, r: KV)
    requires c.encode(r).Some?
    ensures Bytes(c, [r]) == c.encode(r).value + "\n"
  {
    assert [r][..0] == [];
    assert "" + (c.encode(r).value + "\n") == c.encode(r).value + "\n";
  }

  /** A reader standing before records k, k + 1, ... of an intact bucket yields them all. */
  lemma {:induction false} ReadsBack(c: Codec, restore: Record -> Record, hash: string -> nat, output: MapOutput, p: nat,
                                     records: seq<KV>, k: nat)
    requires LawfulCodec(c, restore) && Encodable(c, records) && k <= |records|
    requires p < |output.buckets| && output.numReducePartitions > 0
    requires forall i :: 0 <= i < |records| ==> Home(hash, output.numReducePartitions, records[i].key) == p
    requires Certified(c, output.buckets[p], Bytes(c, records), |records|)
    ensures |Bytes(c, records[..k])| <= |Bytes(c, records)|
    ensures ReadFrom(c, hash, output, p, Bytes(c, records), |Bytes(c, records[..k])|, k)
            == Stream(ToRecords(Restored(restore, records))[k..], None)
    decreases |records| - k
  {
    hide *;
    var all := ToRecords(Restored(restore, records));
    if k == |records| {
      assert records[..k] == records;
      ReadsEnd(c, hash, output, p, Bytes(c, records), k);
    } else {
      EncodedLine(c, restore, records, k);
      var line := c.encode(records[k]).value;
      BytesSplit(c, records, k);
      FramesLine(Bytes(c, records[..k]), line, Bytes(c, records[k + 1..]));
      ReadsBack(c, restore, hash, output, p, records, k + 1);
      assert all[k..] == [all[k]] + all[k + 1..];
      CertifiedCount(c, output.buckets[p], Bytes(c, records), |records|);
      ReadsOne(c, hash, output, p, Bytes(c, records), |Bytes(c, records[..k])|, k, line,
               |Bytes(c, records[..k + 1])|, KV(records[k].key, restore(records[k].value)));
    }
  }

  lemma EncodedLine(c: Codec, restore: Record -> Record, records: seq<KV>, k: nat)
    requires LawfulCodec(c, restore) && Encodable(c, records) && k < |records|
    ensures c.encode(records[k]).Some?
    ensures var line := c.encode(records[k]).value;
            |line| <= MAX_RECORD_BYTES && '\n' !in line && c.decode(line) == Some(KV(records[k].key, restore(records[k].value)))
  {
  }

  lemma CertifiedCount(c: Codec, meta: BucketMetadata, file: string, records: nat)
    requires Certified(c, meta, file, records)
    ensures records == meta.recordCount
  {
  }

  lemma ReadsEnd(c: Codec, hash: string -> nat, output: MapOutput, p: nat, file: string, records: nat)
    requires p < |output.buckets| && output.numReducePartitions > 0 && Certified(c, output.buckets[p], file, records)
    ensures ReadFrom(c, hash, output, p, file, |file|, records) == Stream([], None)
  {
  }

  /** The bytes before, of and after record `k`. */
  lemma BytesSplit(c: Codec, records: seq<KV>, k: nat)
    requires k < |records| && c.encode(records[k]).Some?
    ensures var line := c.encode(records[k]).value;
            && Bytes(c, records) == Bytes(c, records[..k]) + line + "\n" + Bytes(c, records[k + 1..])
            && |Bytes(c, records[..k + 1])| == |Bytes(c, records[..k])| + |line| + 1
  {
    var before, rest := records[..k], records[k + 1..];
    assert records[..k + 1] == before + [records[k]] && records == records[..k + 1] + rest;
    BytesOfOne(c, records[k]);
    BytesJoin(c, before, [records[k]]);
    BytesJoin(c, records[..k + 1], rest);
  }

  lemma ReadsOne(c: Codec, hash: string -> nat, output: MapOutput, p: nat, file: string, pos: nat, records: nat,
                 line: string, next: nat, pair: KV)
    requires p < |output.buckets| && output.numReducePartitions > 0 && pos <= |file| && next <= |file|
    requires FrameAt(file, pos) == RecordLine(line, next) && c.decode(line) == Some(pair)
    requires Home(hash, output.numReducePartitions, pair.key) == p && records + 1 <= output.buckets[p].recordCount
    ensures var rest := ReadFrom(c, hash, output, p, file, next, records + 1);
            ReadFrom(c, hash, output, p, file, pos, records) == Stream([ToRecord(pair)] + rest.items, rest.end)
  {
  }

  lemma FramesLine(a: string, line: string, b: string)
    requires '\n' !in line && |line| <= MAX_RECORD_BYTES
    ensures FrameAt(a + line + "\n" + b, |a|) == RecordLine(line, |a| + |line| + 1)
  {
    LineEndAfter(a, line, b, |a|);
    var file := a + line + "\n" + b;
    assert file[|a|..|a| + |line|] == line;
  }

  /** A line is read up to its newline; one longer than a mebibyte is refused, and so is
      a last line without its newline. */
  lemma FramesExactly(a: string, line: string, b: string)
    requires '\n' !in line
    ensures FrameAt(a + line + "\n" + b, |a|) == if |line| <= 1048576 then RecordLine(line, |a| + |line| + 1) else TooLarge
    ensures |line| > 0 ==> FrameAt(a + line, |a|) == if |line| <= 1048576 then MissingNewline else TooLarge
    ensures FrameAt(a, |a|) == EndOfFile
  {
    LineEndAfter(a, line, b, |a|);
    var file := a + line + "\n" + b;
    assert file[|a|..|a| + |line|] == line;
    NoLineEnd(a, line, |a|);
    hide LineEnd;
    assert |line| > 0 ==> (a + line)[|a + line| - 1] == line[|line| - 1];
  }

  lemma {:induction false} NoLineEnd(a: string, line: string, pos: nat)
    requires |a| <= pos <= |a + line| && '\n' !in line
    ensures LineEnd(a + line, pos) == |a + line|
    decreases |a + line| - pos
  {
    if pos < |a + line| {
      assert (a + line)[pos] == line[pos - |a|];
      NoLineEnd(a, line, pos + 1);
    }
  }

  lemma {:induction false} BucketMembers(hash: string -> nat, n: nat, p: nat, written: seq<KV>)
    requires n > 0
    ensures forall i :: 0 <= i < |Bucket(hash, n, p, written)| ==>
      Bucket(hash, n, p, written)[i] in written && Home(hash, n, Bucket(hash, n, p, written)[i].key) == p
  {
    if written != [] { BucketMembers(hash, n, p, written[..|written| - 1]); }
  }

  /** Reading bucket `p` of a published attempt yields exactly the records written
      to it, in order, and then the end. */
  lemma StoreRoundTrip(c: Codec, restore: Record -> Record, hash: string -> nat, a: AttemptIdentity, maps: int, n: nat, p: nat,
                       written: seq<KV>)
    requires LawfulCodec(c, restore) && Encodable(c, written) && p < n
    ensures var dir := PublishedDirectory(c, hash, a, maps, n, written);
            ReadFrom(c, hash, dir.manifest.value, p, dir.buckets[p], 0, 0)
            == Stream(ToRecords(Restored(restore, Bucket(hash, n, p, written))), None)
  {
    var records := Bucket(hash, n, p, written);
    BucketMembers(hash, n, p, written);
    assert records[..0] == [];
    ReadsBack(c, restore, hash, Manifest(c, hash, a, maps, n, written), p, records, 0);
    var all := ToRecords(Restored(restore, records));
    assert all[0..] == all;
  }

  /** Whatever a bucket file holds, a reader that reaches the end has certified it:
      count, size and digest agree and every record belongs to the bucket. */
  lemma {:induction false} EndCertifies(c: Codec, hash: string -> nat, output: MapOutput, p: nat, file: string, pos: nat, records: nat)
    requires p < |output.buckets| && output.numReducePartitions > 0 && pos <= |file|
    ensures var s := ReadFrom(c, hash, output, p, file, pos, records);
            && (s.end.None? ==>
                  records + |s.items| == output.buckets[p].recordCount && |file| == output.buckets[p].byteCount
                  && c.digest(file) == output.buckets[p].sha256)
            && (s.end.Some? ==> s.end.value == Failure(FailureShuffleInput, Some(InputReference(output.attempt, p))))
            && forall i :: 0 <= i < |s.items| ==> s.items[i].KeyValue? && hash(s.items[i].key) % output.numReducePartitions == p
    decreases |file| - pos
  {
    var frame := FrameAt(file, pos);
    if frame.RecordLine? && c.decode(frame.line).Some? {
      EndCertifies(c, hash, output, p, file, frame.next, records + 1);
    }
  }

  /** With no digest collision, reaching the end of any file means having read
      exactly what was published: damage never passes for data. */
  lemma DamageNeverPasses(c: Codec, restore: Record -> Record, hash: string -> nat, a: AttemptIdentity, maps: int, n: nat, p: nat,
                          written: seq<KV>, file: string)
    requires LawfulCodec(c, restore) && Encodable(c, written) && p < n
    requires c.digest(file) == c.digest(Bytes(c, Bucket(hash, n, p, written))) ==> file == Bytes(c, Bucket(hash, n, p, written))
    ensures var s := ReadFrom(c, hash, Manifest(c, hash, a, maps, n, written), p, file, 0, 0);
            s.end.Some? || s == Stream(ToRecords(Restored(restore, Bucket(hash, n, p, written))), None)
  {
    hide *;
    var output := Manifest(c, hash, a, maps, n, written);
    PublishedAt(c, hash, a, maps, n, p, written);
    StoreRoundTrip(c, restore, hash, a, maps, n, p, written);
    EndCertifies(c, hash, output, p, file, 0, 0);
    var s := ReadFrom(c, hash, output, p, file, 0, 0);
    if s.end.None? { CertifiedDigest(c, hash, a, maps, n, p, written, file); }
  }

  lemma CertifiedDigest(c: Codec, hash: string -> nat, a: AttemptIdentity, maps: int, n: nat, p: nat, written: seq<KV>, file: string)
    requires p < n && c.digest(file) == Manifest(c, hash, a, maps, n, written).buckets[p].sha256
    ensures c.digest(file) == c.digest(Bytes(c, Bucket(hash, n, p, written)))
  {
  }

  lemma PublishedAt(c: Codec, hash: string -> nat, a: AttemptIdentity, maps: int, n: nat, p: nat, written: seq<KV>)
    requires p < n
    ensures var dir := PublishedDirectory(c, hash, a, maps, n, written);
            dir.manifest == Some(Manifest(c, hash, a, maps, n, written)) && p < |dir.manifest.value.buckets|
            && dir.manifest.value.numReducePartitions == n && p in dir.buckets && dir.buckets[p] == Bytes(c, Bucket(hash, n, p, written))
  {
  }

  lemma {:induction false} BytesAtLeast(c: Codec, records: seq<KV>)
    requires Encodable(c, records)
    ensures |Bytes(c, records)| >= |records|
  {
    if records != [] { BytesAtLeast(c, records[..|records| - 1]); }
  }

  /** What a writer publishes passes every check on map outputs. */
  lemma ManifestIsValid(c: Codec, restore: Record -> Record, hash: string -> nat, a: AttemptIdentity, maps: int, n: nat, written: seq<KV>)
    requires LawfulCodec(c, restore) && Encodable(c, written) && n > 0 && ValidIdentity(a) && a.mapPartitionID < maps
    ensures ValidMapOutput(Manifest(c, hash, a, maps, n, written))
  {
    var output := Manifest(c, hash, a, maps, n, written);
    forall p | 0 <= p < n ensures ValidBucket(output.buckets[p], p) {
      var records := Bucket(hash, n, p, written);
      BucketMembers(hash, n, p, written);
      BytesAtLeast(c, records);
    }
  }
}
