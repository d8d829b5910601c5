/** Which task outputs both schedulers accept (scheduler/task_output.go,
    shuffle/metadata.go), said by what an acceptable output looks like. */
module Outputs {
  import opened Types

  /** A map task's output is acceptable exactly when it is nothing but a valid
      manifest, of its own attempt and of its own widths. */
  lemma MapOutputsExactly(o: TaskOutput, runID: string, job: JobID, t: Task, attempt: TaskAttemptIdentity)
    requires t.kind == StageShuffleMap && t.shuffleWrite.Some? && t.finalAction.None?
    ensures AcceptableOutput(o, runID, job, t, attempt) <==>
            exists m :: o == TaskOutput(None, 0, Some(m)) && ValidMapOutput(m)
                        && m.attempt == AttemptIdentity(runID, job, t.shuffleWrite.value.shuffleID, t.stageID, attempt.stageAttemptID,
                                                        t.id, attempt.id, t.partitionID)
                        && m.numMapPartitions == t.numPartitions
                        && m.numReducePartitions == t.shuffleWrite.value.partitioner.numPartitions
  {
    if AcceptableOutput(o, runID, job, t, attempt) {
      assert o == TaskOutput(None, 0, Some(o.shuffleOutput.value));
    }
  }

  /** A result task's output is acceptable exactly when it is nothing but records, or
      nothing but a count, as its action asks. */
  lemma ResultOutputsExactly(o: TaskOutput, runID: string, job: JobID, t: Task, attempt: TaskAttemptIdentity)
    requires t.kind == StageResult && t.finalAction.Some?
    ensures AcceptableOutput(o, runID, job, t, attempt) <==>
            || (t.finalAction.value.kind == ActionCollect && exists records :: o == TaskOutput(Some(records), 0, None))
            || (t.finalAction.value.kind == ActionCount && exists n: nat :: o == TaskOutput(None, n, None))
  {
    if AcceptableOutput(o, runID, job, t, attempt) {
      if t.finalAction.value.kind == ActionCollect {
        assert o == TaskOutput(Some(o.records.value), 0, None);
      } else {
        assert o == TaskOutput(None, o.count, None);
      }
    }
  }

  /** A bucket's entry is sound: never fewer bytes than records, and an empty bucket
      has the digest of nothing. */
  predicate SoundBucket(b: BucketMetadata, p: int) {
    && b.partitionID == p && 0 <= b.recordCount <= b.byteCount
    && |b.sha256| == 64 && (forall c :: c in b.sha256 ==> c in "0123456789abcdef")
    && (b.recordCount == 0 ==> b.byteCount == 0 && b.sha256 == EMPTY_SHA256)
  }

  /** A map output is valid exactly when it lists one sound bucket for each reduce
      partition, in order. */
  lemma ValidMapOutputsExactly(o: MapOutput)
    ensures ValidMapOutput(o) <==>
            && o.version == 1 && LowerHex(o.attempt.runID, 32) && 0 <= o.attempt.mapPartitionID < o.numMapPartitions
            && 0 < o.numReducePartitions == |o.buckets| && forall p :: 0 <= p < |o.buckets| ==> SoundBucket(o.buckets[p], p)
  {
    hide ValidBucket, SoundBucket, LowerHex;
    forall p | 0 <= p < |o.buckets| ensures ValidBucket(o.buckets[p], p) <==> SoundBucket(o.buckets[p], p) {
      SoundBucketsExactly(o.buckets[p], p);
    }
  }

  lemma SoundBucketsExactly(b: BucketMetadata, p: int)
    ensures ValidBucket(b, p) <==> SoundBucket(b, p)
  {
    HexDigits(b.sha256);
    if SoundBucket(b, p) { assert LowerHex(b.sha256, 64); }
  }

  lemma HexDigits(s: string)
    ensures (forall i :: 0 <= i < |s| ==> '0' <= s[i] <= '9' || 'a' <= s[i] <= 'f') <==> forall c :: c in s ==> c in "0123456789abcdef"
  {
    forall i | 0 <= i < |s| ensures s[i] in "0123456789abcdef" <==> '0' <= s[i] <= '9' || 'a' <= s[i] <= 'f' { HexDigit(s[i]); }
    if forall i :: 0 <= i < |s| ==> '0' <= s[i] <= '9' || 'a' <= s[i] <= 'f' {
      forall c | c in s ensures c in "0123456789abcdef" {
        var i :| 0 <= i < |s| && s[i] == c;
      }
    }
    if forall c :: c in s ==> c in "0123456789abcdef" {
      forall i | 0 <= i < |s| ensures '0' <= s[i] <= '9' || 'a' <= s[i] <= 'f' { assert s[i] in s; }
    }
  }

  lemma HexDigit(c: char)
    ensures c in "0123456789abcdef" <==> '0' <= c <= '9' || 'a' <= c <= 'f'
  {
    var digits := "0123456789abcdef";
    assert digits[0] == '0' && digits[1] == '1' && digits[2] == '2' && digits[3] == '3' && digits[4] == '4' && digits[5] == '5';
    assert digits[6] == '6' && digits[7] == '7' && digits[8] == '8' && digits[9] == '9' && digits[10] == 'a' && digits[11] == 'b';
    assert digits[12] == 'c' && digits[13] == 'd' && digits[14] == 'e' && digits[15] == 'f';
    if '0' <= c <= '9' { assert digits[c as int - '0' as int] == c; }
    if 'a' <= c <= 'f' { assert digits[c as int - 'a' as int + 10] == c; }
  }

  /** A snapshot is valid exactly when it holds one valid output of each map partition, in
      order, all of one run, job, shuffle, stage and stage attempt, and of its own widths. */
  lemma ValidSnapshotsExactly(s: InputSnapshot)
    ensures ValidSnapshot(s) <==>
            && LowerHex(s.runID, 32) && 0 < s.numMapPartitions == |s.outputs| && 0 < s.numReducePartitions
            && forall m :: 0 <= m < |s.outputs| ==>
                 && ValidMapOutput(s.outputs[m])
                 && s.outputs[m].numMapPartitions == |s.outputs| && s.outputs[m].numReducePartitions == s.numReducePartitions
                 && s.outputs[m].attempt ==
                    AttemptIdentity(s.runID, s.jobID, s.shuffleID, s.stageID, s.stageAttemptID, s.outputs[m].attempt.taskID,
                                    s.outputs[m].attempt.taskAttemptID, m)
  {
    hide ValidMapOutput, LowerHex;
    forall m | 0 <= m < |s.outputs|
      ensures FitsSnapshot(s, s.outputs[m], m) <==>
              && ValidMapOutput(s.outputs[m])
              && s.outputs[m].numMapPartitions == s.numMapPartitions && s.outputs[m].numReducePartitions == s.numReducePartitions
              && s.outputs[m].attempt ==
                 AttemptIdentity(s.runID, s.jobID, s.shuffleID, s.stageID, s.stageAttemptID, s.outputs[m].attempt.taskID,
                                 s.outputs[m].attempt.taskAttemptID, m)
    {
    }
    hide FitsSnapshot;
  }
}
