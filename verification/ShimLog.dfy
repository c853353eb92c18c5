/** From the bytes a container writes to the files on disk: the record cutter of
    `ContainerLog` feeding the rotating writer of `LogRotation`. */
module ShimLog {
  import opened Common
  import opened LogSegments
  import C = ContainerLog
  import R = LogRotation
  import K = LogRetention

  /** What the logger hands to the writer: each record encoded (as JSON, with a time that
      may differ from record to record), under whatever the file system does then. */
  function Entries(records: seq<C.Record>, encode: (C.Record, nat) -> seq<byte>, faults: nat -> R.Faults)
    : (es: seq<R.Entry>)
    ensures |es| == |records|
    ensures forall i :: 0 <= i < |es| ==> es[i] == R.Entry(encode(records[i], i), faults(i))
  {
    seq(|records|, i requires 0 <= i < |records| => R.Entry(encode(records[i], i), faults(i)))
  }

  /** The whole pipeline, for any split of the streams into reads, any interleaving and any
      encoding, with working renames: the log consists of exactly the canonical records of
      each stream; every one of them is accepted, whole unless it is longer than a file; and
      the files are exactly the last groups of them, in order, within the bounds. */
  lemma PipelineKeepsLatest(c: R.Config, input: seq<C.Read>, encode: (C.Record, nat) -> seq<byte>)
    requires c.Valid() && C.Chunked(input)
    ensures var log := C.Finished(C.AllWritten(C.FRESH, input));
            var es := Entries(log.records, encode, _ => R.Faults(0, false));
            var r := R.Run(c, map[0 := []], es);
            && (forall id :: id in {C.StdOut, C.StdErr} ==>
                  C.RecordsOf(id, log.records) == Segments(C.BUF_CACHE_SIZE, C.BytesOf(id, input)))
            && r.accepted == R.AllCropped(c, es)
            && Flatten(K.GroupAll(c, [[]], es)) == r.accepted
            && K.Latest(c, r.files, K.GroupAll(c, [[]], es))
            && Suffix(R.ReadDown(r.files, c.Top()), r.accepted)
            && R.Bounded(c, r.files)
            && |r.files| <= if c.maxFile < 2 then 2 else c.maxFile
  {
    hide C.Finished, C.AllWritten, R.Run, R.AllCropped, K.GroupAll, K.Latest, Segments, C.RecordsOf, C.BytesOf;
    var log := C.Finished(C.AllWritten(C.FRESH, input));
    var es := Entries(log.records, encode, _ => R.Faults(0, false));
    var start: R.Family := map[0 := []];
    forall id | id in {C.StdOut, C.StdErr} {
      C.RecordsAreCanonical(input, id);
    }
    R.AllAccepted(c, start, es);
    R.FamilyNumber(c, start, es);
    R.FamilySizes(c, start, es);
    StartsLatest(c);
    K.FamilyIsLatest(c, start, [[]], es);
    K.GroupsHoldAll(c, [[]], es);
    FlattenOne<seq<byte>>([]);
    assert [] + R.AllCropped(c, es) == R.AllCropped(c, es);
    R.FamilyIsSuffix(c, start, es);
    EmptyReads(start, c.Top());
    assert R.ReadDown(start, c.Top()) + R.Run(c, start, es).accepted == R.Run(c, start, es).accepted;
  }

  /** And whatever renames are refused along the way: the files hold the end of what was accepted, record
      by record, and there are never more of them than the bound. */
  lemma PipelineKeepsSuffix(c: R.Config, input: seq<C.Read>, encode: (C.Record, nat) -> seq<byte>, faults: nat -> R.Faults)
    requires c.Valid() && C.Chunked(input)
    ensures var log := C.Finished(C.AllWritten(C.FRESH, input));
            var r := R.Run(c, map[0 := []], Entries(log.records, encode, faults));
            && (forall id :: id in {C.StdOut, C.StdErr} ==>
                  C.RecordsOf(id, log.records) == Segments(C.BUF_CACHE_SIZE, C.BytesOf(id, input)))
            && Suffix(R.ReadDown(r.files, c.Top()), r.accepted)
            && |r.files| <= if c.maxFile < 2 then 2 else c.maxFile
  {
    hide C.Finished, C.AllWritten, R.Run, Segments, C.RecordsOf, C.BytesOf;
    var log := C.Finished(C.AllWritten(C.FRESH, input));
    var es := Entries(log.records, encode, faults);
    var start: R.Family := map[0 := []];
    forall id | id in {C.StdOut, C.StdErr} {
      C.RecordsAreCanonical(input, id);
    }
    R.FamilyNumber(c, start, es);
    R.FamilyIsSuffix(c, start, es);
    EmptyReads(start, c.Top());
    assert R.ReadDown(start, c.Top()) + R.Run(c, start, es).accepted == R.Run(c, start, es).accepted;
  }

  lemma StartsLatest(c: R.Config)
    ensures K.Latest(c, map[0 := []], [[]])
  {
  }

  lemma {:induction false} EmptyReads(f: R.Family, n: nat)
    requires f == map[0 := []]
    ensures R.ReadDown(f, n) == []
  {
    if n > 0 {
      EmptyReads(f, n - 1);
    }
  }
}
