/** The numbered family of log files behind a terminal: `shim_json_data_write`,
    `shim_dump_log_file` and `shim_rename_old_log_file`.

    File 0 is the live file, file `i` is `<log_path>.<i>`. A file is seen as the list of
    pieces written to it, one per record; the code sees their concatenation. */
module LogRotation {
  import opened Common
  import opened LogSegments

  const MIN_LOG_FILE_SIZE: nat := 4 * 1024

  /** The bounds set by `terminal_init`. */
  datatype Config = Config(maxSize: nat, maxFile: nat)
  {
    ghost predicate Valid()
    {
      MIN_LOG_FILE_SIZE <= maxSize < 0x8000_0000_0000_0000 && 1 <= maxFile < 0x1_0000_0000
    }

    /** The highest number a file of the family can have. */
    function Top(): (t: nat)
      ensures t >= 1
    {
      if maxFile <= 2 then 1 else maxFile - 1
    }
  }

  type Family = map<nat, seq<seq<byte>>>

  /** What the file system refuses during one write: the rename onto number `shiftAt`
      (0 for none), and the rename of the live file. */
  datatype Faults = Faults(shiftAt: nat, live: bool)

  datatype Outcome = Outcome(files: Family, accepted: seq<seq<byte>>)

  function Size(f: Family, k: nat): nat
  {
    if k in f then |Flatten(f[k])| else 0
  }

  /** `rename(2)`: replaces the target; a missing source changes nothing. */
  function Rename(f: Family, from: nat, to: nat): (r: Family)
  {
    if from in f && from != to then (f - {from})[to := f[from]] else f
  }

  /** The downward loop of `shim_rename_old_log_file` from `i`; false when a rename is refused. */
  function RenameOld(f: Family, i: nat, shiftAt: nat): (r: (Family, bool))
    decreases i
  {
    if i <= 1 then (f, true)
    else if i == shiftAt then (f, false)
    else RenameOld(Rename(f, i - 1, i), i - 1, shiftAt)
  }

  /** `shim_dump_log_file`: shift, move the live file to number 1, reopen it. */
  function Dump(c: Config, f: Family, faults: Faults): (r: (Family, bool))
    requires c.Valid()
  {
    var (g, ok) := RenameOld(f, c.maxFile - 1, faults.shiftAt);
    if !ok then (g, false)
    else if faults.live then (if 0 in g then g else g[0 := []], true)
    else (Rename(g, 0, 1)[0 := []], true)
  }

  function Append(f: Family, piece: seq<byte>): Family
    requires 0 in f
  {
    f[0 := f[0] + [piece]]
  }

  /** A 64-bit pattern read as a signed number. */
  function ToInt64(x: int): int
  {
    var u := x % 0x1_0000_0000_0000_0000;
    if u < 0x8000_0000_0000_0000 then u else u - 0x1_0000_0000_0000_0000
  }

  function Fits(c: Config, f: Family, rec: seq<byte>): bool
  {
    |rec| <= ToInt64(c.maxSize - Size(f, 0))
  }

  /** What of a record can be written to an empty file. */
  function Cropped(c: Config, rec: seq<byte>): (r: seq<byte>)
    ensures |r| <= c.maxSize && r <= rec
    ensures |rec| <= c.maxSize ==> r == rec
  {
    if c.maxSize < |rec| then rec[..c.maxSize] else rec
  }

  /** `shim_json_data_write`. */
  function DataWrite(c: Config, f: Family, rec: seq<byte>, faults: Faults): (r: Outcome)
    requires c.Valid() && 0 in f
    ensures 0 in r.files
  {
    if Fits(c, f, rec) then
      Outcome(Append(f, rec), [rec])
    else
      var (g, ok) := Dump(c, f, faults);
      LiveStays(f, c.maxFile - 1, faults.shiftAt);
      if ok then Outcome(Append(g, Cropped(c, rec)), [Cropped(c, rec)]) else Outcome(g, [])
  }

  lemma {:induction false} LiveStays(f: Family, i: nat, shiftAt: nat)
    ensures 0 in f ==> 0 in RenameOld(f, i, shiftAt).0 && RenameOld(f, i, shiftAt).0[0] == f[0]
    decreases i
  {
    if i > 1 && i != shiftAt {
      LiveStays(Rename(f, i - 1, i), i - 1, shiftAt);
    }
  }

  // ---------------------------------------------------------------- the loop is a shift

  function Look(f: Family, k: nat): Option<seq<seq<byte>>>
  {
    if k in f then Some(f[k]) else None
  }

  /** Where the file that ends up at number `k` comes from: everything between 1 and
      `hi` moves up by one, except that `hi` itself is kept when nothing replaces it. */
  function Origin(f: Family, hi: nat, k: nat): Option<nat>
  {
    if 2 <= k <= hi && k - 1 in f then Some(k - 1)
    else if 1 <= k < hi then None
    else Some(k)
  }

  /** The loop, whichever numbers are missing, is that simultaneous shift. */
  lemma {:induction false} RenameOldIsShift(f: Family, hi: nat, k: nat)
    ensures var (g, ok) := RenameOld(f, hi, 0);
            ok && Look(g, k) == match Origin(f, hi, k) { case None => None case Some(j) => Look(f, j) }
    decreases hi
  {
    if hi > 1 {
      RenameOldIsShift(Rename(f, hi - 1, hi), hi - 1, k);
    }
  }

  // ---------------------------------------------------------------- what a reader finds

  function Pieces(f: Family, k: nat): seq<seq<byte>>
  {
    if k in f then f[k] else []
  }

  /** The family read from number `n` down to the live file: oldest piece first. */
  function ReadDown(f: Family, n: nat): seq<seq<byte>>
  {
    if n == 0 then Pieces(f, 0) else Pieces(f, n) + ReadDown(f, n - 1)
  }

  lemma {:induction false} ReadSame(f: Family, g: Family, n: nat)
    requires forall k :: 0 <= k <= n ==> Pieces(f, k) == Pieces(g, k)
    ensures ReadDown(f, n) == ReadDown(g, n)
  {
    if n > 0 {
      ReadSame(f, g, n - 1);
    }
  }

  /** Moving a file up into a free number does not change what is read. */
  lemma {:induction false} MoveUp(f: Family, i: nat, n: nat)
    requires 1 <= i <= n && i !in f
    ensures ReadDown(Rename(f, i - 1, i), n) == ReadDown(f, n)
  {
    var g := Rename(f, i - 1, i);
    if i < n {
      MoveUp(f, i, n - 1);
    } else if i == 1 {
      assert Pieces(g, 1) + Pieces(g, 0) == Pieces(f, 1) + Pieces(f, 0);
    } else {
      ReadSame(f, g, i - 2);
      var rest := ReadDown(f, i - 2);
      assert Pieces(g, i) + (Pieces(g, i - 1) + rest) == Pieces(f, i) + (Pieces(f, i - 1) + rest);
    }
  }

  /** The part of the loop that follows its first rename, with number `i` free. */
  lemma {:induction false} ShiftRead(f: Family, i: nat, shiftAt: nat, n: nat)
    requires 1 <= i <= n && i !in f
    ensures var (g, ok) := RenameOld(f, i, shiftAt);
            ReadDown(g, n) == ReadDown(f, n) && (ok ==> 1 !in g)
    decreases i
  {
    if i > 1 && i != shiftAt {
      MoveUp(f, i, n);
      ShiftRead(Rename(f, i - 1, i), i - 1, shiftAt, n);
    }
  }

  /** Losing the oldest file as a whole, or nothing. */
  ghost predicate Aged(f: Family, g: Family, n: nat)
  {
    ReadDown(g, n) == ReadDown(f, n) || ReadDown(g, n) == ReadDown(f - {n}, n)
  }

  lemma ReplaceTop(f: Family, n: nat)
    requires 1 <= n
    ensures Aged(f, Rename(f, n - 1, n), n)
  {
    if n - 1 in f {
      MoveUp(f - {n}, n, n);
      assert Rename(f - {n}, n - 1, n) == Rename(f, n - 1, n);
    }
  }

  lemma RenameOldAged(c: Config, f: Family, shiftAt: nat)
    requires c.Valid()
    ensures var (g, ok) := RenameOld(f, c.maxFile - 1, shiftAt);
            Aged(f, g, c.Top()) && (ok && c.maxFile >= 3 ==> 1 !in g)
  {
    var i := c.maxFile - 1;
    if i > 1 && i != shiftAt {
      ReplaceTop(f, i);
      ShiftRead(Rename(f, i - 1, i), i - 1, shiftAt, i);
    }
  }

  lemma DumpAged(c: Config, f: Family, faults: Faults)
    requires c.Valid() && 0 in f
    ensures Aged(f, Dump(c, f, faults).0, c.Top())
  {
    var n := c.Top();
    var (g, ok) := RenameOld(f, c.maxFile - 1, faults.shiftAt);
    RenameOldAged(c, f, faults.shiftAt);
    LiveStays(f, c.maxFile - 1, faults.shiftAt);
    if ok && !faults.live {
      var h := Rename(g, 0, 1);
      if c.maxFile >= 3 {
        MoveUp(g, 1, n);
      } else {
        assert g == f;
        ReplaceTop(f, 1);
      }
      ReadSame(h, h[0 := []], n);
    }
  }

  lemma {:induction false} ReadAppend(f: Family, piece: seq<byte>, n: nat)
    requires 0 in f
    ensures ReadDown(Append(f, piece), n) == ReadDown(f, n) + [piece]
  {
    if n > 0 {
      ReadAppend(f, piece, n - 1);
      Assoc(Pieces(f, n), ReadDown(f, n - 1), [piece]);
    }
  }

  /** One write: the accepted piece comes last, and at most the oldest file is gone, as a
      whole. This needs no luck with the renames. */
  lemma WriteKeeps(c: Config, f: Family, rec: seq<byte>, faults: Faults)
    requires c.Valid() && 0 in f
    ensures var r := DataWrite(c, f, rec, faults);
            var n := c.Top();
            || ReadDown(r.files, n) == ReadDown(f, n) + r.accepted
            || ReadDown(r.files, n) == ReadDown(f - {n}, n) + r.accepted
    ensures DataWrite(c, f, rec, faults).accepted in {[rec], [Cropped(c, rec)], []}
  {
    var n := c.Top();
    var r := DataWrite(c, f, rec, faults);
    if Fits(c, f, rec) {
      ReadAppend(f, rec, n);
    } else {
      var (g, ok) := Dump(c, f, faults);
      DumpAged(c, f, faults);
      LiveStays(f, c.maxFile - 1, faults.shiftAt);
      if ok {
        ReadAppend(g, Cropped(c, rec), n);
      } else {
        assert ReadDown(g, n) + [] == ReadDown(g, n);
      }
    }
  }

  /** A record goes to the live file whole if it fits; else, cropped, to an emptied or the reopened file; and
      nothing of it is written exactly if it does not fit and one of the older files cannot be moved. */
  lemma AcceptedIs(c: Config, f: Family, rec: seq<byte>, faults: Faults)
    requires c.Valid() && 0 in f && Size(f, 0) < 0x8000_0000_0000_0000   // a file size is an `off_t`
    ensures var accepted := DataWrite(c, f, rec, faults).accepted;
            if Size(f, 0) + |rec| <= c.maxSize then accepted == [rec]
            else if 2 <= faults.shiftAt < c.maxFile then accepted == []
            else accepted == [if |rec| <= c.maxSize then rec else rec[..c.maxSize]]
  {
    StoppedIff(f, c.maxFile - 1, faults.shiftAt);
  }

  lemma {:induction false} StoppedIff(f: Family, i: nat, shiftAt: nat)
    ensures RenameOld(f, i, shiftAt).1 <==> !(2 <= shiftAt <= i)
    decreases i
  {
    if i > 1 && i != shiftAt {
      StoppedIff(Rename(f, i - 1, i), i - 1, shiftAt);
    }
  }

  // ---------------------------------------------------------------- whole runs

  datatype Entry = Entry(rec: seq<byte>, faults: Faults)

  function Run(c: Config, f: Family, es: seq<Entry>): (r: Outcome)
    requires c.Valid() && 0 in f
    ensures 0 in r.files
    decreases |es|
  {
    if es == [] then Outcome(f, [])
    else
      var first := DataWrite(c, f, es[0].rec, es[0].faults);
      var rest := Run(c, first.files, es[1..]);
      Outcome(rest.files, first.accepted + rest.accepted)
  }

  lemma SuffixExtend<T>(a: seq<T>, b: seq<T>, x: seq<T>, c: seq<T>)
    requires Suffix(a, b + x) && Suffix(b, c)
    ensures Suffix(a, c + x)
  {
    assert (c + x)[|c| - |b|..] == b + x;
    assert (c + x)[|c + x| - |a|..] == (b + x)[|b + x| - |a|..];
  }

  lemma TopIsPrefix(f: Family, n: nat)
    requires n >= 1
    ensures ReadDown(f, n) == Pieces(f, n) + ReadDown(f - {n}, n)
  {
    ReadSame(f, f - {n}, n - 1);
    assert [] + ReadDown(f, n - 1) == ReadDown(f, n - 1);
  }

  lemma StepSuffix(c: Config, f: Family, rec: seq<byte>, faults: Faults)
    requires c.Valid() && 0 in f
    ensures var r := DataWrite(c, f, rec, faults);
            Suffix(ReadDown(r.files, c.Top()), ReadDown(f, c.Top()) + r.accepted)
  {
    WriteKeeps(c, f, rec, faults);
    var r := DataWrite(c, f, rec, faults);
    TopIsPrefix(f, c.Top());
    Assoc(Pieces(f, c.Top()), ReadDown(f - {c.Top()}, c.Top()), r.accepted);
  }

  /** Whatever the renames did, a reader finds a suffix of everything that was ever
      accepted, in order and piece by piece: no record is split, reordered or doubled. */
  lemma {:induction false} FamilyIsSuffix(c: Config, f: Family, es: seq<Entry>)
    requires c.Valid() && 0 in f
    ensures var r := Run(c, f, es);
            Suffix(ReadDown(r.files, c.Top()), ReadDown(f, c.Top()) + r.accepted)
    decreases |es|
  {
    if es == [] {
      assert ReadDown(f, c.Top()) + [] == ReadDown(f, c.Top());
    } else {
      var first := DataWrite(c, f, es[0].rec, es[0].faults);
      var rest := Run(c, first.files, es[1..]);
      StepSuffix(c, f, es[0].rec, es[0].faults);
      FamilyIsSuffix(c, first.files, es[1..]);
      SuffixExtend(ReadDown(rest.files, c.Top()), ReadDown(first.files, c.Top()), rest.accepted,
                  ReadDown(f, c.Top()) + first.accepted);
      Assoc(ReadDown(f, c.Top()), first.accepted, rest.accepted);
    }
  }

  ghost predicate NoFaults(es: seq<Entry>)
  {
    forall i :: 0 <= i < |es| ==> es[i].faults == Faults(0, false)
  }

  function AllCropped(c: Config, es: seq<Entry>): seq<seq<byte>>
  {
    if es == [] then [] else [Cropped(c, es[0].rec)] + AllCropped(c, es[1..])
  }

  /** With working renames every record is accepted, whole when it is no longer than a file. */
  lemma {:induction false} AllAccepted(c: Config, f: Family, es: seq<Entry>)
    requires c.Valid() && 0 in f && NoFaults(es) && Bounded(c, f)
    ensures Run(c, f, es).accepted == AllCropped(c, es)
    decreases |es|
  {
    if es != [] {
      var e := es[0];
      RenameOldIsShift(f, c.maxFile - 1, 0);
      SizesAfter(c, f, e.rec, e.faults);
      AllAccepted(c, DataWrite(c, f, e.rec, e.faults).files, es[1..]);
      if Fits(c, f, e.rec) {
        assert |e.rec| <= c.maxSize;
      }
    }
  }

  // ---------------------------------------------------------------- bounds

  ghost predicate Bounded(c: Config, f: Family)
  {
    forall k :: k in f ==> Size(f, k) <= c.maxSize
  }

  ghost predicate Numbered(c: Config, f: Family)
  {
    forall k :: k in f ==> k <= c.Top()
  }

  lemma {:induction false} RenameOldBounds(c: Config, f: Family, i: nat, shiftAt: nat)
    requires Bounded(c, f)
    ensures Bounded(c, RenameOld(f, i, shiftAt).0)
    decreases i
  {
    if i > 1 && i != shiftAt {
      RenameOldBounds(c, Rename(f, i - 1, i), i - 1, shiftAt);
    }
  }

  lemma {:induction false} RenameOldNumbered(c: Config, f: Family, i: nat, shiftAt: nat)
    requires Numbered(c, f) && (i > 1 ==> i <= c.Top())
    ensures Numbered(c, RenameOld(f, i, shiftAt).0)
    decreases i
  {
    if i > 1 && i != shiftAt {
      RenameOldNumbered(c, Rename(f, i - 1, i), i - 1, shiftAt);
    }
  }

  lemma AppendSize(f: Family, piece: seq<byte>)
    requires 0 in f
    ensures Size(Append(f, piece), 0) == Size(f, 0) + |piece|
    ensures forall k :: k != 0 ==> Size(Append(f, piece), k) == Size(f, k)
  {
    FlattenAppend(f[0], [piece]);
    assert Flatten([piece]) == piece;
  }

  /** True when the live file has to be set aside and the file system refuses to. */
  ghost predicate Stuck(c: Config, f: Family, rec: seq<byte>, faults: Faults)
    requires c.Valid()
  {
    && !Fits(c, f, rec)
    && !(2 <= faults.shiftAt < c.maxFile)
    && faults.live
    && (|rec| <= c.maxSize || Size(f, 0) > 0)
  }

  lemma {:induction false} RenameOldOk(f: Family, i: nat, shiftAt: nat)
    ensures RenameOld(f, i, shiftAt).1 <==> !(2 <= shiftAt <= i)
    decreases i
  {
    if i > 1 && i != shiftAt {
      RenameOldOk(Rename(f, i - 1, i), i - 1, shiftAt);
    }
  }

  /** Every file stays within the bound exactly when the live file could be set aside. */
  lemma SizesAfter(c: Config, f: Family, rec: seq<byte>, faults: Faults)
    requires c.Valid() && 0 in f && Bounded(c, f)
    ensures Bounded(c, DataWrite(c, f, rec, faults).files) <==> !Stuck(c, f, rec, faults)
  {
    hide RenameOld, Flatten;
    if Fits(c, f, rec) {
      AppendSize(f, rec);
    } else {
      var g := RenameOld(f, c.maxFile - 1, faults.shiftAt).0;
      LiveStays(f, c.maxFile - 1, faults.shiftAt);
      RenameOldOk(f, c.maxFile - 1, faults.shiftAt);
      RenameOldBounds(c, f, c.maxFile - 1, faults.shiftAt);
      FreshBounded(c, g);
      if RenameOld(f, c.maxFile - 1, faults.shiftAt).1 {
        var d := Dump(c, f, faults).0;
        AppendSize(d, Cropped(c, rec));
        assert Bounded(c, Append(d, Cropped(c, rec))) <==> Size(d, 0) + |Cropped(c, rec)| <= c.maxSize;
      }
    }
  }

  lemma FreshBounded(c: Config, g: Family)
    requires Bounded(c, g)
    ensures Bounded(c, Rename(g, 0, 1)[0 := []]) && Size(Rename(g, 0, 1)[0 := []], 0) == 0
  {
    var h := Rename(g, 0, 1)[0 := []];
    forall k | k in h
      ensures Size(h, k) <= c.maxSize
    {
      assert k == 0 || (k == 1 && 0 in g && h[1] == g[0]) || (k in g && h[k] == g[k]);
    }
  }

  lemma {:induction false} RangeSize(n: nat, s: set<nat>)
    requires forall k :: k in s ==> k <= n
    ensures |s| <= n + 1
  {
    if n == 0 {
      assert s <= {0};
      SubsetSize(s, {0});
    } else {
      RangeSize(n - 1, s - {n});
    }
  }

  lemma {:induction false} SubsetSize<T>(a: set<T>, b: set<T>)
    requires a <= b
    ensures |a| <= |b|
  {
    if a != {} {
      var x :| x in a;
      SubsetSize(a - {x}, b - {x});
    }
  }

  lemma NumberedAfter(c: Config, f: Family, rec: seq<byte>, faults: Faults)
    requires c.Valid() && 0 in f && Numbered(c, f)
    ensures Numbered(c, DataWrite(c, f, rec, faults).files)
  {
    hide RenameOld;
    LiveStays(f, c.maxFile - 1, faults.shiftAt);
    RenameOldNumbered(c, f, c.maxFile - 1, faults.shiftAt);
  }

  /** Over every run, whatever renames are refused: never more than max(2, maxFile) files. */
  lemma {:induction false} FamilyNumber(c: Config, f: Family, es: seq<Entry>)
    requires c.Valid() && 0 in f && Numbered(c, f)
    ensures |Run(c, f, es).files| <= if c.maxFile < 2 then 2 else c.maxFile
    decreases |es|
  {
    if es == [] {
      RangeSize(c.Top(), f.Keys);
    } else {
      NumberedAfter(c, f, es[0].rec, es[0].faults);
      FamilyNumber(c, DataWrite(c, f, es[0].rec, es[0].faults).files, es[1..]);
    }
  }

  ghost predicate NeverStuck(c: Config, f: Family, es: seq<Entry>)
    requires c.Valid() && 0 in f
    decreases |es|
  {
    es != [] ==>
      && !Stuck(c, f, es[0].rec, es[0].faults)
      && NeverStuck(c, DataWrite(c, f, es[0].rec, es[0].faults).files, es[1..])
  }

  ghost predicate AlwaysBounded(c: Config, f: Family, es: seq<Entry>)
    requires c.Valid() && 0 in f
    decreases |es|
  {
    Bounded(c, f) && (es != [] ==> AlwaysBounded(c, DataWrite(c, f, es[0].rec, es[0].faults).files, es[1..]))
  }

  /** Over every run: the files stay within `maxSize` throughout exactly when no write is stuck. */
  lemma {:induction false} FamilySizes(c: Config, f: Family, es: seq<Entry>)
    requires c.Valid() && 0 in f && Bounded(c, f)
    ensures AlwaysBounded(c, f, es) <==> NeverStuck(c, f, es)
    ensures NeverStuck(c, f, es) ==> Bounded(c, Run(c, f, es).files)
    ensures NoFaults(es) ==> NeverStuck(c, f, es)
    decreases |es|
  {
    hide Bounded, Stuck, DataWrite;
    if es != [] {
      SizesAfter(c, f, es[0].rec, es[0].faults);
      NoFaultNotStuck(c, f, es[0].rec);
      if Bounded(c, DataWrite(c, f, es[0].rec, es[0].faults).files) {
        FamilySizes(c, DataWrite(c, f, es[0].rec, es[0].faults).files, es[1..]);
      }
    }
  }

  lemma NoFaultNotStuck(c: Config, f: Family, rec: seq<byte>)
    requires c.Valid()
    ensures !Stuck(c, f, rec, Faults(0, false))
  {
  }

  /** A live file that is full and cannot be set aside outgrows the bound. */
  lemma OversizedFile()
    ensures var es := [Entry(Plain(MIN_LOG_FILE_SIZE), Faults(0, false)), Entry([NEWLINE], Faults(0, true))];
            Size(Run(Config(MIN_LOG_FILE_SIZE, 1), map[0 := []], es).files, 0) == MIN_LOG_FILE_SIZE + 1
  {
    hide Plain;
    var c := Config(MIN_LOG_FILE_SIZE, 1);
    var full := Plain(MIN_LOG_FILE_SIZE);
    var es := [Entry(full, Faults(0, false)), Entry([NEWLINE], Faults(0, true))];
    var start: Family := map[0 := []];
    assert Size(start, 0) == 0;
    AppendSize(start, full);
    var f1 := Append(start, full);
    assert DataWrite(c, start, full, Faults(0, false)).files == f1;
    AppendSize(f1, [NEWLINE]);
    assert DataWrite(c, f1, [NEWLINE], Faults(0, true)).files == Append(f1, [NEWLINE]);
    assert es[1..] == [es[1]] && [es[1]][1..] == [];
    assert Run(c, f1, es[1..]).files == Append(f1, [NEWLINE]);
  }

  // ---------------------------------------------------------------- the code

  class LogTerminal {
    const config: Config
    var files: map<nat, seq<byte>>
    ghost var pieces: Family

    ghost predicate Valid()
      reads this
    {
      && config.Valid() && 0 in pieces
      && files.Keys == pieces.Keys
      && forall k :: k in files ==> files[k] == Flatten(pieces[k])
    }

    /** The log files found are kept, each as one piece, and the live one is opened for appending. */
    constructor (c: Config, found: map<nat, seq<byte>>)
      requires c.Valid()
      ensures Valid() && config == c
      ensures files == if 0 in found then found else found[0 := []]
      ensures forall k :: k in found ==> pieces[k] == [found[k]]
      ensures found == map[] ==> pieces == map[0 := []]
    {
      config := c;
      files := if 0 in found then found else found[0 := []];
      pieces := map k | k in found.Keys + {0} :: if k in found then [found[k]] else [];
      new;
      forall k | k in files
        ensures files[k] == Flatten(pieces[k])
      {
        if k in found {
          FlattenOne(found[k]);
        }
      }
    }

    method RenameFile(from: nat, to: nat)
      requires Valid() && from != to && (from == 0 ==> to != 0)
      requires from != 0 || to == 1
      modifies this
      ensures files.Keys == pieces.Keys && forall k :: k in files ==> files[k] == Flatten(pieces[k])
      ensures pieces == Rename(old(pieces), from, to)
    {
      if from in files {
        files := (files - {from})[to := files[from]];
        pieces := Rename(pieces, from, to);
      }
    }

    method RenameOldLogFile(faults: Faults) returns (ok: bool)
      requires Valid()
      modifies this
      ensures Valid()
      ensures (pieces, ok) == RenameOld(old(pieces), config.maxFile - 1, faults.shiftAt)
    {
      var i := config.maxFile - 1;
      while i > 1
        invariant Valid() && 0 <= i
        invariant RenameOld(pieces, i, faults.shiftAt) == RenameOld(old(pieces), config.maxFile - 1, faults.shiftAt)
      {
        if i == faults.shiftAt {
          return false;
        }
        RenameFile(i - 1, i);
        i := i - 1;
      }
      return true;
    }

    method DumpLogFile(faults: Faults) returns (ok: bool)
      requires Valid()
      modifies this
      ensures Valid() && (pieces, ok) == Dump(config, old(pieces), faults)
    {
      ok := RenameOldLogFile(faults);
      if !ok {
        return;
      }
      if !faults.live {
        RenameFile(0, 1);
        files := files[0 := []];
        pieces := pieces[0 := []];
      }
    }

    method Put(buf: seq<byte>)
      requires Valid()
      modifies this
      ensures Valid() && pieces == Append(old(pieces), buf)
    {
      FlattenAppend(pieces[0], [buf]);
      assert Flatten([buf]) == buf;
      files := files[0 := files[0] + buf];
      pieces := Append(pieces, buf);
    }

    method JsonDataWrite(buf: seq<byte>, faults: Faults) returns (ret: int)
      requires Valid()
      modifies this
      ensures Valid()
      ensures pieces == DataWrite(config, old(pieces), buf, faults).files
      ensures ret < 0 <==> DataWrite(config, old(pieces), buf, faults).accepted == []
    {
      var available := ToInt64(config.maxSize - |files[0]|);
      if |buf| <= available {
        Put(buf);
        return |buf|;
      }
      var ok := DumpLogFile(faults);
      if !ok {
        return -1;
      }
      var n := if config.maxSize < |buf| then config.maxSize else |buf|;
      Put(if n < |buf| then buf[..n] else buf);
      return |buf| - n;
    }
  }
}
