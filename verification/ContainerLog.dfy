/** `shim_write_container_log_file` as the shim runs it: two static caches changed in
    place, one per stream, and one log that both streams write records to. */
module ContainerLog {
  import opened Common
  import opened LogSegments

  const BUF_CACHE_SIZE: nat := 32 * 1024
  const DEFAULT_IO_COPY_BUF: nat := 16 * 1024

  datatype StdId = StdIn | StdOut | StdErr | ExecResize

  /** A record as it is handed to the logger. */
  datatype Record = Record(id: StdId, bytes: seq<byte>)

  /** The two caches' contents and the records handed on so far. */
  datatype Log = Log(out: seq<byte>, err: seq<byte>, records: seq<Record>)

  function Tagged(id: StdId, rs: seq<seq<byte>>): (r: seq<Record>)
    ensures |r| == |rs|
    ensures forall i :: 0 <= i < |r| ==> r[i] == Record(id, rs[i])
  {
    seq(|rs|, i requires 0 <= i < |rs| => Record(id, rs[i]))
  }

  function CacheOf(l: Log, id: StdId): seq<byte>
  {
    if id == StdOut then l.out else if id == StdErr then l.err else []
  }

  function Take(l: Log, id: StdId, t: Turn): Log
  {
    match id
    case StdOut => Log(t.cache, l.err, l.records + Tagged(id, t.records))
    case StdErr => Log(l.out, t.cache, l.records + Tagged(id, t.records))
    case _ => l
  }

  /** One call: data, or the final call with a null buffer. */
  function Written(l: Log, id: StdId, buf: Option<seq<byte>>): Log
  {
    Take(l, id,
         match buf
         case Some(chunk) => Feed(BUF_CACHE_SIZE, CacheOf(l, id), chunk)
         case None => Flush(CacheOf(l, id)))
  }

  // ---------------------------------------------------------------- whole runs

  datatype Read = Read(id: StdId, chunk: seq<byte>)

  function AllWritten(l: Log, input: seq<Read>): Log
    decreases |input|
  {
    if input == [] then l
    else AllWritten(Written(l, input[0].id, Some(input[0].chunk)), input[1..])
  }

  /** The shim's exit: one final call per stream. */
  function Finished(l: Log): Log
  {
    Written(Written(l, StdOut, None), StdErr, None)
  }

  /** The bytes a stream carried. */
  function BytesOf(id: StdId, input: seq<Read>): seq<byte>
  {
    if input == [] then []
    else (if input[0].id == id then input[0].chunk else []) + BytesOf(id, input[1..])
  }

  /** The records of one stream. */
  function RecordsOf(id: StdId, rs: seq<Record>): seq<seq<byte>>
  {
    if rs == [] then []
    else (if rs[0].id == id then [rs[0].bytes] else []) + RecordsOf(id, rs[1..])
  }

  ghost predicate Chunked(input: seq<Read>)
  {
    forall i :: 0 <= i < |input| ==> |input[i].chunk| <= DEFAULT_IO_COPY_BUF
  }

  ghost predicate Sound(l: Log)
  {
    && Settled(BUF_CACHE_SIZE, DEFAULT_IO_COPY_BUF, l.out)
    && Settled(BUF_CACHE_SIZE, DEFAULT_IO_COPY_BUF, l.err)
  }

  lemma WrittenSound(l: Log, id: StdId, buf: Option<seq<byte>>)
    requires Sound(l) && (buf.Some? ==> |buf.value| <= DEFAULT_IO_COPY_BUF)
    ensures Sound(Written(l, id, buf))
  {
    hide Feed, Lines, Tail, Tagged;
    if buf.Some? {
      FeedSettled(BUF_CACHE_SIZE, DEFAULT_IO_COPY_BUF, CacheOf(l, id), buf.value);
    }
  }

  lemma {:induction false} RecordsOfAppend(id: StdId, a: seq<Record>, b: seq<Record>)
    ensures RecordsOf(id, a + b) == RecordsOf(id, a) + RecordsOf(id, b)
  {
    if a == [] {
      assert a + b == b;
    } else {
      assert (a + b)[1..] == a[1..] + b;
      RecordsOfAppend(id, a[1..], b);
      Assoc(if a[0].id == id then [a[0].bytes] else [], RecordsOf(id, a[1..]), RecordsOf(id, b));
    }
  }

  lemma {:induction false} RecordsOfTagged(id: StdId, x: StdId, rs: seq<seq<byte>>)
    ensures RecordsOf(id, Tagged(x, rs)) == if id == x then rs else []
  {
    if rs != [] {
      RecordsOfTagged(id, x, rs[1..]);
      assert Tagged(x, rs)[1..] == Tagged(x, rs[1..]);
    }
  }

  lemma TakeRecords(l: Log, id: StdId, t: Turn, x: StdId)
    requires id in {StdOut, StdErr}
    ensures RecordsOf(x, Take(l, id, t).records) ==
            RecordsOf(x, l.records) + (if x == id then t.records else [])
  {
    hide RecordsOf, Tagged;
    RecordsOfAppend(x, l.records, Tagged(id, t.records));
    RecordsOfTagged(x, id, t.records);
  }

  /** What a call does to one stream's records still to come. */
  lemma WrittenIsPrefix(l: Log, r: Read, id: StdId, future: seq<byte>)
    requires Sound(l) && id in {StdOut, StdErr}
    ensures var l' := Written(l, r.id, Some(r.chunk));
            RecordsOf(id, l.records)
              + Segments(BUF_CACHE_SIZE, CacheOf(l, id) + (if r.id == id then r.chunk else []) + future)
            == RecordsOf(id, l'.records) + Segments(BUF_CACHE_SIZE, CacheOf(l', id) + future)
  {
    hide Segments, Feed, RecordsOf;
    if r.id in {StdOut, StdErr} {
      var t := Feed(BUF_CACHE_SIZE, CacheOf(l, r.id), r.chunk);
      TakeRecords(l, r.id, t, id);
      if r.id == id {
        FeedIsPrefix(BUF_CACHE_SIZE, CacheOf(l, id), r.chunk, future);
        Assoc(RecordsOf(id, l.records), t.records, Segments(BUF_CACHE_SIZE, t.cache + future));
      } else {
        assert RecordsOf(id, l.records) + [] == RecordsOf(id, l.records);
        assert CacheOf(l, id) + [] == CacheOf(l, id);
      }
    } else {
      assert CacheOf(l, id) + [] == CacheOf(l, id);
    }
  }

  lemma FinishedRecords(l: Log, id: StdId)
    requires Sound(l) && id in {StdOut, StdErr}
    ensures RecordsOf(id, Finished(l).records)
            == RecordsOf(id, l.records) + Segments(BUF_CACHE_SIZE, CacheOf(l, id))
  {
    hide Segments, Flush, RecordsOf, Tagged;
    var l1 := Written(l, StdOut, None);
    TakeRecords(l, StdOut, Flush(l.out), id);
    TakeRecords(l1, StdErr, Flush(l.err), id);
    FlushIsRest(BUF_CACHE_SIZE, CacheOf(l, id));
    var a, b := RecordsOf(id, l.records), Flush(CacheOf(l, id)).records;
    assert a + b + [] == a + b && a + [] == a;
  }

  lemma {:induction false} RunRecords(l: Log, input: seq<Read>, id: StdId)
    requires Sound(l) && Chunked(input) && id in {StdOut, StdErr}
    ensures RecordsOf(id, Finished(AllWritten(l, input)).records)
            == RecordsOf(id, l.records) + Segments(BUF_CACHE_SIZE, CacheOf(l, id) + BytesOf(id, input))
    decreases |input|
  {
    hide Segments, Finished, Written, Sound, RecordsOf;
    if input == [] {
      FinishedRecords(l, id);
      assert CacheOf(l, id) + [] == CacheOf(l, id);
    } else {
      var r := input[0];
      var l' := Written(l, r.id, Some(r.chunk));
      WrittenSound(l, r.id, Some(r.chunk));
      RunRecords(l', input[1..], id);
      WrittenIsPrefix(l, r, id, BytesOf(id, input[1..]));
      Assoc(CacheOf(l, id), if r.id == id then r.chunk else [], BytesOf(id, input[1..]));
    }
  }

  const FRESH := Log([], [], [])

  /** However the two streams' bytes were split into reads and however the reads were
      interleaved, each stream's records are the canonical records of its own bytes. */
  lemma RecordsAreCanonical(input: seq<Read>, id: StdId)
    requires Chunked(input) && id in {StdOut, StdErr}
    ensures RecordsOf(id, Finished(AllWritten(FRESH, input)).records)
            == Segments(BUF_CACHE_SIZE, BytesOf(id, input))
  {
    hide Segments, Finished, AllWritten;
    RunRecords(FRESH, input, id);
    assert [] + BytesOf(id, input) == BytesOf(id, input);
  }

  /** So two runs that carried the same bytes on a stream logged the same records for it. */
  lemma ChunkingIndependence(a: seq<Read>, b: seq<Read>, id: StdId)
    requires Chunked(a) && Chunked(b) && id in {StdOut, StdErr}
    ensures BytesOf(id, a) == BytesOf(id, b)
            <==> RecordsOf(id, Finished(AllWritten(FRESH, a)).records)
                 == RecordsOf(id, Finished(AllWritten(FRESH, b)).records)
  {
    hide Segments, Finished, AllWritten;
    RecordsAreCanonical(a, id);
    RecordsAreCanonical(b, id);
    SegmentsCanonical(BUF_CACHE_SIZE, BytesOf(id, a));
    SegmentsCanonical(BUF_CACHE_SIZE, BytesOf(id, b));
  }

  // -- records are written at once, in the order of the calls

  /** A call only adds records, behind all earlier ones of both streams, and only its own stream's. */
  lemma CallAppends(l: Log, id: StdId, buf: Option<seq<byte>>)
    ensures var l' := Written(l, id, buf);
            && l.records <= l'.records
            && (forall i :: |l.records| <= i < |l'.records| ==> l'.records[i].id == id)
            && (id != StdOut ==> l'.out == l.out) && (id != StdErr ==> l'.err == l.err)
            && (id !in {StdOut, StdErr} ==> l' == l)
  {
    hide Feed, Flush;
  }

  lemma {:induction false} RunSplits(l: Log, a: seq<Read>, b: seq<Read>)
    ensures AllWritten(l, a + b) == AllWritten(AllWritten(l, a), b)
    decreases |a|
  {
    hide Written;
    if a == [] {
      assert a + b == b;
    } else {
      assert (a + b)[1..] == a[1..] + b;
      RunSplits(Written(l, a[0].id, Some(a[0].chunk)), a[1..], b);
    }
  }

  /** Whatever is read later, the records written so far stay in front. */
  lemma {:induction false} RecordsStay(l: Log, a: seq<Read>, b: seq<Read>)
    ensures AllWritten(l, a).records <= AllWritten(l, a + b).records
    decreases |b|
  {
    hide Written, AllWritten;
    if b == [] {
      assert a + b == a;
    } else {
      var m := |b| - 1;
      RecordsStay(l, a, b[..m]);
      assert a + b == a + b[..m] + [b[m]];
      RunSplits(l, a + b[..m], [b[m]]);
      OneRead(AllWritten(l, a + b[..m]), b[m]);
      CallAppends(AllWritten(l, a + b[..m]), b[m].id, Some(b[m].chunk));
    }
  }

  lemma OneRead(l: Log, r: Read)
    ensures AllWritten(l, [r]) == Written(l, r.id, Some(r.chunk))
  {
    hide Written;
    var l' := Written(l, r.id, Some(r.chunk));
    assert [r][1..] == [] && AllWritten(l', []) == l';
  }

  /** After every read of a run: what the stream's cache holds of the bytes that fitted has no newline,
      so each complete line among them is in a record; only bytes that did not fit may have one. */
  lemma LinesAreWritten(input: seq<Read>, r: Read)
    requires Chunked(input) && r.id in {StdOut, StdErr}
    ensures var before, after := AllWritten(FRESH, input), AllWritten(FRESH, input + [r]);
            exists t, held ::
              && |CacheOf(before, r.id)| < BUF_CACHE_SIZE
              && Answers(BUF_CACHE_SIZE, CacheOf(before, r.id), r.chunk, t, held)
              && RecordsOf(r.id, after.records) == RecordsOf(r.id, before.records) + t.records
              && CacheOf(after, r.id) == t.cache
  {
    hide AllWritten, RecordsOf, Feed, Answers;
    var before := AllWritten(FRESH, input);
    RunSound(FRESH, input);
    RunSplits(FRESH, input, [r]);
    OneRead(before, r);
    var held := FeedAnswers(BUF_CACHE_SIZE, CacheOf(before, r.id), r.chunk);
    TakeRecords(before, r.id, Feed(BUF_CACHE_SIZE, CacheOf(before, r.id), r.chunk), r.id);
  }

  // -- a second flush

  function OnOut(chunks: seq<seq<byte>>): (input: seq<Read>)
    ensures |input| == |chunks| && forall i :: 0 <= i < |input| ==> input[i] == Read(StdOut, chunks[i])
  {
    seq(|chunks|, i requires 0 <= i < |chunks| => Read(StdOut, chunks[i]))
  }

  lemma {:induction false} OneStream(l: Log, chunks: seq<seq<byte>>)
    ensures AllWritten(l, OnOut(chunks)).out == Run(BUF_CACHE_SIZE, l.out, chunks)
    decreases |chunks|
  {
    hide Feed;
    if chunks != [] {
      assert OnOut(chunks)[1..] == OnOut(chunks[1..]);
      OneStream(Written(l, StdOut, Some(chunks[0])), chunks[1..]);
    }
  }

  /** Reads of at most two bytes after which flushing once more writes the last record again. */
  lemma SecondFlushRepeats()
    ensures var input := OnOut(Stray(BUF_CACHE_SIZE));
            var once := Finished(AllWritten(FRESH, input));
            && Chunked(input)
            && RecordsOf(StdOut, Finished(once).records) == RecordsOf(StdOut, once.records) + [[NEWLINE]]
  {
    hide AllWritten, RecordsOf, Run, Stray;
    var input := OnOut(Stray(BUF_CACHE_SIZE));
    var l := AllWritten(FRESH, input);
    OneStream(FRESH, Stray(BUF_CACHE_SIZE));
    StrayNewline(BUF_CACHE_SIZE);
    assert l.out == [NEWLINE];
    FlushRecords(l);
    FlushRecords(Finished(l));
  }

  lemma FlushRecords(l: Log)
    requires l.out == [NEWLINE]
    ensures Finished(l).out == [NEWLINE]
    ensures RecordsOf(StdOut, Finished(l).records) == RecordsOf(StdOut, l.records) + [[NEWLINE]]
  {
    hide RecordsOf;
    var t := Flush([NEWLINE]);
    assert t == Turn([[NEWLINE]], [NEWLINE]) by {
      assert FirstNewline([NEWLINE]) == 0 && [NEWLINE][1..] == [] && [NEWLINE][..1] == [NEWLINE];
    }
    TakeRecords(l, StdOut, t, StdOut);
    var l1 := Take(l, StdOut, t);
    TakeRecords(l1, StdErr, Flush(l1.err), StdOut);
    assert RecordsOf(StdOut, l1.records) + [] == RecordsOf(StdOut, l1.records);
  }

  lemma {:induction false} RunSound(l: Log, input: seq<Read>)
    requires Sound(l) && Chunked(input)
    ensures Sound(AllWritten(l, input))
    decreases |input|
  {
    hide Written, Sound;
    if input != [] {
      WrittenSound(l, input[0].id, Some(input[0].chunk));
      RunSound(Written(l, input[0].id, Some(input[0].chunk)), input[1..]);
    }
  }

  /** At every moment of a run, before the exit: nothing received is lost, doubled or
      moved, and both caches have room for the next read. */
  lemma {:induction false} Conservation(l: Log, input: seq<Read>, id: StdId)
    requires Sound(l) && Chunked(input) && id in {StdOut, StdErr}
    ensures var l' := AllWritten(l, input);
            && Sound(l')
            && Flatten(RecordsOf(id, l'.records)) + CacheOf(l', id)
               == Flatten(RecordsOf(id, l.records)) + CacheOf(l, id) + BytesOf(id, input)
  {
    hide Segments, Finished, AllWritten, RecordsOf, BytesOf, Sound;
    var l' := AllWritten(l, input);
    RunSound(l, input);
    RunRecords(l, input, id);
    FinishedRecords(l', id);
    SegmentsCanonical(BUF_CACHE_SIZE, CacheOf(l', id));
    SegmentsCanonical(BUF_CACHE_SIZE, CacheOf(l, id) + BytesOf(id, input));
    FlattenAppend(RecordsOf(id, l'.records), Segments(BUF_CACHE_SIZE, CacheOf(l', id)));
    FlattenAppend(RecordsOf(id, l.records), Segments(BUF_CACHE_SIZE, CacheOf(l, id) + BytesOf(id, input)));
    Assoc(Flatten(RecordsOf(id, l.records)), CacheOf(l, id), BytesOf(id, input));
  }

  // ---------------------------------------------------------------- the code

  /** `cache_out`/`size_out` or `cache_err`/`size_err`. */
  class StreamCache {
    const cache: array<byte>
    var size: nat

    constructor ()
      ensures cache.Length == BUF_CACHE_SIZE && size == 0 && fresh(cache)
    {
      cache := new byte[BUF_CACHE_SIZE];
      size := 0;
    }
  }

  class Terminal {
    const out: StreamCache
    const err: StreamCache
    var records: seq<Record>

    ghost predicate Apart()
    {
      out != err && out.cache != err.cache
    }

    ghost predicate Fits()
      reads out, err
    {
      && out.cache.Length == err.cache.Length == BUF_CACHE_SIZE
      && out.size <= BUF_CACHE_SIZE && err.size <= BUF_CACHE_SIZE
    }

    ghost function View(): Log
      requires Fits()
      reads this, out, err, out.cache, err.cache
    {
      Log(out.cache[..out.size], err.cache[..err.size], records)
    }

    ghost predicate Valid()
      reads this, out, err, out.cache, err.cache
    {
      Apart() && Fits() && Sound(View())
    }

    constructor ()
      ensures Valid() && View() == FRESH
      ensures fresh(out) && fresh(err) && fresh(out.cache) && fresh(err.cache)
    {
      out := new StreamCache();
      err := new StreamCache();
      records := [];
    }

    /** The scan for newlines: emits the lines of the first `n` bytes and returns where
        the tail begins. */
    method EmitLines(id: StdId, c: StreamCache, n: nat) returns (begin: nat)
      requires n <= c.cache.Length
      modifies this`records
      ensures begin <= n && c.cache[begin..n] == Tail(c.cache[..n])
      ensures records == old(records) + Tagged(id, Lines(c.cache[..n]))
      ensures begin == 0 <==> Lines(c.cache[..n]) == []
    {
      hide Lines, Tail, FirstNewline, Scanned, Tagged;
      begin := 0;
      var index := 0;
      ghost var b := c.cache[..n];
      ghost var done: seq<seq<byte>> := [];
      ScanStart(b);
      assert records == records + Tagged(id, done);
      while index < n
        invariant begin <= index <= n
        invariant Scanned(b, done, begin, index)
        invariant records == old(records) + Tagged(id, done)
        invariant b == c.cache[..n]
      {
        if c.cache[index] == NEWLINE {
          ghost var r := b[begin..index + 1];
          Window(c.cache, n, begin, index + 1);
          ScanLine(b, done, begin, index);
          TaggedSnoc(old(records), id, done, r);
          records := records + [Record(id, c.cache[begin..index + 1])];
          done := done + [r];
          begin := index + 1;
        } else {
          ScanOn(b, done, begin, index);
        }
        index := index + 1;
      }
      ScanEnd(b, done, begin);
      Window(c.cache, n, begin, n);
    }

    /** The first copy: as much of the buffer as there is room for. */
    method Fill(c: StreamCache, buf: array<byte>, count: nat) returns (taken: nat, left: nat)
      requires c.size < c.cache.Length == BUF_CACHE_SIZE && buf != c.cache && count <= buf.Length
      modifies c, c.cache
      ensures taken == Taken(BUF_CACHE_SIZE, old(c.cache[..c.size]), buf[..count]) && left == count - taken
      ensures c.size == old(c.size) + taken <= BUF_CACHE_SIZE
      ensures c.cache[..c.size] == old(c.cache[..c.size]) + buf[..count][..taken]
    {
      var upto := if count > BUF_CACHE_SIZE - c.size then BUF_CACHE_SIZE else c.size + count;
      taken, left := 0, 0;
      if upto > c.size {
        taken := upto - c.size;
        forall i | 0 <= i < taken { c.cache[c.size + i] := buf[i]; }
        left := count - taken;
        c.size := c.size + taken;
      }
    }

    /** Moves what follows `begin` to the front. */
    method ShiftDown(c: StreamCache, begin: nat)
      requires begin <= c.size <= c.cache.Length
      modifies c, c.cache
      ensures c.size == old(c.size) - begin
      ensures c.cache[..c.size] == old(c.cache[begin..c.size])
    {
      forall i | 0 <= i < c.size - begin { c.cache[i] := c.cache[begin + i]; }
      c.size := c.size - begin;
    }

    /** The second copy: what did not fit. */
    method Append(c: StreamCache, buf: array<byte>, taken: nat, left: nat)
      requires c.size + left <= c.cache.Length && taken + left <= buf.Length && buf != c.cache
      modifies c, c.cache
      ensures c.size == old(c.size) + left
      ensures c.cache[..c.size] == old(c.cache[..c.size]) + buf[taken..taken + left]
    {
      forall i | 0 <= i < left { c.cache[c.size + i] := buf[taken + i]; }
      c.size := c.size + left;
    }

    /** A call on one stream's cache. */
    method WriteStream(id: StdId, c: StreamCache, buf: array?<byte>, count: int)
      requires c.cache.Length == BUF_CACHE_SIZE && c.size < BUF_CACHE_SIZE && buf != c.cache
      requires Settled(BUF_CACHE_SIZE, DEFAULT_IO_COPY_BUF, c.cache[..c.size])
      requires buf != null ==> count <= buf.Length && count <= DEFAULT_IO_COPY_BUF
      modifies this`records, c, c.cache
      ensures c.size < BUF_CACHE_SIZE
      ensures var t := Answer(old(c.cache[..c.size]), buf, count);
              records == old(records) + Tagged(id, t.records) && c.cache[..c.size] == t.cache
    {
      hide Feed, Scan, Flush, FirstNewline, Tagged, NoNewline;
      ghost var cache := c.cache[..c.size];
      ghost var t := Answer(cache, buf, count);
      var taken, left := 0, 0;
      if buf != null && count > 0 {
        FeedSettled(BUF_CACHE_SIZE, DEFAULT_IO_COPY_BUF, cache, buf[..count]);
        taken, left := Fill(c, buf, count);
        FeedIsScan(BUF_CACHE_SIZE, cache, buf[..count]);
        Window(buf, count, taken, count);
        assert t == Scan(BUF_CACHE_SIZE, c.cache[..c.size], buf[taken..count]);
      } else {
        FeedNothing(cache);
      }
      if c.size == 0 {
        NothingThere(if buf == null then [] else buf[taken..taken + left]);
        return;
      }
      ghost var b := c.cache[..c.size];
      Drain(id, c, buf == null);
      if left > 0 {
        ScanLeft(b, buf[taken..count]);
        Append(c, buf, taken, left);
      }
    }

    /** Scan, flush and shift: everything between the two copies. */
    method Drain(id: StdId, c: StreamCache, final: bool)
      requires 0 < c.size <= c.cache.Length == BUF_CACHE_SIZE
      modifies this`records, c, c.cache
      ensures c.size <= old(c.size)
      ensures var b := old(c.cache[..c.size]);
              var t := if final then Flush(b) else Scan(BUF_CACHE_SIZE, b, []);
              records == old(records) + Tagged(id, t.records) && c.cache[..c.size] == t.cache
    {
      hide Lines, Tail, FirstNewline, Tagged, NoNewline;
      ghost var b := c.cache[..c.size];
      var begin := EmitLines(id, c, c.size);
      if final || (begin == 0 && c.size == BUF_CACHE_SIZE) {
        if begin < c.size {
          TaggedSnoc(old(records), id, Lines(b), Tail(b));
          records := records + [Record(id, c.cache[begin..c.size])];
          begin := 0;
          c.size := 0;
        }
        if final {
          return;
        }
        assert Lines(b) + [b] == [b];
      } else {
        NoMore(Tail(b));
      }
      if begin > 0 {
        ShiftDown(c, begin);
      }
    }

    /** What a call owes, from the state it finds. */
    ghost static function Answer(cache: seq<byte>, buf: array?<byte>, count: int): Turn
      requires buf != null ==> count <= buf.Length
      reads buf
    {
      if buf == null then Flush(cache)
      else Feed(BUF_CACHE_SIZE, cache, if count > 0 then buf[..count] else [])
    }

    method Write(id: StdId, buf: array?<byte>, count: int)
      requires Valid()
      requires buf != null ==> buf != out.cache && buf != err.cache
      requires buf != null ==> count <= buf.Length && count <= DEFAULT_IO_COPY_BUF
      modifies this`records, out, err, out.cache, err.cache
      ensures Valid()
      ensures View() == Written(old(View()), id,
                if buf == null then None
                else Some(if count > 0 then old(buf[..count]) else []))
    {
      ghost var data := if buf == null then None else Some(if count > 0 then buf[..count] else []);
      WrittenSound(View(), id, data);
      match id {
        case StdOut => WriteStream(id, out, buf, count);
        case StdErr => WriteStream(id, err, buf, count);
        case _ => return;
      }
    }
  }

  lemma FeedNothing(cache: seq<byte>)
    requires |cache| < BUF_CACHE_SIZE
    ensures Feed(BUF_CACHE_SIZE, cache, []) == Scan(BUF_CACHE_SIZE, cache, [])
    ensures Settled(BUF_CACHE_SIZE, DEFAULT_IO_COPY_BUF, cache) ==>
              Settled(BUF_CACHE_SIZE, DEFAULT_IO_COPY_BUF, Scan(BUF_CACHE_SIZE, cache, []).cache)
  {
    hide Feed, Scan;
    FeedIsScan(BUF_CACHE_SIZE, cache, []);
    var none: seq<byte> := [];
    assert cache + none[..0] == cache && none[0..] == none;
    if Settled(BUF_CACHE_SIZE, DEFAULT_IO_COPY_BUF, cache) {
      FeedSettled(BUF_CACHE_SIZE, DEFAULT_IO_COPY_BUF, cache, []);
    }
  }

  lemma NothingThere(left: seq<byte>)
    ensures Scan(BUF_CACHE_SIZE, [], left) == Turn([], []) && Flush([]) == Turn([], [])
    ensures forall rs: seq<Record>, id :: rs + Tagged(id, []) == rs
  {
  }

  lemma ScanLeft(b: seq<byte>, left: seq<byte>)
    requires b != []
    ensures var t := Scan(BUF_CACHE_SIZE, b, []);
            Scan(BUF_CACHE_SIZE, b, left) == Turn(t.records, t.cache + left)
  {
    NoMore(Tail(b));
  }

  lemma Window(a: array<byte>, n: nat, i: nat, j: nat)
    requires i <= j <= n <= a.Length
    ensures a[..n][i..j] == a[i..j]
  {
  }

  /** The scan has emitted `done`, the lines before `begin`, and seen no newline since. */
  ghost predicate Scanned(b: seq<byte>, done: seq<seq<byte>>, begin: nat, index: nat)
  {
    && begin <= index <= |b|
    && (forall k :: begin <= k < index ==> b[k] != NEWLINE)
    && Lines(b) == done + Lines(b[begin..])
    && Tail(b) == Tail(b[begin..])
    && (begin == 0 <==> done == [])
  }

  lemma ScanStart(b: seq<byte>)
    ensures Scanned(b, [], 0, 0)
  {
    assert b[0..] == b && [] + Lines(b) == Lines(b);
  }

  lemma ScanOn(b: seq<byte>, done: seq<seq<byte>>, begin: nat, index: nat)
    requires Scanned(b, done, begin, index) && index < |b| && b[index] != NEWLINE
    ensures Scanned(b, done, begin, index + 1)
  {
  }

  lemma LinesStep(b: seq<byte>, begin: nat, index: nat)
    requires begin <= index < |b| && b[index] == NEWLINE
    requires forall k :: begin <= k < index ==> b[k] != NEWLINE
    ensures Lines(b[begin..]) == [b[begin..index + 1]] + Lines(b[index + 1..])
    ensures Tail(b[begin..]) == Tail(b[index + 1..])
  {
    var rest := b[begin..];
    assert FirstNewline(rest) == index - begin;
    assert rest[..index - begin + 1] == b[begin..index + 1];
    assert rest[index - begin + 1..] == b[index + 1..];
  }

  lemma ScanLine(b: seq<byte>, done: seq<seq<byte>>, begin: nat, index: nat)
    requires Scanned(b, done, begin, index) && index < |b| && b[index] == NEWLINE
    ensures Scanned(b, done + [b[begin..index + 1]], index + 1, index + 1)
  {
    LinesStep(b, begin, index);
    Assoc(done, [b[begin..index + 1]], Lines(b[index + 1..]));
  }

  lemma ScanEnd(b: seq<byte>, done: seq<seq<byte>>, begin: nat)
    requires Scanned(b, done, begin, |b|)
    ensures Lines(b) == done && Tail(b) == b[begin..|b|]
  {
    LinesEnd(b, begin);
    NoMore(done);
  }

  lemma LinesEnd(b: seq<byte>, begin: nat)
    requires begin <= |b| && forall k :: begin <= k < |b| ==> b[k] != NEWLINE
    ensures Lines(b[begin..]) == [] && Tail(b[begin..]) == b[begin..|b|]
  {
    assert NoNewline(b[begin..]);
  }

  lemma NoMore<T>(s: seq<T>)
    ensures s + [] == s
  {
  }

  lemma TaggedSnoc(before: seq<Record>, id: StdId, done: seq<seq<byte>>, r: seq<byte>)
    ensures before + Tagged(id, done + [r]) == before + Tagged(id, done) + [Record(id, r)]
  {
  }
}
