/** The container log of the shim, cut into records: `shim_write_container_log_file`
    seen as a function on byte sequences.

    Everything here is parametric in the capacity `cap` of a stream's cache, so that
    the bound the shim relies on can itself be stated; `ContainerLog` fixes it. */
module LogSegments {
  import opened Common

  newtype byte = x: int | 0 <= x < 256

  const NEWLINE: byte := 10

  // ---------------------------------------------------------------- canonical records

  function Flatten<T>(rs: seq<seq<T>>): seq<T>
  {
    if rs == [] then [] else rs[0] + Flatten(rs[1..])
  }

  lemma {:induction false} FlattenAppend<T>(a: seq<seq<T>>, b: seq<seq<T>>)
    ensures Flatten(a + b) == Flatten(a) + Flatten(b)
  {
    if a == [] {
      assert a + b == b;
    } else {
      FlattenAppend(a[1..], b);
      assert (a + b)[0] == a[0] && (a + b)[1..] == a[1..] + b;
      Assoc(a[0], Flatten(a[1..]), Flatten(b));
    }
  }

  lemma FlattenOne<T>(x: seq<T>)
    ensures Flatten([x]) == x
  {
    assert [x][1..] == [] && x + [] == x;
  }

  ghost predicate NoNewline(s: seq<byte>)
  {
    forall k :: 0 <= k < |s| ==> s[k] != NEWLINE
  }

  /** The index of the first newline, or `|s|` when there is none. */
  function FirstNewline(s: seq<byte>): (i: nat)
    ensures i <= |s|
    ensures forall k :: 0 <= k < i ==> s[k] != NEWLINE
    ensures i < |s| ==> s[i] == NEWLINE
  {
    if s == [] || s[0] == NEWLINE then 0 else 1 + FirstNewline(s[1..])
  }

  /** Where a reader with `cap` bytes of room cuts: behind the first newline it can see,
      else when its room or the input is used up. */
  function Cut(cap: nat, s: seq<byte>): (k: nat)
    requires cap > 0 && s != []
    ensures 1 <= k <= |s| && k <= cap
  {
    var i := FirstNewline(s);
    if i < cap && i < |s| then i + 1 else if |s| < cap then |s| else cap
  }

  /** The greedy segmentation, which knows neither chunks nor a cache. */
  function Segments(cap: nat, s: seq<byte>): (rs: seq<seq<byte>>)
    requires cap > 0
  {
    if s == [] then [] else [s[..Cut(cap, s)]] + Segments(cap, s[Cut(cap, s)..])
  }

  /** A record that more input cannot change. */
  ghost predicate Closed(cap: nat, r: seq<byte>)
  {
    && 0 < |r| <= cap
    && (forall k :: 0 <= k < |r| - 1 ==> r[k] != NEWLINE)
    && (r[|r| - 1] == NEWLINE || |r| == cap)
  }

  /** A short last record: no newline yet. */
  ghost predicate Open(cap: nat, r: seq<byte>)
  {
    0 < |r| < cap && NoNewline(r)
  }

  /** Every record is closed, but the last one may be open. */
  ghost predicate Canonical(cap: nat, rs: seq<seq<byte>>)
  {
    && (forall i :: 0 <= i < |rs| - 1 ==> Closed(cap, rs[i]))
    && (rs != [] ==> Closed(cap, rs[|rs| - 1]) || Open(cap, rs[|rs| - 1]))
  }

  lemma CutOfClosed(cap: nat, r: seq<byte>, t: seq<byte>)
    requires cap > 0 && Closed(cap, r)
    ensures Segments(cap, r + t) == [r] + Segments(cap, t)
  {
    var s := r + t;
    assert s[|r| - 1] == r[|r| - 1];
    assert s[..|r|] == r && s[|r|..] == t;
  }

  lemma SegmentsOfTail(cap: nat, s: seq<byte>)
    requires cap > 0 && |s| <= cap && NoNewline(s)
    ensures Segments(cap, s) == if s == [] then [] else [s]
  {
    if s != [] {
      assert Cut(cap, s) == |s|;
      assert s[..|s|] == s && s[|s|..] == [];
    }
  }

  /** The segmentation is canonical and loses nothing. */
  lemma {:induction false} SegmentsCanonical(cap: nat, s: seq<byte>)
    requires cap > 0
    ensures Flatten(Segments(cap, s)) == s
    ensures Canonical(cap, Segments(cap, s))
  {
    if s != [] {
      var k := Cut(cap, s);
      var rs, rest := Segments(cap, s), Segments(cap, s[k..]);
      SegmentsCanonical(cap, s[k..]);
      assert rs[1..] == rest;
      assert s == s[..k] + s[k..];
      assert forall j :: 0 < j < |rs| ==> rs[j] == rest[j - 1];
      FirstSegment(cap, s);
    }
  }

  lemma FirstSegment(cap: nat, s: seq<byte>)
    requires cap > 0 && s != []
    ensures Closed(cap, s[..Cut(cap, s)]) || (Open(cap, s[..Cut(cap, s)]) && Cut(cap, s) == |s|)
  {
  }

  /** It is the only canonical way to cut those bytes. */
  lemma {:induction false} SegmentsUnique(cap: nat, rs: seq<seq<byte>>)
    requires cap > 0 && Canonical(cap, rs)
    ensures Segments(cap, Flatten(rs)) == rs
  {
    if rs != [] {
      var r, t := rs[0], rs[1..];
      SegmentsUnique(cap, t);
      if Closed(cap, r) {
        CutOfClosed(cap, r, Flatten(t));
      } else {
        assert t == [];
        assert Flatten(rs) == r;
        SegmentsOfTail(cap, r);
      }
    }
  }

  // ---------------------------------------------------------------- the cache

  /** The complete lines of a buffer, each with its newline. */
  function Lines(b: seq<byte>): (ls: seq<seq<byte>>)
    ensures ls == [] <==> NoNewline(b)
  {
    var i := FirstNewline(b);
    if i == |b| then [] else [b[..i + 1]] + Lines(b[i + 1..])
  }

  /** Where the bytes behind the last newline of a buffer begin. */
  function TailStart(b: seq<byte>): (i: nat)
    ensures i <= |b|
    ensures forall k :: i <= k < |b| ==> b[k] != NEWLINE
    ensures i > 0 ==> b[i - 1] == NEWLINE
  {
    if b == [] then 0 else if b[|b| - 1] == NEWLINE then |b| else TailStart(b[..|b| - 1])
  }

  /** What follows the last newline of a buffer. */
  function Tail(b: seq<byte>): (t: seq<byte>)
    ensures |t| <= |b| && b[|b| - |t|..] == t
    ensures NoNewline(t)
    ensures NoNewline(b) ==> t == b
    ensures |t| < |b| ==> b[|b| - |t| - 1] == NEWLINE
  {
    b[TailStart(b)..]
  }

  lemma {:induction false} TailBehind(b: seq<byte>, i: nat)
    requires i < |b| && b[i] == NEWLINE
    ensures Tail(b) == Tail(b[i + 1..])
  {
    hide TailStart;
    var more := b[i + 1..];
    assert forall k :: 0 <= k < |more| ==> more[k] == b[k + i + 1];
    var x, y := TailStart(b), TailStart(more);
    assert x == y + i + 1;
  }

  /** What one call hands on, and what it leaves in the cache. */
  datatype Turn = Turn(records: seq<seq<byte>>, cache: seq<byte>)

  /** A call with data: fill up, emit the lines (or the whole cache when it is full and
      holds no newline), move the tail down, append what did not fit unscanned. */
  function Feed(cap: nat, cache: seq<byte>, chunk: seq<byte>): (r: Turn)
  {
    var upto := if |chunk| > cap - |cache| then cap else |cache| + |chunk|;
    if upto > |cache| then
      Scan(cap, cache + chunk[..upto - |cache|], chunk[upto - |cache|..])
    else
      Scan(cap, cache, [])
  }

  /** The part of a call with data that follows the first copy. */
  function Scan(cap: nat, b: seq<byte>, left: seq<byte>): (r: Turn)
  {
    if b == [] then Turn([], [])
    else if Lines(b) == [] && |b| == cap then Turn([b], left)
    else Turn(Lines(b), Tail(b) + left)
  }

  /** A call with a null buffer: emit what is left. The fill is reset only when the cache
      does not end in a newline. */
  function Flush(cache: seq<byte>): (r: Turn)
  {
    if cache == [] then Turn([], [])
    else if Tail(cache) == [] then Turn(Lines(cache), cache)
    else Turn(Lines(cache) + [Tail(cache)], [])
  }

  lemma {:induction false} LinesAreCuts(cap: nat, b: seq<byte>, t: seq<byte>)
    requires cap > 0 && |b| <= cap
    ensures Segments(cap, b + t) == Lines(b) + Segments(cap, Tail(b) + t)
  {
    hide Segments, FirstNewline, Lines, Tail, NoNewline;
    var i := FirstNewline(b);
    FirstLine(b);
    if i == |b| {
      assert [] + Segments(cap, b + t) == Segments(cap, b + t);
    } else {
      var r, b' := b[..i + 1], b[i + 1..];
      Assoc(r, b', t);
      assert b == r + b';
      CutOfClosed(cap, r, b' + t);
      LinesAreCuts(cap, b', t);
      Assoc([r], Lines(b'), Segments(cap, Tail(b') + t));
    }
  }

  lemma ScanIsPrefix(cap: nat, b: seq<byte>, left: seq<byte>, future: seq<byte>)
    requires 0 < cap && |b| <= cap && (left != [] ==> |b| == cap)
    ensures var r := Scan(cap, b, left);
            Segments(cap, b + (left + future)) == r.records + Segments(cap, r.cache + future)
  {
    hide Lines, Tail, Segments;
    if b == [] {
      assert b + (left + future) == [] + future;
    } else if Lines(b) == [] && |b| == cap {
      assert Tail(b) == b;
      CutOfClosed(cap, b, left + future);
    } else {
      LinesAreCuts(cap, b, left + future);
      Assoc(Tail(b), left, future);
    }
  }

  lemma Regroup<T>(a: seq<T>, b: seq<T>, n: nat, c: seq<T>)
    requires n <= |b|
    ensures a + b + c == a + b[..n] + (b[n..] + c)
  {
  }

  /** How much of a chunk the first copy takes. */
  function Taken(cap: nat, cache: seq<byte>, chunk: seq<byte>): (n: nat)
    requires |cache| < cap
    ensures n <= |chunk|
  {
    if |chunk| > cap - |cache| then cap - |cache| else |chunk|
  }

  lemma {:induction false} FeedIsScan(cap: nat, cache: seq<byte>, chunk: seq<byte>)
    requires |cache| < cap
    ensures var n := Taken(cap, cache, chunk);
            Feed(cap, cache, chunk) == Scan(cap, cache + chunk[..n], chunk[n..])
  {
    hide Scan;
    if chunk == [] {
      assert cache + chunk[..0] == cache && chunk[0..] == [];
    }
  }

  /** One call consumes exactly a prefix of the canonical records, whatever follows. */
  lemma {:induction false} FeedIsPrefix(cap: nat, cache: seq<byte>, chunk: seq<byte>, future: seq<byte>)
    requires |cache| < cap
    ensures var r := Feed(cap, cache, chunk);
            Segments(cap, cache + chunk + future) == r.records + Segments(cap, r.cache + future)
  {
    hide Feed, Scan, Segments;
    var n := Taken(cap, cache, chunk);
    var b, left := cache + chunk[..n], chunk[n..];
    FeedIsScan(cap, cache, chunk);
    ScanIsPrefix(cap, b, left, future);
    Regroup(cache, chunk, n, future);
  }

  /** What a call with data must answer: the first copy takes what fits; behind it all complete lines
      are written, and a full cache without any; what is left of the copied bytes has no newline and
      is not a full cache, and the bytes that did not fit follow it. */
  ghost predicate Answers(cap: nat, cache: seq<byte>, chunk: seq<byte>, r: Turn, held: seq<byte>)
    requires |cache| < cap
  {
    var n := if |cache| + |chunk| <= cap then |chunk| else cap - |cache|;
    && (forall i :: 0 <= i < |r.records| ==> Closed(cap, r.records[i]))
    && NoNewline(held) && |held| < cap
    && Flatten(r.records) + held == cache + chunk[..n]
    && r.cache == held + chunk[n..]
  }

  /** A call with data answers like that, and nothing else does. */
  lemma {:induction false} FeedIsTheAnswer(cap: nat, cache: seq<byte>, chunk: seq<byte>, r: Turn)
    requires |cache| < cap
    ensures r == Feed(cap, cache, chunk) <==> exists held :: Answers(cap, cache, chunk, r, held)
  {
    hide Feed, Answers;
    var held := FeedAnswers(cap, cache, chunk);
    if other :| Answers(cap, cache, chunk, r, other) {
      OneAnswer(cap, cache, chunk, r, other, Feed(cap, cache, chunk), held);
    }
  }

  lemma {:induction false} FeedAnswers(cap: nat, cache: seq<byte>, chunk: seq<byte>) returns (held: seq<byte>)
    requires |cache| < cap
    ensures Answers(cap, cache, chunk, Feed(cap, cache, chunk), held)
  {
    hide Feed, Lines, Tail, Flatten;
    var n := Taken(cap, cache, chunk);
    var b := cache + chunk[..n];
    FeedIsScan(cap, cache, chunk);
    LinesHold(cap, b);
    if b != [] && Lines(b) == [] && |b| == cap {
      held := [];
      FlattenOne(b);
      assert b + [] == b && [] + chunk[n..] == chunk[n..];
    } else {
      held := Tail(b);
      if b == [] {
        assert chunk[n..] == [] && Lines(b) == [] && held == [];
      }
    }
  }

  lemma LinesHold(cap: nat, b: seq<byte>)
    requires |b| <= cap
    ensures Flatten(Lines(b)) + Tail(b) == b
    ensures forall i :: 0 <= i < |Lines(b)| ==> Closed(cap, Lines(b)[i])
  {
    hide Lines, Tail, Flatten, Closed;
    LinesFlatten(b);
    LinesClosed(cap, b);
  }

  lemma {:induction false} FirstLine(b: seq<byte>)
    ensures var i := FirstNewline(b);
            && (i == |b| ==> Lines(b) == [] && Tail(b) == b)
            && (i < |b| ==> Lines(b) == [b[..i + 1]] + Lines(b[i + 1..]) && Tail(b) == Tail(b[i + 1..]))
  {
    hide FirstNewline, Lines, Tail;
    var i := FirstNewline(b);
    if i == |b| {
      assert NoNewline(b);
    } else {
      LinesUnfold(b);
      TailBehind(b, i);
    }
  }

  lemma {:induction false} LinesUnfold(b: seq<byte>)
    requires FirstNewline(b) < |b|
    ensures Lines(b) == [b[..FirstNewline(b) + 1]] + Lines(b[FirstNewline(b) + 1..])
  {
    hide FirstNewline, NoNewline;
  }

  lemma {:induction false} LinesFlatten(b: seq<byte>)
    ensures Flatten(Lines(b)) + Tail(b) == b
  {
    hide FirstNewline, Flatten, Lines, Tail, NoNewline;
    var i := FirstNewline(b);
    FirstLine(b);
    if i == |b| {
      NothingFlat(b);
    } else {
      LinesFlatten(b[i + 1..]);
      JoinLine(b[..i + 1], Lines(b[i + 1..]), Tail(b[i + 1..]));
      assert b[..i + 1] + b[i + 1..] == b;
    }
  }

  lemma JoinLine(r: seq<byte>, rs: seq<seq<byte>>, t: seq<byte>)
    ensures Flatten([r] + rs) + t == r + (Flatten(rs) + t)
  {
    hide Flatten;
    FlattenAppend([r], rs);
    FlattenOne(r);
    Assoc(r, Flatten(rs), t);
  }

  lemma NothingFlat(b: seq<byte>)
    ensures Flatten<byte>([]) + b == b
  {
  }

  lemma {:induction false} LinesClosed(cap: nat, b: seq<byte>)
    requires |b| <= cap
    ensures forall i :: 0 <= i < |Lines(b)| ==> Closed(cap, Lines(b)[i])
  {
    hide FirstNewline;
    var i := FirstNewline(b);
    if i < |b| {
      var r, more := b[..i + 1], Lines(b[i + 1..]);
      LinesClosed(cap, b[i + 1..]);
      assert Closed(cap, r);
      assert forall k :: 0 < k < |Lines(b)| ==> Lines(b)[k] == more[k - 1];
    }
  }

  lemma {:induction false} OneAnswer(cap: nat, cache: seq<byte>, chunk: seq<byte>, r: Turn, held: seq<byte>,
                                     r': Turn, held': seq<byte>)
    requires |cache| < cap
    requires Answers(cap, cache, chunk, r, held) && Answers(cap, cache, chunk, r', held')
    ensures r == r'
  {
    hide Flatten, Closed, NoNewline;
    SplitIsSegments(cap, r.records, held);
    SplitIsSegments(cap, r'.records, held');
    var all := Segments(cap, Flatten(r.records) + held);
    LastIsHeld(cap, r.records, held, r'.records, held');
  }

  function WithHeld(rs: seq<seq<byte>>, held: seq<byte>): seq<seq<byte>>
  {
    if held == [] then rs else rs + [held]
  }

  lemma SplitIsSegments(cap: nat, rs: seq<seq<byte>>, held: seq<byte>)
    requires cap > 0 && (forall i :: 0 <= i < |rs| ==> Closed(cap, rs[i])) && NoNewline(held) && |held| < cap
    ensures Segments(cap, Flatten(rs) + held) == WithHeld(rs, held)
  {
    hide Flatten, Segments;
    var all := WithHeld(rs, held);
    if held == [] {
      assert Flatten(rs) + [] == Flatten(rs);
    } else {
      FlattenAppend(rs, [held]);
      FlattenOne(held);
    }
    SegmentsUnique(cap, all);
  }

  lemma LastIsHeld(cap: nat, rs: seq<seq<byte>>, held: seq<byte>, rs': seq<seq<byte>>, held': seq<byte>)
    requires (forall i :: 0 <= i < |rs| ==> Closed(cap, rs[i])) && NoNewline(held) && |held| < cap
    requires (forall i :: 0 <= i < |rs'| ==> Closed(cap, rs'[i])) && NoNewline(held') && |held'| < cap
    requires WithHeld(rs, held) == WithHeld(rs', held')
    ensures rs == rs' && held == held'
  {
    var all := WithHeld(rs, held);
    if held != [] {
      assert all[|all| - 1] == held && !Closed(cap, held);
    }
    if held' != [] {
      assert all[|all| - 1] == held' && !Closed(cap, held');
    }
    if held != [] && held' != [] {
      assert rs == all[..|all| - 1] && rs' == all[..|all| - 1];
    }
  }

  lemma {:induction false} FlushIsRest(cap: nat, cache: seq<byte>)
    requires cap > 0 && |cache| <= cap
    ensures Flush(cache).records == Segments(cap, cache)
  {
    hide Lines, Tail, Segments;
    LinesAreCuts(cap, cache, []);
    assert cache + [] == cache && Tail(cache) + [] == Tail(cache);
    SegmentsOfTail(cap, Tail(cache));
  }

  /** A second flush repeats records exactly when the cache ended in a newline. */
  lemma FlushTwice(cache: seq<byte>)
    ensures Flush(Flush(cache).cache).records == []
            <==> cache == [] || cache[|cache| - 1] != NEWLINE
  {
    var t := Tail(cache);
    if t != [] {
      assert cache[|cache| - 1] == t[|t| - 1];
    }
  }

  // ---------------------------------------------------------------- how full the cache gets

  /** What holds between calls when no chunk is longer than `n`: there is room, and bytes
      that were never scanned are fewer than a chunk. */
  ghost predicate Settled(cap: nat, n: nat, cache: seq<byte>)
  {
    |cache| < cap && (NoNewline(cache) || |cache| < n)
  }

  lemma TailAfterNewline(b: seq<byte>, f: nat)
    requires f <= |b| && forall k :: 0 <= k < f ==> b[k] != NEWLINE
    ensures Lines(b) != [] ==> |Tail(b)| < |b| - f
  {
    hide Tail, Lines, FirstNewline;
    var t := Tail(b);
    assert |t| < |b| ==> b[|b| - |t| - 1] == NEWLINE;
  }

  lemma {:induction false} ScanSettled(cap: nat, n: nat, f: nat, b: seq<byte>, left: seq<byte>)
    requires f < cap && f <= |b| <= cap
    requires 2 * n <= cap + 1 && |b| - f + |left| <= n && (left != [] ==> |b| == cap)
    requires f < n || forall k :: 0 <= k < f ==> b[k] != NEWLINE
    ensures Settled(cap, n, Scan(cap, b, left).cache)
  {
    if left == [] {
      assert Tail(b) + left == Tail(b);
    } else if Lines(b) != [] {
      TailAfterNewline(b, f);
    }
  }

  lemma {:induction false} FeedSettled(cap: nat, n: nat, cache: seq<byte>, chunk: seq<byte>)
    requires 2 * n <= cap + 1 && Settled(cap, n, cache) && |chunk| <= n
    ensures Settled(cap, n, Feed(cap, cache, chunk).cache)
  {
    hide Feed, Scan;
    var m := Taken(cap, cache, chunk);
    FeedIsScan(cap, cache, chunk);
    ScanSettled(cap, n, |cache|, cache + chunk[..m], chunk[m..]);
  }

  /** The cache after a run of calls with data. */
  function Run(cap: nat, cache: seq<byte>, chunks: seq<seq<byte>>): seq<byte>
    decreases |chunks|
  {
    if chunks == [] then cache else Run(cap, Feed(cap, cache, chunks[0]).cache, chunks[1..])
  }

  lemma RunCons(cap: nat, cache: seq<byte>, chunk: seq<byte>, more: seq<seq<byte>>)
    ensures Run(cap, cache, [chunk] + more) == Run(cap, Feed(cap, cache, chunk).cache, more)
  {
    assert ([chunk] + more)[1..] == more;
  }

  ghost predicate UpTo(n: nat, chunks: seq<seq<byte>>)
  {
    forall i :: 0 <= i < |chunks| ==> |chunks[i]| <= n
  }

  lemma {:induction false} RunSettled(cap: nat, n: nat, cache: seq<byte>, chunks: seq<seq<byte>>)
    requires 2 * n <= cap + 1 && Settled(cap, n, cache) && UpTo(n, chunks)
    ensures Settled(cap, n, Run(cap, cache, chunks))
    decreases |chunks|
  {
    hide Feed, Settled;
    if chunks != [] {
      FeedSettled(cap, n, cache, chunks[0]);
      RunSettled(cap, n, Feed(cap, cache, chunks[0]).cache, chunks[1..]);
    }
  }

  // ---------------------------------------------------------------- when the bound fails

  function Plain(k: nat): (s: seq<byte>)
    ensures |s| == k && forall i :: 0 <= i < k ==> s[i] == 97
  {
    seq(k, _ => 97)
  }

  /** A newline in front of plain bytes. */
  function Late(k: nat): (s: seq<byte>)
    ensures |s| == k + 1
  {
    [NEWLINE] + Plain(k)
  }

  lemma {:induction false} ScanPlain(cap: nat, k: nat, left: seq<byte>)
    requires 0 < k <= cap
    ensures Scan(cap, Plain(k), left) ==
            if k == cap then Turn([Plain(k)], left) else Turn([], Plain(k) + left)
  {
  }

  lemma {:induction false} ScanLate(cap: nat, k: nat, left: seq<byte>)
    ensures Scan(cap, Late(k), left) == Turn([[NEWLINE]], Plain(k) + left)
  {
    var b := Late(k);
    assert FirstNewline(b) == 0 && b[1..] == Plain(k) && b[..1] == [NEWLINE];
  }

  /** `k` bytes, one per call. */
  function Drip(k: nat): (chunks: seq<seq<byte>>)
    ensures |chunks| == k && forall i :: 0 <= i < k ==> chunks[i] == Plain(1)
  {
    seq(k, _ => Plain(1))
  }

  lemma DripSplit(k: nat, more: seq<seq<byte>>)
    requires k > 0
    ensures Drip(k) + more == [Plain(1)] + (Drip(k - 1) + more)
  {
  }

  lemma {:induction false} DripOne(cap: nat, k: nat)
    requires k + 1 < cap
    ensures Feed(cap, Plain(k), Plain(1)).cache == Plain(k + 1)
  {
    hide Feed, Scan, Plain, Lines, Tail;
    FeedIsScan(cap, Plain(k), Plain(1));
    assert Plain(k) + Plain(1)[..1] == Plain(k + 1);
    ScanPlain(cap, k + 1, Plain(1)[1..]);
    assert Plain(k + 1) + Plain(1)[1..] == Plain(k + 1);
  }

  /** Bytes without a newline pile up until one more would fill the cache. */
  lemma {:induction false} PileUp(cap: nat, f: nat, k: nat, more: seq<seq<byte>>)
    requires f + k < cap
    ensures Run(cap, Plain(f), Drip(k) + more) == Run(cap, Plain(f + k), more)
    decreases k
  {
    hide Feed, Plain, Drip;
    if k == 0 {
      assert Drip(k) + more == more;
    } else {
      DripSplit(k, more);
      RunCons(cap, Plain(f), Plain(1), Drip(k - 1) + more);
      DripOne(cap, f);
      PileUp(cap, f + 1, k - 1, more);
    }
  }

  /** A run that leaves no room when chunks may be longer than half the cache: a newline
      reaches the cache unscanned, and a long chunk follows it. */
  function Filler(cap: nat, n: nat): (chunks: seq<seq<byte>>)
    requires 2 <= n && 0 < cap
  {
    if n > cap then [Late(n - 1)] else Drip(cap - 1) + [[97] + Late(n - 2), Plain(n)]
  }

  lemma {:induction false} FeedFirst(cap: nat, n: nat)
    requires 0 < cap < n
    ensures |Feed(cap, [], Late(n - 1)).cache| == n - 1
  {
    FeedIsScan(cap, [], Late(n - 1));
    assert [] + Late(n - 1)[..cap] == Late(cap - 1);
    ScanLate(cap, cap - 1, Late(n - 1)[cap..]);
  }

  lemma {:induction false} FeedSecond(cap: nat, n: nat)
    requires 2 <= n <= cap
    ensures Feed(cap, Plain(cap - 1), [97] + Late(n - 2)).cache == Late(n - 2)
  {
    var c := [97] + Late(n - 2);
    FeedIsScan(cap, Plain(cap - 1), c);
    assert Plain(cap - 1) + c[..1] == Plain(cap);
    assert c[1..] == Late(n - 2);
    ScanPlain(cap, cap, c[1..]);
  }

  /** A run of short chunks that leaves a newline in the cache: it came behind a byte that filled the
      cache, and was never scanned. */
  function Stray(cap: nat): (chunks: seq<seq<byte>>)
    requires cap >= 2
    ensures UpTo(2, chunks)
  {
    Drip(cap - 1) + [[97] + Late(0)]
  }

  lemma {:induction false} StrayNewline(cap: nat)
    requires cap >= 2
    ensures Run(cap, [], Stray(cap)) == [NEWLINE]
  {
    hide Feed;
    assert [] == Plain(0) && Late(0) == [NEWLINE];
    PileUp(cap, 0, cap - 1, [[97] + Late(0)]);
    RunCons(cap, Plain(cap - 1), [97] + Late(0), []);
    assert [[97] + Late(0)] + [] == [[97] + Late(0)];
    FeedSecond(cap, 2);
  }

  lemma {:induction false} FeedThird(cap: nat, n: nat)
    requires 2 <= n <= cap && 2 * n > cap + 1
    ensures |Feed(cap, Late(n - 2), Plain(n)).cache| == 2 * n - 2
  {
    var m := cap - (n - 1);
    FeedIsScan(cap, Late(n - 2), Plain(n));
    assert Late(n - 2) + Plain(n)[..m] == Late(cap - 1);
    ScanLate(cap, cap - 1, Plain(n)[m..]);
  }

  lemma {:induction false} FillerFills(cap: nat, n: nat)
    requires cap > 0 && 2 * n > cap + 1
    ensures |Run(cap, [], Filler(cap, n))| >= cap
  {
    hide Feed, Plain, Late, Drip;
    if n > cap {
      FeedFirst(cap, n);
      RunCons(cap, [], Late(n - 1), []);
      assert [Late(n - 1)] + [] == [Late(n - 1)];
    } else {
      var c := [97] + Late(n - 2);
      assert Plain(0) == [];
      PileUp(cap, 0, cap - 1, [c, Plain(n)]);
      FillerEnds(cap, n);
    }
  }

  lemma {:induction false} FillerEnds(cap: nat, n: nat)
    requires 2 <= n <= cap && 2 * n > cap + 1
    ensures |Run(cap, Plain(cap - 1), [[97] + Late(n - 2), Plain(n)])| >= cap
  {
    hide Feed, Plain, Late;
    var c := [97] + Late(n - 2);
    assert [c, Plain(n)] == [c] + [Plain(n)] && [Plain(n)] == [Plain(n)] + [];
    RunCons(cap, Plain(cap - 1), c, [Plain(n)]);
    FeedSecond(cap, n);
    RunCons(cap, Late(n - 2), Plain(n), []);
    FeedThird(cap, n);
  }

  /** Chunks of at most `n` bytes leave room in the cache, in every run, exactly when two
      of them fit but for one byte. (The shim has `n == cap / 2`.) */
  lemma RoomIff(cap: nat, n: nat)
    requires cap > 0
    ensures (forall chunks :: UpTo(n, chunks) ==> |Run(cap, [], chunks)| < cap) <==> 2 * n <= cap + 1
  {
    hide Run, Filler, UpTo;
    if 2 * n <= cap + 1 {
      forall chunks | UpTo(n, chunks)
        ensures |Run(cap, [], chunks)| < cap
      {
        RunSettled(cap, n, [], chunks);
      }
    } else {
      FillerFills(cap, n);
      FillerUpTo(cap, n);
    }
  }

  lemma FillerUpTo(cap: nat, n: nat)
    requires cap > 0 && 2 <= n
    ensures UpTo(n, Filler(cap, n))
  {
  }

  /** What is at stake: a cache without room drops the whole next chunk. */
  lemma FullDrops(cap: nat, cache: seq<byte>, chunk: seq<byte>)
    requires |cache| == cap
    ensures Feed(cap, cache, chunk) == Feed(cap, cache, [])
  {
  }
}
