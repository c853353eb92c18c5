/** The expansion of `{{item}}` in a syslog tag: `parse_container_log_opt_syslog_tag`. */
module SyslogTag {
  import opened Common

  const NUL := '\0'

  /** What an item stands for; `None` when the item parser rejects it. */
  type ItemParser = string -> Option<string>

  // ---------------------------------------------------------------- the expansion

  predicate PairAt(s: string, i: int, c: char)
  {
    0 <= i && i + 1 < |s| && s[i] == c && s[i + 1] == c
  }

  /** `strstr` for a doubled character. */
  function FindPair(s: string, c: char): (r: Option<nat>)
    ensures r.Some? ==> PairAt(s, r.value, c) && forall k :: 0 <= k < r.value ==> !PairAt(s, k, c)
    ensures r.None? ==> forall k :: !PairAt(s, k, c)
  {
    if |s| < 2 then None
    else if s[0] == c && s[1] == c then Some(0)
    else
      var r := FindPair(s[1..], c);
      assert forall k :: 1 <= k ==> PairAt(s, k, c) == PairAt(s[1..], k - 1, c);
      if r.None? then None else Some(r.value + 1)
  }

  function Prefixed(p: string, r: Option<string>): Option<string>
  {
    if r.None? then None else Some(p + r.value)
  }

  /** Left to right: the first opener, the next closer, the item between them. */
  function Expand(tag: string, op: ItemParser): Option<string>
    decreases |tag|
  {
    match FindPair(tag, '{')
    case None => Some(tag)
    case Some(i) =>
      var rest := tag[i + 2..];
      match FindPair(rest, '}')
      case None => None
      case Some(j) =>
        match op(rest[..j])
        case None => None
        case Some(v) => Prefixed(tag[..i] + v, Expand(rest[j + 2..], op))
  }

  // ---------------------------------------------------------------- what a tag consists of

  datatype Piece = Piece(text: string, item: string)

  /** In `s` followed by the doubled `c`, no pair of `c` comes earlier. */
  ghost predicate FreeOf(s: string, c: char)
  {
    forall k :: 0 <= k < |s| ==> !PairAt(s + [c, c], k, c)
  }

  ghost predicate WellCut(p: Piece)
  {
    FreeOf(p.text, '{') && FreeOf(p.item, '}')
  }

  function Shown(p: Piece): string
  {
    p.text + "{{" + p.item + "}}"
  }

  function ShownAll(ps: seq<Piece>): string
  {
    if ps == [] then "" else Shown(ps[0]) + ShownAll(ps[1..])
  }

  /** The tag is these pieces and a tail in which no item opens. */
  ghost predicate Splits(tag: string, ps: seq<Piece>, tail: string)
  {
    && tag == ShownAll(ps) + tail
    && (forall i :: 0 <= i < |ps| ==> WellCut(ps[i]))
    && forall k :: !PairAt(tail, k, '{')
  }

  /** The pieces with each item replaced, if all items are accepted. */
  function Replaced(ps: seq<Piece>, tail: string, op: ItemParser): Option<string>
  {
    if ps == [] then Some(tail)
    else
      match op(ps[0].item)
      case None => None
      case Some(v) => Prefixed(ps[0].text + v, Replaced(ps[1..], tail, op))
  }

  lemma FindPairIs(s: string, i: nat, c: char)
    requires PairAt(s, i, c) && forall k :: 0 <= k < i ==> !PairAt(s, k, c)
    ensures FindPair(s, c) == Some(i)
  {
  }

  lemma FindBehind(a: string, c: char, t: string)
    requires FreeOf(a, c)
    ensures FindPair(a + [c, c] + t, c) == Some(|a|)
  {
    hide FindPair;
    var s := a + [c, c] + t;
    forall k | 0 <= k < |a|
      ensures !PairAt(s, k, c)
    {
      assert PairAt(s, k, c) == PairAt(a + [c, c], k, c);
    }
    FindPairIs(s, |a|, c);
  }

  lemma FrontFree(s: string, i: nat, c: char)
    requires FindPair(s, c) == Some(i)
    ensures FreeOf(s[..i], c) && s == s[..i] + [c, c] + s[i + 2..]
  {
    hide FindPair;
    forall k | 0 <= k < i
      ensures !PairAt(s[..i] + [c, c], k, c)
    {
      assert PairAt(s[..i] + [c, c], k, c) == PairAt(s, k, c);
    }
  }

  /** On a tag made of pieces the expansion replaces exactly their items. */
  lemma {:induction false} ExpandReplaces(tag: string, ps: seq<Piece>, tail: string, op: ItemParser)
    requires Splits(tag, ps, tail)
    ensures Expand(tag, op) == Replaced(ps, tail, op)
    decreases |ps|
  {
    hide FindPair, FreeOf;
    if ps == [] {
      assert tag == tail;
      var f := FindPair(tag, '{');
    } else {
      var p, more := ps[0], ShownAll(ps[1..]) + tail;
      var rest := p.item + "}}" + more;
      assert tag == p.text + ['{', '{'] + rest;
      assert rest == p.item + ['}', '}'] + more;
      FindBehind(p.text, '{', rest);
      FindBehind(p.item, '}', more);
      assert tag[..|p.text|] == p.text && tag[|p.text| + 2..] == rest;
      assert rest[..|p.item|] == p.item && rest[|p.item| + 2..] == more;
      ExpandReplaces(more, ps[1..], tail, op);
    }
  }

  /** A tag that does not come apart like that has an opener that is never closed. */
  lemma {:induction false} ExpandNeedsPieces(tag: string, op: ItemParser) returns (ps: seq<Piece>, tail: string)
    requires Expand(tag, op).Some?
    ensures Splits(tag, ps, tail)
    decreases |tag|
  {
    hide FindPair, FreeOf;
    var f := FindPair(tag, '{');
    if f.None? {
      ps, tail := [], tag;
      assert "" + tag == tag;
    } else {
      var i := f.value;
      var rest := tag[i + 2..];
      var j := FindPair(rest, '}').value;
      FrontFree(tag, i, '{');
      FrontFree(rest, j, '}');
      ps, tail := ExpandNeedsPieces(rest[j + 2..], op);
      var p := Piece(tag[..i], rest[..j]);
      OnePiece(tag, i, j, ShownAll(ps), tail);
      assert ([p] + ps)[1..] == ps;
      ps := [p] + ps;
    }
  }

  lemma OnePiece(tag: string, i: nat, j: nat, shown: string, tail: string)
    requires i + 2 <= |tag| && j + 2 <= |tag| - i - 2
    requires tag == tag[..i] + ['{', '{'] + tag[i + 2..]
    requires tag[i + 2..] == tag[i + 2..][..j] + ['}', '}'] + tag[i + 2..][j + 2..]
    requires tag[i + 2..][j + 2..] == shown + tail
    ensures tag == Shown(Piece(tag[..i], tag[i + 2..][..j])) + shown + tail
  {
    var rest := tag[i + 2..];
    assert rest == rest[..j] + "}}" + (shown + tail);
    assert tag == tag[..i] + "{{" + (rest[..j] + "}}" + (shown + tail));
  }

  /** The expansion succeeds exactly on tags that come apart into pieces whose items are all
      accepted, and then replaces exactly those items. */
  lemma ExpandSucceeds(tag: string, op: ItemParser, r: string)
    ensures Expand(tag, op) == Some(r) <==> exists ps, tail :: Splits(tag, ps, tail) && Replaced(ps, tail, op) == Some(r)
  {
    hide Expand, Splits, Replaced;
    if Expand(tag, op) == Some(r) {
      var ps, tail := ExpandNeedsPieces(tag, op);
      ExpandReplaces(tag, ps, tail, op);
    }
    forall ps, tail | Splits(tag, ps, tail) && Replaced(ps, tail, op) == Some(r)
      ensures Expand(tag, op) == Some(r)
    {
      ExpandReplaces(tag, ps, tail, op);
    }
  }

  /** A parser that puts the braces back returns the tag itself, exactly when every opener is closed. */
  lemma BracesBack(tag: string, op: ItemParser)
    requires forall x :: op(x) == Some("{{" + x + "}}")
    ensures Expand(tag, op) == if exists ps, tail :: Splits(tag, ps, tail) then Some(tag) else None
  {
    hide Expand;
    if Expand(tag, op).Some? {
      var ps, tail := ExpandNeedsPieces(tag, op);
      assert Splits(tag, ps, tail);
    }
    forall ps, tail | Splits(tag, ps, tail)
      ensures Expand(tag, op) == Some(tag)
    {
      ExpandReplaces(tag, ps, tail, op);
      ReplacedBack(ps, tail, op);
    }
  }

  lemma {:induction false} ReplacedBack(ps: seq<Piece>, tail: string, op: ItemParser)
    requires forall x :: op(x) == Some("{{" + x + "}}")
    ensures Replaced(ps, tail, op) == Some(ShownAll(ps) + tail)
  {
    if ps == [] {
      assert "" + tail == tail;
    } else {
      ReplacedBack(ps[1..], tail, op);
      var p := ps[0];
      assert p.text + ("{{" + p.item + "}}") == Shown(p);
      assert Shown(p) + (ShownAll(ps[1..]) + tail) == Shown(p) + ShownAll(ps[1..]) + tail;
    }
  }

  // ---------------------------------------------------------------- the code

  /** A C string: the buffer holds `tag` and a terminating NUL. */
  ghost predicate Holds(work: array<char>, tag: string)
    reads work
  {
    work[..] == tag + [NUL] && NUL !in tag
  }

  /** `strstr(work + from, "cc")` */
  method StrStr(work: array<char>, from: nat, c: char, ghost tag: string) returns (r: Option<nat>)
    requires Holds(work, tag) && from <= |tag| && c != NUL
    ensures r == match FindPair(tag[from..], c) { case None => None case Some(i) => Some(from + i) }
  {
    var i := from;
    assert forall k :: 0 <= k < |tag| ==> work[k] == work[..][k] == tag[k];
    assert work[|tag|] == work[..][|tag|] == NUL;
    while work[i] != NUL
      invariant from <= i <= |tag|
      invariant forall k :: 0 <= k < i - from ==> !PairAt(tag[from..], k, c)
      decreases |tag| - i
    {
      if work[i] == c && work[i + 1] == c {
        FindPairIs(tag[from..], i - from, c);
        return Some(i);
      }
      i := i + 1;
    }
    return None;
  }

  /** The C string that starts at `from`: what `buffer_append` and the item parser see. */
  method Read(work: array<char>, from: nat, ghost end: nat) returns (s: string)
    requires from <= end < work.Length && work[end] == NUL
    requires forall k :: from <= k < end ==> work[k] != NUL
    ensures s == work[from..end]
  {
    s := [];
    var i := from;
    while work[i] != NUL
      invariant from <= i <= end && s == work[from..i]
      decreases end - i
    {
      s := s + [work[i]];
      i := i + 1;
    }
  }

  /** Cuts the string at `at` for the time of one read. */
  method ReadUpTo(work: array<char>, from: nat, at: nat, ghost tag: string) returns (s: string)
    requires Holds(work, tag) && from <= at < |tag|
    modifies work
    ensures Holds(work, tag) && s == tag[from..at]
  {
    assert forall k :: 0 <= k < |tag| ==> work[k] == work[..][k] == tag[k];
    var c := work[at];
    work[at] := NUL;
    s := Read(work, from, at);
    assert s == tag[from..at];
    work[at] := c;
    assert work[..] == tag + [NUL];
  }

  method ReadRest(work: array<char>, from: nat, ghost tag: string) returns (s: string)
    requires Holds(work, tag) && from <= |tag|
    ensures s == tag[from..]
  {
    ReadsTag(work, tag);
    s := Read(work, from, |tag|);
  }

  method ParseSyslogTag(tag: string, op: ItemParser) returns (ret: int, parsed: Option<string>)
    requires NUL !in tag
    ensures ret == 0 <==> tag != "" && Expand(tag, op).Some?
    ensures parsed == if tag == "" then None else Expand(tag, op)
  {
    hide FindPair, Expand;
    if |tag| == 0 {
      // No buffer of size zero is handed out.
      return -1, None;
    }
    var work := new char[|tag| + 1](i requires 0 <= i <= |tag| => if i < |tag| then tag[i] else NUL);
    assert work[..] == tag + [NUL];
    var buffer := "";
    var prefix := 0;
    assert tag[0..] == tag;
    AddNothing(Expand(tag, op));
    while work[prefix] != NUL
      invariant Holds(work, tag) && 0 <= prefix <= |tag| && fresh(work)
      invariant Expand(tag, op) == Prefixed(buffer, Expand(tag[prefix..], op))
      decreases |tag| - prefix
    {
      var opener := StrStr(work, prefix, '{', tag);
      if opener.None? {
        var last := ReadRest(work, prefix, tag);
        NoItem(tag[prefix..], op);
        return 0, Some(buffer + last);
      }
      var curr := opener.value;
      var text := ReadUpTo(work, prefix, curr, tag);
      var closer := StrStr(work, curr + 2, '}', tag);
      if closer.None? {
        Unclosed(tag, prefix, curr, op);
        return -1, None;
      }
      var item := ReadUpTo(work, curr + 2, closer.value, tag);
      OneItem(tag, prefix, curr, closer.value, op);
      var v := op(item);
      if v.None? {
        return -1, None;
      }
      Chain(buffer, text, v.value, Expand(tag[closer.value + 2..], op));
      buffer := buffer + text + v.value;
      prefix := closer.value + 2;
    }
    AtEnd(work, prefix, tag, op);
    assert buffer + "" == buffer;
    return 0, Some(buffer);
  }

  lemma NoItem(s: string, op: ItemParser)
    requires FindPair(s, '{').None?
    ensures Expand(s, op) == Some(s)
  {
  }

  lemma Unclosed(tag: string, prefix: nat, curr: nat, op: ItemParser)
    requires prefix <= curr && curr + 2 <= |tag|
    requires FindPair(tag[prefix..], '{') == Some(curr - prefix) && FindPair(tag[curr + 2..], '}').None?
    ensures Expand(tag[prefix..], op) == None
  {
    hide FindPair;
    assert tag[prefix..][curr - prefix + 2..] == tag[curr + 2..];
  }

  lemma OneItem(tag: string, prefix: nat, curr: nat, close: nat, op: ItemParser)
    requires prefix <= curr && curr + 2 <= close && close + 2 <= |tag|
    requires FindPair(tag[prefix..], '{') == Some(curr - prefix)
    requires FindPair(tag[curr + 2..], '}') == Some(close - curr - 2)
    ensures
      Expand(tag[prefix..], op) ==
      match op(tag[curr + 2..close])
      case None => None
      case Some(v) => Prefixed(tag[prefix..curr] + v, Expand(tag[close + 2..], op))
  {
    hide FindPair, Prefixed;
    var rest := tag[curr + 2..];
    assert tag[prefix..][curr - prefix + 2..] == rest && tag[prefix..][..curr - prefix] == tag[prefix..curr];
    assert rest[..close - curr - 2] == tag[curr + 2..close] && rest[close - curr..] == tag[close + 2..];
  }

  lemma AddNothing(r: Option<string>)
    ensures Prefixed("", r) == r
  {
    if r.Some? {
      assert "" + r.value == r.value;
    }
  }

  lemma Chain(buffer: string, text: string, v: string, r: Option<string>)
    ensures Prefixed(buffer, Prefixed(text + v, r)) == Prefixed(buffer + text + v, r)
  {
    if r.Some? {
      assert buffer + (text + v + r.value) == buffer + text + v + r.value;
    }
  }

  lemma ReadsTag(work: array<char>, tag: string)
    requires Holds(work, tag)
    ensures work.Length == |tag| + 1 && work[|tag|] == NUL
    ensures forall k :: 0 <= k < |tag| ==> work[k] == tag[k] && work[k] != NUL
  {
    assert forall k :: 0 <= k < |tag| ==> work[k] == work[..][k] == tag[k];
    assert work[|tag|] == work[..][|tag|];
  }

  lemma AtEnd(work: array<char>, i: nat, tag: string, op: ItemParser)
    requires Holds(work, tag) && i <= |tag| && work[i] == NUL
    ensures Expand(tag[i..], op) == Some("")
  {
    ReadsTag(work, tag);
    assert tag[i..] == "";
  }
}
