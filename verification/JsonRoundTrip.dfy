/** What `isula inspect` prints reads back as the tree it printed, exactly when the tree
    has no key that would need escaping, no NUL in a string and no malformed number. */
module JsonRoundTrip {
  import opened Common
  import opened JsonText

  predicate PlainChar(c: char)
  {
    c as int >= 0x20 && c != '"' && c != '\\'
  }

  /** Keys are printed as they are. */
  predicate CleanKey(k: string)
  {
    forall i :: 0 <= i < |k| ==> PlainChar(k[i])
  }

  predicate ValidNumber(n: string)
  {
    n != "" && NUL !in n && NumberLen(n) == |n|
  }

  predicate Clean(j: Json)
    decreases j
  {
    match j
    case Number(n) => ValidNumber(n)
    case Str(s) => NUL !in s
    case Arr(xs) => AllClean(xs)
    case Obj(ms) => MembersClean(ms)
    case _ => true
  }

  predicate AllClean(xs: seq<Json>)
    decreases xs
  {
    xs == [] || (Clean(xs[0]) && AllClean(xs[1..]))
  }

  predicate MembersClean(ms: seq<Member>)
    decreases ms
  {
    ms == [] || (CleanKey(ms[0].key) && Clean(ms[0].value) && MembersClean(ms[1..]))
  }

  // ---------------------------------------------------------------- strings

  lemma Cons(c: char, t: string)
    ensures ([c] + t)[0] == c && ([c] + t)[1..] == t
  {
  }

  lemma Uncons(s: string, i: nat, t: string)
    requires i < |s|
    ensures s[i..] + t == [s[i]] + (s[i + 1..] + t)
  {
  }

  lemma ReadQuote(t: string)
    ensures ReadString("\"" + t) == Read("", t)
  {
    Cons('"', t);
  }

  lemma ReadPlain(c: char, t: string)
    requires PlainChar(c)
    ensures ReadString([c] + t) == Prepend(c, ReadString(t))
  {
    Cons(c, t);
  }

  lemma ReadBackslash(t: string)
    ensures ReadString("\\" + t) ==
            match ReadEscape(t) { case Fail => Fail case Read(c, rest) => Prepend(c, ReadString(rest)) }
  {
    Cons('\\', t);
  }

  lemma HexReads(n: nat)
    requires n < 16
    ensures HexValue(HexDigit(n)) == n
  {
  }

  lemma UnicodeEscapeReads(n: nat, t: string)
    requires n < 0x20
    ensures ReadEscape("u00" + [HexDigit(n / 16), HexDigit(n % 16)] + t) == Read(n as char, t)
  {
    HexReads(n / 16);
    HexReads(n % 16);
    var u := "u00" + [HexDigit(n / 16), HexDigit(n % 16)] + t;
    assert u[0] == 'u' && u[1] == '0' && u[2] == '0' && u[3] == HexDigit(n / 16) && u[4] == HexDigit(n % 16);
    assert u[5..] == t;
  }

  lemma ShortEscapeReads(e: char, t: string)
    requires e in "bfnrt\"\\"
    ensures ReadEscape([e] + t) ==
            Read(match e
                 case 'b' => 8 as char
                 case 'f' => 12 as char
                 case 'n' => '\n'
                 case 'r' => '\r'
                 case 't' => '\t'
                 case _ => e, t)
  {
    Cons(e, t);
  }

  lemma EscapeReads(c: char, t: string)
    requires c != NUL
    ensures ReadString(Escape(c) + t) == Prepend(c, ReadString(t))
  {
    hide ReadString, ReadEscape, Prepend;
    var e := Escape(c);
    if PlainChar(c) {
      ReadPlain(c, t);
    } else {
      assert e + t == "\\" + (e[1..] + t);
      ReadBackslash(e[1..] + t);
      if |e| == 2 {
        assert e[1..] == [e[1]];
        ShortEscapeReads(e[1], t);
      } else {
        assert e[1..] == "u00" + [HexDigit(c as int / 16), HexDigit(c as int % 16)];
        UnicodeEscapeReads(c as int, t);
      }
    }
  }

  lemma {:induction false} EscapedReads(s: string, t: string)
    requires NUL !in s
    ensures ReadString(Escaped(s) + ("\"" + t)) == Read(s, t)
  {
    hide ReadString, Escape;
    var q := "\"" + t;
    if s == "" {
      assert Escaped(s) + q == q;
      ReadQuote(t);
    } else {
      Assoc(Escape(s[0]), Escaped(s[1..]), q);
      EscapeReads(s[0], Escaped(s[1..]) + q);
      EscapedReads(s[1..], t);
      assert [s[0]] + s[1..] == s;
    }
  }

  lemma {:induction false} KeyReads(k: string, t: string)
    requires CleanKey(k)
    ensures ReadString(k + ("\"" + t)) == Read(k, t)
  {
    hide ReadString;
    if k == "" {
      assert k + ("\"" + t) == "\"" + t;
      ReadQuote(t);
    } else {
      var q := "\"" + t;
      Uncons(k, 0, q);
      assert k[0..] == k;
      ReadPlain(k[0], k[1..] + q);
      KeyReads(k[1..], t);
      assert [k[0]] + k[1..] == k;
    }
  }

  /** An escape read in the word `w`, at `a`: unless it stands for a quotation mark, it ends
      inside the word and covers no quotation mark. */
  lemma EscapeInside(w: string, a: nat, t: string)
    requires a < |w|
    ensures var e := ReadEscape(w[a + 1..] + ("\"" + t));
            e.Read? && e.value != '"' ==>
              exists a' :: && a + 2 <= a' <= |w|
                           && e.rest == w[a'..] + ("\"" + t)
                           && forall i :: a < i < a' ==> w[i] != '"'
  {
    var q := "\"" + t;
    var u := w[a + 1..] + q;
    var e := ReadEscape(u);
    if e.Read? && e.value != '"' {
      var n := |u| - |e.rest|;
      var left := |w| - (a + 1);
      assert u[left] == '"';
      assert forall i :: 0 <= i < left ==> u[i] == w[a + 1 + i];
      EscapeCovers(u, left);
      assert u[n..] == w[a + 1 + n..] + q;
    }
  }

  lemma EscapeCovers(u: string, left: nat)
    requires left < |u| && u[left] == '"'
    requires ReadEscape(u).Read? && ReadEscape(u).value != '"'
    ensures var n := |u| - |ReadEscape(u).rest|;
            1 <= n <= left && ReadEscape(u).rest == u[n..] && forall i :: 0 <= i < n ==> u[i] != '"'
  {
    if left < 5 && u[0] == 'u' && |u| >= 5 && left >= 1 {
      assert HexValue(u[left]) == -1;
    }
  }

  /** Once an escape was read, the reader is ahead of the name it has to deliver, and
      stays ahead: it can only fall short or go astray. */
  lemma {:induction false} AheadNeverMeets(w: string, k: string, a: nat, b: nat, t: string)
    requires w <= k && b < a <= |w|
    requires forall i :: b <= i < a ==> w[i] != '"'
    ensures var r := ReadString(w[a..] + ("\"" + t)); r.Read? ==> r.value != k[b..]
    decreases |w| - a
  {
    hide ReadString, ReadEscape;
    var q := "\"" + t;
    var r := ReadString(w[a..] + q);
    assert k[b..] == [k[b]] + k[b + 1..];
    if a == |w| {
      assert w[a..] + q == q;
      ReadQuote(t);
    } else {
      Uncons(w, a, q);
      if w[a] == '\\' {
        ReadBackslash(w[a + 1..] + q);
        EscapeInside(w, a, t);
        var e := ReadEscape(w[a + 1..] + q);
        if e.Read? && e.value == k[b] {
          var a' :| a + 2 <= a' <= |w| && e.rest == w[a'..] + q && forall i :: a < i < a' ==> w[i] != '"';
          AheadNeverMeets(w, k, a', b + 1, t);
        }
      } else if PlainChar(w[a]) {
        ReadPlain(w[a], w[a + 1..] + q);
        AheadNeverMeets(w, k, a + 1, b + 1, t);
      } else {
        StopsShort(w[a], w[a + 1..] + q);
      }
    }
  }

  lemma StopsShort(c: char, t: string)
    requires !PlainChar(c) && c != '\\'
    ensures ReadString([c] + t) == if c == '"' then Read("", t) else Fail
  {
    Cons(c, t);
  }

  /** A name that reads back as itself was printed whole and needed no escaping. */
  lemma {:induction false} OnlyCleanKeys(w: string, k: string, t: string)
    requires w <= k && ReadString(w + ("\"" + t)).Read? && ReadString(w + ("\"" + t)).value == k
    ensures CleanKey(k)
  {
    hide ReadString, ReadEscape;
    var q := "\"" + t;
    if w == "" {
      assert w + q == q;
      ReadQuote(t);
    } else {
      Uncons(w, 0, q);
      assert w[0..] == w && k == [k[0]] + k[1..];
      if w[0] == '\\' {
        ReadBackslash(w[1..] + q);
        EscapeInside(w, 0, t);
        var e := ReadEscape(w[1..] + q);
        var a' :| 2 <= a' <= |w| && e.rest == w[a'..] + q && forall i :: 0 < i < a' ==> w[i] != '"';
        AheadNeverMeets(w, k, a', 1, t);
        assert false;
      } else if PlainChar(w[0]) {
        ReadPlain(w[0], w[1..] + q);
        OnlyCleanKeys(w[1..], k[1..], t);
      } else {
        StopsShort(w[0], w[1..] + q);
      }
    }
  }

  // ---------------------------------------------------------------- numbers

  /** What may follow a number without becoming part of it. */
  predicate Terminated(t: string)
  {
    t != "" ==> !IsDigit(t[0]) && t[0] !in ".eE+-"
  }

  lemma {:induction false} DigitsAppend(s: string, t: string)
    requires Terminated(t)
    ensures DigitsLen(s + t) == DigitsLen(s)
  {
    if s == "" {
      assert s + t == t;
    } else {
      assert (s + t)[1..] == s[1..] + t;
      DigitsAppend(s[1..], t);
    }
  }

  lemma IntAppend(s: string, t: string)
    requires Terminated(t)
    ensures IntLen(s + t) == IntLen(s)
  {
    hide DigitsLen;
    var sign := if s != "" && s[0] == '-' then 1 else 0;
    DigitsAppend(s[sign..], t);
    assert (s + t)[sign..] == s[sign..] + t;
    if s == "" {
      assert s + t == t;
    }
  }

  lemma FracAppend(s: string, t: string)
    requires Terminated(t)
    ensures FracLen(s + t) == FracLen(s)
  {
    hide DigitsLen;
    if s == "" {
      assert s + t == t;
    } else {
      DigitsAppend(s[1..], t);
      assert (s + t)[1..] == s[1..] + t;
    }
  }

  lemma ExpAppend(s: string, t: string)
    requires Terminated(t)
    ensures ExpLen(s + t) == ExpLen(s)
  {
    hide DigitsLen;
    if s == "" {
      assert s + t == t;
    } else {
      var sign := if |s| > 1 && (s[1] == '+' || s[1] == '-') then 2 else 1;
      DigitsAppend(s[sign..], t);
      assert (s + t)[sign..] == s[sign..] + t;
    }
  }

  lemma NumberAppend(s: string, t: string)
    requires Terminated(t)
    ensures NumberLen(s + t) == NumberLen(s)
  {
    hide IntLen, FracLen, ExpLen;
    IntAppend(s, t);
    var i := IntLen(s);
    assert (s + t)[i..] == s[i..] + t;
    FracAppend(s[i..], t);
    var f := FracLen(s[i..]);
    assert (s + t)[i + f..] == s[i + f..] + t;
    ExpAppend(s[i + f..], t);
  }

  lemma {:induction false} DigitsPrefix(s: string, m: nat)
    requires m <= |s|
    ensures DigitsLen(s[..m]) == if DigitsLen(s) < m then DigitsLen(s) else m
  {
    if m > 0 && IsDigit(s[0]) {
      assert s[..m][1..] == s[1..][..m - 1];
      DigitsPrefix(s[1..], m - 1);
    }
  }

  lemma PartsPrefix(s: string, m: nat)
    requires m <= |s|
    ensures 0 < IntLen(s) <= m ==> IntLen(s[..m]) == IntLen(s)
    ensures FracLen(s) <= m ==> FracLen(s[..m]) == FracLen(s)
    ensures ExpLen(s) <= m ==> ExpLen(s[..m]) == ExpLen(s)
  {
    hide DigitsLen;
    forall k | 0 <= k <= 2 && k <= m
      ensures DigitsLen(s[..m][k..]) == if DigitsLen(s[k..]) < m - k then DigitsLen(s[k..]) else m - k
    {
      assert s[..m][k..] == s[k..][..m - k];
      DigitsPrefix(s[k..], m - k);
    }
  }

  /** What the reader takes for a number is one. */
  lemma NumberPrefix(s: string)
    requires NumberLen(s) > 0
    ensures NumberLen(s[..NumberLen(s)]) == NumberLen(s)
  {
    hide IntLen, FracLen, ExpLen;
    var m := NumberLen(s);
    var n := s[..m];
    var i := IntLen(s);
    PartsPrefix(s, m);
    assert n[i..] == s[i..][..m - i];
    PartsPrefix(s[i..], m - i);
    var f := FracLen(s[i..]);
    assert n[i + f..] == s[i + f..][..m - i - f];
    PartsPrefix(s[i + f..], m - i - f);
  }

  lemma NumberStarts(s: string)
    requires NumberLen(s) > 0
    ensures s != "" && (s[0] == '-' || IsDigit(s[0]))
  {
  }

  // ---------------------------------------------------------------- whitespace

  lemma {:induction false} SkipSpaces(n: nat, t: string)
    ensures SkipWs(Spaces(n) + t) == SkipWs(t)
  {
    if n == 0 {
      assert Spaces(n) + t == t;
    } else {
      assert (Spaces(n) + t)[1..] == Spaces(n - 1) + t;
      SkipSpaces(n - 1, t);
    }
  }

  lemma SkipLine(n: nat, t: string)
    ensures SkipWs("\n" + (Spaces(n) + t)) == SkipWs(t)
  {
    Cons('\n', Spaces(n) + t);
    SkipSpaces(n, t);
  }

  // ---------------------------------------------------------------- the shape of the text

  /** What follows the first of some elements, up to and including `end`. */
  function ItemsRest(ys: seq<Json>, indent: nat, end: string): string
  {
    if ys == [] then end else "," + (ItemsText(ys, indent, true) + end)
  }

  function MembersRest(ms: seq<Member>, indent: nat, end: string): string
  {
    if ms == [] then end else "," + (MembersText(ms, indent, true) + end)
  }

  lemma ItemsSplit(xs: seq<Json>, indent: nat, end: string)
    requires xs != []
    ensures ItemsText(xs, indent, true) + end
            == "\n" + (Spaces(indent) + (Text(xs[0], indent, true) + ItemsRest(xs[1..], indent, end)))
  {
    hide Text, Spaces;
    var s, t, more := Spaces(indent), Text(xs[0], indent, true), ItemsText(xs[1..], indent, true);
    Regroup("\n", s, t, Comma(|xs| == 1), more, end);
    if |xs| == 1 {
      assert "" + ("" + end) == end;
    }
  }

  lemma Regroup(a: string, b: string, c: string, d: string, e: string, f: string)
    ensures a + b + c + d + e + f == a + (b + (c + (d + (e + f))))
  {
    Assoc(a, b, c);
    Assoc(a + b + c, d, e + f);
    Assoc(a + b + c + d, e, f);
    Assoc(a + b, c, d + (e + f));
    Assoc(a, b, c + (d + (e + f)));
  }

  lemma MembersSplit(ms: seq<Member>, indent: nat, end: string)
    requires ms != []
    ensures MembersText(ms, indent, true) + end
            == "\n" + (Spaces(indent) + ("\"" + (CString(ms[0].key) + ("\"" + (": "
               + (Text(ms[0].value, indent, true) + MembersRest(ms[1..], indent, end)))))))
  {
    hide Text, Spaces, CString;
    var s, k, t, more := Spaces(indent), CString(ms[0].key), Text(ms[0].value, indent, true), MembersText(ms[1..], indent, true);
    var rest := Comma(|ms| == 1) + (more + end);
    Regroup("\n" + s + "\"" + k, "\": ", t, Comma(|ms| == 1), more, end);
    assert "\": " == "\"" + ": ";
    Assoc("\"", ": ", t + rest);
    Regroup("\n", s, "\"", k, "\"", ": " + (t + rest));
    Assoc("\n" + s + "\"" + k, "\"", ": " + (t + rest));
    if |ms| == 1 {
      assert "" + ("" + end) == end;
    }
  }

  /** How an array or object is closed. */
  function Close(indent: nat, c: char, rest: string): string
  {
    "\n" + (Spaces(indent) + ([c] + rest))
  }

  lemma SkipClose(indent: nat, c: char, rest: string)
    requires !IsWs(c)
    ensures SkipWs(Close(indent, c, rest)) == [c] + rest
  {
    SkipLine(indent, [c] + rest);
  }

  lemma ArrShape(xs: seq<Json>, indent: nat, rest: string)
    requires xs != []
    ensures Text(Arr(xs), indent, true) + rest
            == "[" + (ItemsText(xs, indent + PRINTF_TAB_LEN, true) + Close(indent, ']', rest))
  {
    hide ItemsText, Spaces;
  }

  lemma ObjShape(ms: seq<Member>, indent: nat, rest: string)
    requires ms != []
    ensures Text(Obj(ms), indent, true) + rest
            == "{" + (MembersText(ms, indent + PRINTF_TAB_LEN, true) + Close(indent, '}', rest))
  {
    hide MembersText, Spaces;
  }

  lemma RestTerminated(ys: seq<Json>, ms: seq<Member>, indent: nat, at: nat, c: char, rest: string)
    ensures Terminated(ItemsRest(ys, indent, Close(at, c, rest)))
    ensures Terminated(MembersRest(ms, indent, Close(at, c, rest)))
  {
  }

  // ---------------------------------------------------------------- the reader, unfolded once

  lemma ReadArr(t: string)
    ensures ReadValue("[" + t) ==
            var u := SkipWs(t);
            if u != "" && u[0] == ']' then Read(Arr([]), u[1..])
            else match ReadItems(u) { case Fail => Fail case Read(xs, rest) => Read(Arr(xs), rest) }
  {
    hide ReadItems, ReadMembers, SkipWs;
    Cons('[', t);
  }

  lemma ReadObj(t: string)
    ensures ReadValue("{" + t) ==
            var u := SkipWs(t);
            if u != "" && u[0] == '}' then Read(Obj([]), u[1..])
            else match ReadMembers(u) { case Fail => Fail case Read(ms, rest) => Read(Obj(ms), rest) }
  {
    hide ReadItems, ReadMembers, SkipWs;
    Cons('{', t);
  }

  lemma ReadStr(t: string)
    ensures ReadValue("\"" + t) ==
            match ReadString(t) { case Fail => Fail case Read(s, rest) => Read(Str(s), rest) }
  {
    hide ReadItems, ReadMembers, SkipWs, ReadString;
    Cons('"', t);
  }

  lemma ReadWord(j: Json, t: string)
    requires j.Null? || j.True? || j.False?
    ensures ReadValue(Text(j, 0, true) + t) == Read(j, t)
  {
    hide ReadItems, ReadMembers, SkipWs, ReadString, NumberLen;
    var s := Text(j, 0, true) + t;
    assert s[0] == Text(j, 0, true)[0];
    assert s[|Text(j, 0, true)|..] == t;
  }

  lemma ReadNumber(s: string)
    ensures NumberLen(s) > 0 ==> ReadValue(s) == Read(Number(s[..NumberLen(s)]), s[NumberLen(s)..])
    ensures ReadValue(s).Read? && ReadValue(s).value.Number? ==> NumberLen(s) > 0
  {
    hide ReadItems, ReadMembers, SkipWs, ReadString, NumberLen;
    if NumberLen(s) > 0 {
      NumberStarts(s);
    }
  }

  lemma ReadItemsStep(s: string, c: char, t: string)
    requires ReadValue(s).Read? && SkipWs(ReadValue(s).rest) == [c] + t
    ensures c == ']' ==> ReadItems(s) == Read([ReadValue(s).value], t)
    ensures c == ',' ==>
              ReadItems(s) ==
              match ReadItems(SkipWs(t)) { case Fail => Fail case Read(xs, rest) => Read([ReadValue(s).value] + xs, rest) }
  {
    hide ReadValue, SkipWs;
    Cons(c, t);
  }

  lemma ReadItemsFirst(s: string)
    requires ReadItems(s).Read?
    ensures ReadValue(s).Read? && ReadItems(s).value != [] && ReadItems(s).value[0] == ReadValue(s).value
  {
    hide ReadValue, SkipWs;
  }

  lemma ReadMembersStep(s: string, c: char, t: string)
    requires ReadName(s).Read? && ReadValue(ReadName(s).rest).Read?
    requires SkipWs(ReadValue(ReadName(s).rest).rest) == [c] + t
    ensures var m := Member(ReadName(s).value, ReadValue(ReadName(s).rest).value);
            && (c == '}' ==> ReadMembers(s) == Read([m], t))
            && (c == ',' ==>
                  ReadMembers(s) ==
                  match ReadMembers(SkipWs(t)) { case Fail => Fail case Read(ms, rest) => Read([m] + ms, rest) })
  {
    hide ReadValue, SkipWs, ReadName;
    Cons(c, t);
  }

  lemma ReadMembersFirst(s: string)
    requires ReadMembers(s).Read?
    ensures ReadName(s).Read? && ReadValue(ReadName(s).rest).Read?
    ensures ReadMembers(s).value != []
    ensures ReadMembers(s).value[0] == Member(ReadName(s).value, ReadValue(ReadName(s).rest).value)
  {
    hide ReadValue, SkipWs, ReadName;
  }

  /** A printed name, read up to its value. */
  lemma ReadNameText(w: string, t: string)
    ensures var key, name := ReadString(w + ("\"" + (": " + t))), ReadName("\"" + (w + ("\"" + (": " + t))));
            && (name.Read? ==> key.Read? && name.value == key.value)
            && (CleanKey(w) ==> name == Read(w, SkipWs(t)))
  {
    hide ReadString;
    var u := ": " + t;
    Cons('"', w + ("\"" + u));
    if CleanKey(w) {
      KeyReads(w, u);
      assert u[0] == ':' && u[1..] == " " + t;
      Cons(' ', t);
    }
  }

  // ---------------------------------------------------------------- clean trees read back

  lemma StartsValue(j: Json, indent: nat, t: string)
    requires Clean(j)
    ensures Text(j, indent, true) != "" && !IsWs(Text(j, indent, true)[0])
    ensures Text(j, indent, true)[0] !in "]}"
    ensures SkipWs(Text(j, indent, true) + t) == Text(j, indent, true) + t
  {
    hide ItemsText, MembersText, Escaped, Spaces, AllClean, MembersClean;
    if j.Number? {
      NumberStarts(j.digits);
    }
  }

  lemma {:induction false} ReadsBack(j: Json, indent: nat, rest: string)
    requires Clean(j) && Terminated(rest)
    ensures ReadValue(Text(j, indent, true) + rest) == Read(j, rest)
    decreases j, 1
  {
    hide ReadValue, ReadItems, ReadMembers, ReadString, NumberLen, ItemsText, MembersText, SkipWs, Escaped, Close, Spaces;
    match j
    case Null => ReadWord(j, rest);
    case True => ReadWord(j, rest);
    case False => ReadWord(j, rest);
    case Number(n) =>
      NumberAppend(n, rest);
      ReadNumber(n + rest);
      assert (n + rest)[..|n|] == n && (n + rest)[|n|..] == rest;
    case Str(s) =>
      var e := Escaped(CString(s));
      Assoc("\"" + e, "\"", rest);
      Assoc("\"", e, "\"" + rest);
      EscapedReads(s, rest);
      ReadStr(e + ("\"" + rest));
    case Arr(xs) =>
      if xs == [] {
        EmptyReads(rest);
      } else {
        ArrShape(xs, indent, rest);
        var t := ItemsText(xs, indent + PRINTF_TAB_LEN, true) + Close(indent, ']', rest);
        ReadArr(t);
        ItemsStart(xs, indent + PRINTF_TAB_LEN, Close(indent, ']', rest));
        ReadsBackItems(xs, indent + PRINTF_TAB_LEN, indent, rest);
      }
    case Obj(ms) =>
      if ms == [] {
        EmptyReads(rest);
      } else {
        ObjShape(ms, indent, rest);
        var t := MembersText(ms, indent + PRINTF_TAB_LEN, true) + Close(indent, '}', rest);
        ReadObj(t);
        MembersStart(ms, indent + PRINTF_TAB_LEN, Close(indent, '}', rest));
        ReadsBackMembers(ms, indent + PRINTF_TAB_LEN, indent, rest);
      }
  }

  lemma EmptyReads(rest: string)
    ensures ReadValue("[]" + rest) == Read(Arr([]), rest)
    ensures ReadValue("{}" + rest) == Read(Obj([]), rest)
  {
    hide ReadValue, ReadItems, ReadMembers;
    assert "[]" + rest == "[" + ("]" + rest) && "{}" + rest == "{" + ("}" + rest);
    ReadArr("]" + rest);
    ReadObj("}" + rest);
    Cons(']', rest);
    Cons('}', rest);
  }

  /** Where the reader finds the first element. */
  lemma ItemsStart(xs: seq<Json>, indent: nat, end: string)
    requires xs != []
    ensures SkipWs(ItemsText(xs, indent, true) + end)
            == SkipWs(Text(xs[0], indent, true) + ItemsRest(xs[1..], indent, end))
    ensures Clean(xs[0]) ==>
              && SkipWs(ItemsText(xs, indent, true) + end)
                 == Text(xs[0], indent, true) + ItemsRest(xs[1..], indent, end)
              && Text(xs[0], indent, true) != "" && Text(xs[0], indent, true)[0] !in "]}"
  {
    hide ItemsText, Text, ItemsRest, SkipWs, Spaces;
    ItemsSplit(xs, indent, end);
    SkipLine(indent, Text(xs[0], indent, true) + ItemsRest(xs[1..], indent, end));
    if Clean(xs[0]) {
      StartsValue(xs[0], indent, ItemsRest(xs[1..], indent, end));
    }
  }

  /** Where the reader finds the first name. */
  lemma MembersStart(ms: seq<Member>, indent: nat, end: string)
    requires ms != []
    ensures SkipWs(MembersText(ms, indent, true) + end)
            == "\"" + (CString(ms[0].key) + ("\"" + (": "
               + (Text(ms[0].value, indent, true) + MembersRest(ms[1..], indent, end)))))
  {
    hide MembersText, Text, MembersRest, Spaces;
    MembersSplit(ms, indent, end);
    SkipLine(indent, "\"" + (CString(ms[0].key) + ("\"" + (": "
               + (Text(ms[0].value, indent, true) + MembersRest(ms[1..], indent, end))))));
  }

  lemma {:induction false} ReadsBackItems(xs: seq<Json>, indent: nat, at: nat, rest: string)
    requires xs != [] && AllClean(xs)
    ensures ReadItems(SkipWs(ItemsText(xs, indent, true) + Close(at, ']', rest))) == Read(xs, rest)
    decreases xs, 0
  {
    hide ReadValue, ReadItems, ItemsText, Text, SkipWs, Close, Terminated, Clean;
    var end := Close(at, ']', rest);
    var r := ItemsRest(xs[1..], indent, end);
    ItemsStart(xs, indent, end);
    RestTerminated(xs[1..], [], indent, at, ']', rest);
    ReadsBack(xs[0], indent, r);
    var s := Text(xs[0], indent, true) + r;
    if |xs| == 1 {
      SkipClose(at, ']', rest);
      ReadItemsStep(s, ']', rest);
      assert [xs[0]] == xs;
    } else {
      SkipComma(ItemsText(xs[1..], indent, true) + end);
      ReadItemsStep(s, ',', ItemsText(xs[1..], indent, true) + end);
      ReadsBackItems(xs[1..], indent, at, rest);
      assert [xs[0]] + xs[1..] == xs;
    }
  }

  lemma SkipComma(t: string)
    ensures SkipWs("," + t) == "," + t
  {
  }

  lemma {:induction false} ReadsBackMembers(ms: seq<Member>, indent: nat, at: nat, rest: string)
    requires ms != [] && MembersClean(ms)
    ensures ReadMembers(SkipWs(MembersText(ms, indent, true) + Close(at, '}', rest))) == Read(ms, rest)
    decreases ms, 0
  {
    hide ReadValue, ReadMembers, ReadName, MembersText, Text, SkipWs, Close, Terminated, Clean;
    var end := Close(at, '}', rest);
    var m := ms[0];
    var r := MembersRest(ms[1..], indent, end);
    var v := Text(m.value, indent, true) + r;
    var s := "\"" + (CString(m.key) + ("\"" + (": " + v)));
    MembersStart(ms, indent, end);
    KeyIsCString(m.key);
    ReadNameText(m.key, v);
    StartsValue(m.value, indent, r);
    RestTerminated([], ms[1..], indent, at, '}', rest);
    ReadsBack(m.value, indent, r);
    if |ms| == 1 {
      SkipClose(at, '}', rest);
      ReadMembersStep(s, '}', rest);
      assert [m] == ms;
    } else {
      SkipComma(MembersText(ms[1..], indent, true) + end);
      ReadMembersStep(s, ',', MembersText(ms[1..], indent, true) + end);
      ReadsBackMembers(ms[1..], indent, at, rest);
      assert [m] + ms[1..] == ms;
    }
  }

  lemma KeyIsCString(k: string)
    requires CleanKey(k)
    ensures CString(k) == k
  {
  }

  // ---------------------------------------------------------------- only clean trees do

  lemma {:induction false} OnlyClean(j: Json, indent: nat, rest: string)
    requires Terminated(rest)
    requires ReadValue(SkipWs(Text(j, indent, true) + rest)).Read?
    requires ReadValue(SkipWs(Text(j, indent, true) + rest)).value == j
    ensures Clean(j)
    decreases j, 1
  {
    hide ReadValue, ReadItems, ReadMembers, ReadString, NumberLen, ItemsText, MembersText, SkipWs, Escaped, Close, Spaces, CString;
    match j
    case Null =>
    case True =>
    case False =>
    case Number(n) =>
      OnlyValidNumbers(n, rest);
    case Str(s) =>
      var e := Escaped(CString(s));
      Assoc("\"" + e, "\"", rest);
      Assoc("\"", e, "\"" + rest);
      SkipQuote(e + ("\"" + rest));
      EscapedReads(CString(s), rest);
      ReadStr(e + ("\"" + rest));
    case Arr(xs) =>
      if xs != [] {
        ArrShape(xs, indent, rest);
        var t := ItemsText(xs, indent + PRINTF_TAB_LEN, true) + Close(indent, ']', rest);
        SkipBracket('[', t);
        ReadArr(t);
        OnlyCleanItems(xs, indent + PRINTF_TAB_LEN, indent, rest);
      }
    case Obj(ms) =>
      if ms != [] {
        ObjShape(ms, indent, rest);
        var t := MembersText(ms, indent + PRINTF_TAB_LEN, true) + Close(indent, '}', rest);
        SkipBracket('{', t);
        ReadObj(t);
        OnlyCleanMembers(ms, indent + PRINTF_TAB_LEN, indent, rest);
      }
  }

  lemma SkipQuote(t: string)
    ensures SkipWs("\"" + t) == "\"" + t
  {
  }

  lemma SkipBracket(c: char, t: string)
    requires !IsWs(c)
    ensures SkipWs([c] + t) == [c] + t
  {
  }

  lemma OnlyValidNumbers(n: string, rest: string)
    requires Terminated(rest)
    ensures ReadValue(SkipWs(CString(n) + rest)).Read? && ReadValue(SkipWs(CString(n) + rest)).value == Number(n) ==>
              ValidNumber(n)
  {
    hide ReadValue, NumberLen;
    var s := SkipWs(CString(n) + rest);
    if ReadValue(s).Read? && ReadValue(s).value == Number(n) {
      ReadNumber(s);
      NumberStarts(s);
      NumberPrefix(s);
      assert n[0] == s[0];
      var w := CString(n);
      assert w != "" && w[0] == n[0];
      assert s == w + rest;
      NumberAppend(w, rest);
      assert n == (w + rest)[..NumberLen(w)];
      assert n == w[..NumberLen(w)];
    }
  }

  lemma {:induction false} OnlyCleanItems(xs: seq<Json>, indent: nat, at: nat, rest: string)
    requires xs != []
    requires ReadItems(SkipWs(ItemsText(xs, indent, true) + Close(at, ']', rest))).Read?
    requires ReadItems(SkipWs(ItemsText(xs, indent, true) + Close(at, ']', rest))).value == xs
    ensures AllClean(xs)
    decreases xs, 0
  {
    hide ReadValue, ReadItems, ItemsText, Text, SkipWs, Close, Terminated, Clean;
    var end := Close(at, ']', rest);
    var r := ItemsRest(xs[1..], indent, end);
    ItemsStart(xs, indent, end);
    RestTerminated(xs[1..], [], indent, at, ']', rest);
    ReadItemsFirst(SkipWs(Text(xs[0], indent, true) + r));
    OnlyClean(xs[0], indent, r);
    ReadsBack(xs[0], indent, r);
    if |xs| > 1 {
      var s := Text(xs[0], indent, true) + r;
      var t := ItemsText(xs[1..], indent, true) + end;
      SkipComma(t);
      ReadItemsStep(s, ',', t);
      assert ([xs[0]] + ReadItems(SkipWs(t)).value)[1..] == ReadItems(SkipWs(t)).value;
      OnlyCleanItems(xs[1..], indent, at, rest);
    }
  }

  lemma {:induction false} OnlyCleanMembers(ms: seq<Member>, indent: nat, at: nat, rest: string)
    requires ms != []
    requires ReadMembers(SkipWs(MembersText(ms, indent, true) + Close(at, '}', rest))).Read?
    requires ReadMembers(SkipWs(MembersText(ms, indent, true) + Close(at, '}', rest))).value == ms
    ensures MembersClean(ms)
    decreases ms, 0
  {
    hide ReadValue, ReadMembers, ReadName, ReadString, MembersText, Text, SkipWs, Close, Terminated, Clean, CString, CleanKey;
    var end := Close(at, '}', rest);
    var m := ms[0];
    var r := MembersRest(ms[1..], indent, end);
    var v := Text(m.value, indent, true) + r;
    var s := "\"" + (CString(m.key) + ("\"" + (": " + v)));
    MembersStart(ms, indent, end);
    ReadMembersFirst(s);
    ReadNameText(CString(m.key), v);
    OnlyCleanKeys(CString(m.key), m.key, ": " + v);
    KeyIsCString(m.key);
    RestTerminated([], ms[1..], indent, at, '}', rest);
    OnlyClean(m.value, indent, r);
    StartsValue(m.value, indent, r);
    ReadsBack(m.value, indent, r);
    if |ms| > 1 {
      var t := MembersText(ms[1..], indent, true) + end;
      SkipComma(t);
      ReadMembersStep(s, ',', t);
      assert ([m] + ReadMembers(SkipWs(t)).value)[1..] == ReadMembers(SkipWs(t)).value;
      OnlyCleanMembers(ms[1..], indent, at, rest);
    }
  }

  // ---------------------------------------------------------------- the theorems

  /** A printed tree, at any indent, reads back as itself exactly when it is clean. */
  lemma PrintedTreeReadsBack(j: Json, indent: nat)
    ensures ReadText(TopText(j, indent, true)) == Read(j, "") <==> Clean(j)
  {
    hide ReadValue, Text, SkipWs, Clean, Spaces;
    SkipTop(j, indent, "");
    assert TopText(j, indent, true) + "" == TopText(j, indent, true);
    SkipNothing();
    if Clean(j) {
      ReadsBack(j, indent, "");
      StartsValue(j, indent, "");
    } else if ReadText(TopText(j, indent, true)) == Read(j, "") {
      OnlyClean(j, indent, "");
    }
  }

  /** A key with a quote in it, for instance, is not read back. */
  lemma QuoteInKey(indent: nat)
    ensures var j := Obj([Member("\"", Null)]); ReadText(TopText(j, indent, true)) != Read(j, "")
  {
    hide ReadText, TopText;
    var j := Obj([Member("\"", Null)]);
    PrintedTreeReadsBack(j, indent);
    assert "\""[0] == '"' && !CleanKey("\"");
  }

  lemma SkipNothing()
    ensures SkipWs("") == ""
  {
  }

  lemma SkipTop(j: Json, indent: nat, t: string)
    ensures SkipWs(TopText(j, indent, true) + t) == SkipWs(Text(j, indent, true) + t)
  {
    hide Text, SkipWs, Spaces;
    if j.Obj? || j.Arr? {
      Assoc(Spaces(indent), Text(j, indent, true), t);
      SkipSpaces(indent, Text(j, indent, true) + t);
    } else {
      assert "" + Text(j, indent, true) == Text(j, indent, true);
    }
  }

  function TreesRest(trees: seq<Json>, end: string): string
  {
    if trees == [] then end else "," + ("\n" + (TreesText(trees) + end))
  }

  lemma TreesSplit(trees: seq<Json>, end: string)
    requires trees != []
    ensures TreesText(trees) + end == TopText(trees[0], PRINTF_TAB_LEN, true) + TreesRest(trees[1..], end)
  {
    hide TopText;
    var t, more := TopText(trees[0], PRINTF_TAB_LEN, true), TreesText(trees[1..]);
    if |trees| == 1 {
      assert t + "" + "" == t;
    } else {
      Regroup("", t, ",", "\n", more, end);
      assert ",\n" == "," + "\n";
      Assoc(t, ",", "\n");
      assert "" + t == t;
      assert "" + (t + ("," + ("\n" + (more + end)))) == t + ("," + ("\n" + (more + end)));
    }
  }

  lemma {:induction false} TreesReadBack(trees: seq<Json>)
    requires trees != []
    ensures var r := ReadItems(SkipWs(TreesText(trees) + Close(0, ']', "\n")));
            (r.Read? && r.value == trees <==> AllClean(trees)) && (AllClean(trees) ==> r == Read(trees, "\n"))
  {
    hide ReadValue, ReadItems, TreesText, TopText, Text, SkipWs, Close, Clean, Terminated;
    var end := Close(0, ']', "\n");
    var j, more := trees[0], TreesRest(trees[1..], end);
    var s := SkipWs(Text(j, PRINTF_TAB_LEN, true) + more);
    TreesSplit(trees, end);
    SkipTop(j, PRINTF_TAB_LEN, more);
    TreesRestTerminated(trees[1..]);
    if ReadItems(s).Read? && ReadItems(s).value == trees {
      ReadItemsFirst(s);
      OnlyClean(j, PRINTF_TAB_LEN, more);
    }
    if Clean(j) {
      ReadsBack(j, PRINTF_TAB_LEN, more);
      StartsValue(j, PRINTF_TAB_LEN, more);
      if |trees| == 1 {
        SkipClose(0, ']', "\n");
        ReadItemsStep(s, ']', "\n");
        assert [j] == trees;
      } else {
        var t := TreesText(trees[1..]) + end;
        SkipComma("\n" + t);
        ReadItemsStep(s, ',', "\n" + t);
        SkipNewline(t);
        TreesReadBack(trees[1..]);
        assert [j] + trees[1..] == trees;
        var r := ReadItems(SkipWs(t));
        assert r.Read? ==> ([j] + r.value)[1..] == r.value;
      }
    }
  }

  lemma SkipNewline(t: string)
    ensures SkipWs("\n" + t) == SkipWs(t)
  {
    Cons('\n', t);
  }

  lemma TreesRestTerminated(trees: seq<Json>)
    ensures Terminated(TreesRest(trees, Close(0, ']', "\n")))
  {
  }

  /** The whole output of `isula inspect` without a format reads back as the array of the
      trees it was given, exactly when all of them are clean. */
  lemma ShownTreesReadBack(trees: seq<Json>)
    ensures ReadText(ShowText(trees)) == Read(Arr(trees), "") <==> AllClean(trees)
  {
    hide ReadValue, ReadItems, TreesText, Clean;
    SkipNothing();
    Cons('\n', "");
    if trees == [] {
      assert "[]\n" == "[]" + "\n";
      EmptyReads("\n");
    } else {
      var body := TreesText(trees);
      var end := Close(0, ']', "\n");
      assert end == "\n]\n";
      assert ShowText(trees) == "[" + ("\n" + (body + end));
      SkipBracket('[', "\n" + (body + end));
      ReadArr("\n" + (body + end));
      SkipNewline(body + end);
      TreesReadBack(trees);
      if AllClean(trees) {
        TreesNotClosed(trees, end);
      }
    }
  }

  lemma TreesNotClosed(trees: seq<Json>, end: string)
    requires trees != [] && AllClean(trees)
    ensures var u := SkipWs(TreesText(trees) + end); u != "" && u[0] != ']'
  {
    hide TreesText, Text, TreesRest, SkipWs, TopText;
    TreesSplit(trees, end);
    SkipTop(trees[0], PRINTF_TAB_LEN, TreesRest(trees[1..], end));
    StartsValue(trees[0], PRINTF_TAB_LEN, TreesRest(trees[1..], end));
  }
}
