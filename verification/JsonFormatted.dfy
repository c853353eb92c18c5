/** What `isula inspect` prints with a format: one tree per line, each with its strings quoted
    and escaped, or bare. */
module JsonFormatted {
  import opened Common
  import opened JsonText
  import opened JsonRoundTrip

  /** Reads trees one after the other, with white space between them. */
  function ReadAll(s: string): (r: Parsed<seq<Json>>)
    decreases |s|
  {
    var u := SkipWs(s);
    if u == "" then Read([], "")
    else
      match ReadValue(u)
      case Fail => Fail
      case Read(v, rest) =>
        match ReadAll(rest)
        case Fail => Fail
        case Read(vs, end) => Read([v] + vs, end)
  }

  function Always(n: nat): (r: seq<bool>)
    ensures |r| == n && forall i :: 0 <= i < n ==> r[i]
  {
    seq(n, _ => true)
  }

  /** With a format that asks for JSON the output reads back tree by tree, exactly when all are clean. */
  lemma {:induction false} FormattedReadsBack(trees: seq<Json>)
    ensures ReadAll(FormattedText(trees, Always(|trees|)) + "\n") == Read(trees, "") <==> AllClean(trees)
  {
    hide ReadValue, Text, SkipWs, Clean, Spaces, ReadAll, FormattedText, TopText;
    if trees == [] {
      NoneFormatted();
    } else {
      var j, more := trees[0], FormattedRest(trees[1..]);
      FormattedSplit(trees);
      SkipTop(j, 0, more);
      FormattedTerminated(trees[1..]);
      var s := SkipWs(Text(j, 0, true) + more);
      ReadAllFirst(FormattedText(trees, Always(|trees|)) + "\n", trees);
      if Clean(j) {
        ReadsBack(j, 0, more);
        StartsValue(j, 0, more);
        RestReads(trees[1..]);
        FormattedReadsBack(trees[1..]);
        assert [j] + trees[1..] == trees;
      } else if s != "" && ReadValue(s).Read? && ReadValue(s).value == j {
        OnlyClean(j, 0, more);
      }
    }
  }

  /** What follows the first tree. */
  function FormattedRest(trees: seq<Json>): string
  {
    if trees == [] then "\n" else "\n" + (FormattedText(trees, Always(|trees|)) + "\n")
  }

  lemma NoneFormatted()
    ensures FormattedText([], Always(0)) == "" && ReadAll("" + "\n") == Read([], "") && AllClean([])
  {
    Cons('\n', "");
    assert "" + "\n" == ['\n'] + "";
    SkipNewline("");
  }

  lemma FormattedUnfold(trees: seq<Json>)
    requires trees != []
    ensures FormattedText(trees, Always(|trees|)) ==
            TopText(trees[0], 0, true) + (if |trees| == 1 then "" else "\n") + FormattedText(trees[1..], Always(|trees| - 1))
  {
    hide TopText;
    assert Always(|trees|)[1..] == Always(|trees| - 1);
  }

  lemma FormattedSplit(trees: seq<Json>)
    requires trees != []
    ensures FormattedText(trees, Always(|trees|)) + "\n" == TopText(trees[0], 0, true) + FormattedRest(trees[1..])
  {
    hide TopText, FormattedText, Always, ReadAll, AllClean;
    FormattedUnfold(trees);
    var t, more := TopText(trees[0], 0, true), FormattedText(trees[1..], Always(|trees| - 1));
    if |trees| == 1 {
      NoneFormatted();
      assert trees[1..] == [];
      Blank(t);
    } else {
      Assoc(t + "\n", more, "\n");
      Assoc(t, "\n", more + "\n");
    }
  }

  lemma Blank(t: string)
    ensures t + "" + "" == t
  {
  }

  lemma FormattedTerminated(trees: seq<Json>)
    ensures Terminated(FormattedRest(trees))
  {
    hide FormattedText;
    assert FormattedRest(trees)[0] == '\n';
  }

  lemma ReadAllFirst(s: string, trees: seq<Json>)
    requires trees != []
    ensures var u := SkipWs(s);
            ReadAll(s) == Read(trees, "") <==>
            && u != "" && ReadValue(u).Read? && ReadValue(u).value == trees[0]
            && ReadAll(ReadValue(u).rest) == Read(trees[1..], "")
  {
    hide ReadValue, SkipWs;
    var u := SkipWs(s);
    if u != "" && ReadValue(u).Read? && ReadAll(ReadValue(u).rest).Read? {
      var vs := ReadAll(ReadValue(u).rest).value;
      assert ([ReadValue(u).value] + vs)[1..] == vs && ([ReadValue(u).value] + vs)[0] == ReadValue(u).value;
      assert [trees[0]] + trees[1..] == trees;
    }
  }

  lemma RestReads(trees: seq<Json>)
    ensures ReadAll(FormattedRest(trees)) == ReadAll(FormattedText(trees, Always(|trees|)) + "\n")
  {
    hide ReadValue, SkipWs, FormattedText;
    if trees == [] {
      NoneFormatted();
      assert "" + "\n" == "\n";
    } else {
      SkipNewline(FormattedText(trees, Always(|trees|)) + "\n");
    }
  }

  // -- without quotes

  /** The tree with every string as a bare token of its escaped text. */
  function Unquoted(j: Json): Json
    decreases j
  {
    match j
    case Str(s) => Number(Escaped(CString(s)))
    case Arr(xs) => Arr(UnquotedItems(xs))
    case Obj(ms) => Obj(UnquotedMembers(ms))
    case _ => j
  }

  function UnquotedItems(xs: seq<Json>): (r: seq<Json>)
    ensures |r| == |xs|
    decreases xs
  {
    if xs == [] then [] else [Unquoted(xs[0])] + UnquotedItems(xs[1..])
  }

  function UnquotedMembers(ms: seq<Member>): (r: seq<Member>)
    ensures |r| == |ms|
    decreases ms
  {
    if ms == [] then [] else [Member(ms[0].key, Unquoted(ms[0].value))] + UnquotedMembers(ms[1..])
  }

  lemma {:induction false} EscapedHasNoNul(s: string)
    requires NUL !in s
    ensures NUL !in Escaped(s) && CString(Escaped(s)) == Escaped(s)
  {
    if s != "" {
      EscapedHasNoNul(s[1..]);
      EscapeHasNoNul(s[0]);
    }
  }

  lemma EscapeHasNoNul(c: char)
    requires c != NUL
    ensures NUL !in Escape(c)
  {
  }

  /** Printed without JSON format a tree looks like the tree printed with it, but for the quotes of its
      strings: each stands as its escaped text. */
  lemma {:induction false} UnquotedText(j: Json, indent: nat)
    ensures Text(j, indent, false) == Text(Unquoted(j), indent, true)
    decreases j
  {
    match j
    case Str(s) => EscapedHasNoNul(CString(s));
    case Arr(xs) => UnquotedItemsText(xs, indent + PRINTF_TAB_LEN);
    case Obj(ms) => UnquotedMembersText(ms, indent + PRINTF_TAB_LEN);
    case _ =>
  }

  lemma {:induction false} UnquotedItemsText(xs: seq<Json>, indent: nat)
    ensures ItemsText(xs, indent, false) == ItemsText(UnquotedItems(xs), indent, true)
    decreases xs
  {
    if xs != [] {
      UnquotedText(xs[0], indent);
      UnquotedItemsText(xs[1..], indent);
      assert UnquotedItems(xs)[1..] == UnquotedItems(xs[1..]);
    }
  }

  lemma {:induction false} UnquotedMembersText(ms: seq<Member>, indent: nat)
    ensures MembersText(ms, indent, false) == MembersText(UnquotedMembers(ms), indent, true)
    decreases ms
  {
    if ms != [] {
      UnquotedText(ms[0].value, indent);
      UnquotedMembersText(ms[1..], indent);
      assert UnquotedMembers(ms)[1..] == UnquotedMembers(ms[1..]);
    }
  }

  /** A shown string, up to its first NUL, is got back from its text by the escapes of JSON, and is its
      text when it has nothing to escape. */
  lemma BareStringReads(s: string)
    ensures ReadString(Text(Str(s), 0, false) + "\"") == Read(CString(s), "")
    ensures CleanKey(s) ==> Text(Str(s), 0, false) == s
  {
    EscapedReads(CString(s), "");
    assert "\"" + "" == "\"";
    if CleanKey(s) {
      KeyIsCString(s);
      PlainEscapes(s);
    }
  }

  lemma {:induction false} PlainEscapes(s: string)
    requires CleanKey(s)
    ensures Escaped(s) == s
  {
    if s != "" {
      PlainEscapes(s[1..]);
      assert [s[0]] + s[1..] == s;
    }
  }

  /** What is shown for a tree: itself, or without quotes. */
  function Shown(trees: seq<Json>, jsonFormat: seq<bool>): (r: seq<Json>)
    requires |trees| == |jsonFormat|
    ensures |r| == |trees|
  {
    if trees == [] then []
    else [if jsonFormat[0] then trees[0] else Unquoted(trees[0])] + Shown(trees[1..], jsonFormat[1..])
  }

  /** Any output with a format is the JSON output of what is shown for each tree. */
  lemma {:induction false} FormattedIsShown(trees: seq<Json>, jsonFormat: seq<bool>)
    requires |trees| == |jsonFormat|
    ensures FormattedText(trees, jsonFormat) == FormattedText(Shown(trees, jsonFormat), Always(|trees|))
    decreases |trees|
  {
    hide Text, Unquoted, Spaces;
    if trees != [] {
      var j := if jsonFormat[0] then trees[0] else Unquoted(trees[0]);
      var shown := Shown(trees, jsonFormat);
      assert shown[0] == j && shown[1..] == Shown(trees[1..], jsonFormat[1..]);
      assert Always(|trees|)[1..] == Always(|trees| - 1);
      FormattedIsShown(trees[1..], jsonFormat[1..]);
      UnquotedText(trees[0], 0);
      SameShape(trees[0]);
    }
  }

  lemma SameShape(j: Json)
    ensures (Unquoted(j).Obj? <==> j.Obj?) && (Unquoted(j).Arr? <==> j.Arr?)
  {
  }
}
