/** The printers of `inspect_format.c`, writing to an output stream. */
module InspectFormat {
  import opened Common
  import opened JsonText

  /** `LAST_ELEMENT` and `TOP_LEVEL_OBJ`. */
  datatype Flags = Flags(last: bool, top: bool)

  class Stdout {
    var text: string

    constructor ()
      ensures text == ""
    {
      text := "";
    }

    method Put(s: string)
      modifies this
      ensures text == old(text) + s
    {
      text := text + s;
    }

    method PrintIndent(indent: nat, newLine: bool)
      modifies this
      ensures text == old(text) + (if newLine then "\n" else "") + Spaces(indent)
    {
      if newLine {
        text := text + "\n";
      }
      ghost var start := text;
      var i := 0;
      while i < indent
        invariant i <= indent && text == start + Spaces(i)
      {
        text := text + " ";
        i := i + 1;
      }
      assert old(text) + "" == old(text);
    }

    /** The switch of `print_json_string`; `hex` is its buffer for the `\u` form. */
    method PutEscaped(c: char, hex: array<char>)
      requires hex.Length == 6 && hex[..4] == "\\u00"
      modifies this, hex
      ensures text == old(text) + Escape(c) && hex[..4] == "\\u00"
    {
      var escape: string;
      if c == '\r' {
        escape := "\\r";
      } else if c == '\n' {
        escape := "\\n";
      } else if c == '\\' {
        escape := "\\\\";
      } else if c == '"' {
        escape := "\\\"";
      } else if c == 12 as char {
        escape := "\\f";
      } else if c == 8 as char {
        escape := "\\b";
      } else if c == '\t' {
        escape := "\\t";
      } else if c as int < 0x20 {
        hex[4] := HexDigit(c as int / 16);
        hex[5] := HexDigit(c as int % 16);
        assert hex[..] == hex[..4] + [hex[4], hex[5]];
        escape := hex[..];
      } else {
        escape := [c];
      }
      text := text + escape;
    }

    method PrintString(str: string, flags: Flags, jsonFormat: bool)
      modifies this
      ensures text == old(text) + (StringText(str, jsonFormat) + Comma(flags.last))
    {
      hide Escape, Escaped, CString;
      var hex := new char[6](i requires 0 <= i < 6 => "\\u0000"[i]);
      assert hex[..4] == "\\u00";
      if jsonFormat {
        text := text + "\"";
      }
      ghost var start, done := text, "";
      var i := 0;
      CStringRest(str, 0);
      Empty(text, Escaped(CString(str)));
      while i < |str| && str[i] != NUL
        invariant i <= |str| && done + Escaped(CString(str[i..])) == Escaped(CString(str))
        invariant text == start + done
        invariant fresh(hex) && hex[..4] == "\\u00"
        decreases |str| - i
      {
        CStringRest(str, i);
        Assoc(start, done, Escape(str[i]));
        Assoc(done, Escape(str[i]), Escaped(CString(str[i + 1..])));
        PutEscaped(str[i], hex);
        done := done + Escape(str[i]);
        i := i + 1;
      }
      CStringRest(str, i);
      Empty(done, "");
      Quoted(old(text), done, Comma(flags.last));
      if jsonFormat {
        text := text + "\"";
      }
      if !flags.last {
        text := text + ",";
      }
    }

    method PrintAux(j: Json, indent: nat, flags: Flags, jsonFormat: bool)
      modifies this
      ensures text == old(text) + ((if flags.top then TopText(j, indent, jsonFormat) else Text(j, indent, jsonFormat))
                                   + Comma(flags.last))
      decreases j, 1
    {
      hide TopText;
      TopIs(j, indent, jsonFormat);
      match j {
        case Obj(ms) => PrintObject(ms, indent, flags, jsonFormat);
        case Arr(xs) => PrintArray(xs, indent, flags, jsonFormat);
        case Str(s) => PrintString(s, flags, jsonFormat);
        case Number(n) => Put(CString(n) + Comma(flags.last));
        case True => Put("true" + Comma(flags.last));
        case False => Put("false" + Comma(flags.last));
        case Null => Put("null" + Comma(flags.last));
      }
    }

    method PrintObject(ms: seq<Member>, indent: nat, flags: Flags, jsonFormat: bool)
      modifies this
      ensures text == old(text) + ((if flags.top then Spaces(indent) else "") + Text(Obj(ms), indent, jsonFormat)
                                   + Comma(flags.last))
      decreases ms, 0
    {
      hide Spaces, MembersText, CString;
      ghost var lead := if flags.top then Spaces(indent) else "";
      if flags.top {
        PrintIndent(indent, false);
      }
      Lead(old(text), flags.top, Spaces(indent));
      if ms == [] {
        Put("{}" + Comma(flags.last));
        Grouped(old(text), lead, "{}", Comma(flags.last));
        return;
      }
      Put("{");
      ghost var start := text;
      ghost var deep := indent + PRINTF_TAB_LEN;
      var i := 0;
      assert ms[0..] == ms && start + MembersText(ms, deep, jsonFormat) == text + MembersText(ms[0..], deep, jsonFormat);
      while i < |ms|
        invariant i <= |ms|
        invariant text + MembersText(ms[i..], deep, jsonFormat) == start + MembersText(ms, deep, jsonFormat)
      {
        MembersAt(ms, i, deep, jsonFormat);
        ghost var before := text;
        PrintIndent(indent + PRINTF_TAB_LEN, true);
        Put("\"" + CString(ms[i].key) + "\": ");
        PrintAux(ms[i].value, indent + PRINTF_TAB_LEN, Flags(i + 1 == |ms|, false), jsonFormat);
        OneMember(before, Spaces(deep), CString(ms[i].key), Text(ms[i].value, deep, jsonFormat), Comma(i + 1 == |ms|),
                  MembersText(ms[i + 1..], deep, jsonFormat));
        i := i + 1;
      }
      assert ms[i..] == [];
      NoneLeft(text, deep, jsonFormat);
      PrintIndent(indent, true);
      Put("}" + Comma(flags.last));
      Framed(old(text), lead, "{", MembersText(ms, deep, jsonFormat), Spaces(indent), "}", Comma(flags.last));
    }

    method PrintArray(xs: seq<Json>, indent: nat, flags: Flags, jsonFormat: bool)
      modifies this
      ensures text == old(text) + ((if flags.top then Spaces(indent) else "") + Text(Arr(xs), indent, jsonFormat)
                                   + Comma(flags.last))
      decreases xs, 0
    {
      hide Spaces, ItemsText;
      ghost var lead := if flags.top then Spaces(indent) else "";
      if flags.top {
        PrintIndent(indent, false);
      }
      Lead(old(text), flags.top, Spaces(indent));
      if xs == [] {
        Put("[]" + Comma(flags.last));
        Grouped(old(text), lead, "[]", Comma(flags.last));
        return;
      }
      Put("[");
      ghost var start := text;
      ghost var deep := indent + PRINTF_TAB_LEN;
      var i := 0;
      assert xs[0..] == xs && start + ItemsText(xs, deep, jsonFormat) == text + ItemsText(xs[0..], deep, jsonFormat);
      while i < |xs|
        invariant i <= |xs|
        invariant text + ItemsText(xs[i..], deep, jsonFormat) == start + ItemsText(xs, deep, jsonFormat)
      {
        ItemsAt(xs, i, deep, jsonFormat);
        ghost var before := text;
        PrintIndent(indent + PRINTF_TAB_LEN, true);
        PrintAux(xs[i], indent + PRINTF_TAB_LEN, Flags(i + 1 == |xs|, false), jsonFormat);
        OneItem(before, Spaces(deep), Text(xs[i], deep, jsonFormat), Comma(i + 1 == |xs|),
                ItemsText(xs[i + 1..], deep, jsonFormat));
        i := i + 1;
      }
      assert xs[i..] == [];
      NoneLeft(text, deep, jsonFormat);
      PrintIndent(indent, true);
      Put("]" + Comma(flags.last));
      Framed(old(text), lead, "[", ItemsText(xs, deep, jsonFormat), Spaces(indent), "]", Comma(flags.last));
    }

    /** `inspect_show_result`: without a format the trees are shown as one array. */
    method ShowResult(trees: seq<Json>, format: bool, jsonFormat: seq<bool>)
      requires format ==> |jsonFormat| == |trees|
      modifies this
      ensures !format ==> text == old(text) + ShowText(trees)
      ensures format && trees != [] ==> text == old(text) + FormattedText(trees, jsonFormat) + "\n"
      ensures format && trees == [] ==> text == old(text)
    {
      hide TopText, TreesText, FormattedText;
      if trees == [] {
        if !format {
          Put("[]\n");
        }
        return;
      }
      if !format {
        Put("[\n");
      }
      ghost var start := text;
      var i := 0;
      assert trees[0..] == trees && jsonFormat[0..] == jsonFormat;
      while i < |trees|
        invariant i <= |trees|
        invariant !format ==> text + TreesText(trees[i..]) == start + TreesText(trees)
        invariant format ==> text + FormattedText(trees[i..], jsonFormat[i..]) == start + FormattedText(trees, jsonFormat)
      {
        ghost var before := text;
        TreesAt(trees, i);
        if format {
          FormattedAt(trees, jsonFormat, i);
        }
        var indent := if format then 0 else PRINTF_TAB_LEN;
        PrintAux(trees[i], indent, Flags(true, true), if format then jsonFormat[i] else true);
        ghost var tree := TopText(trees[i], indent, if format then jsonFormat[i] else true);
        ghost var sep := if i + 1 == |trees| then "" else if format then "\n" else ",\n";
        assert tree + "" == tree;
        if i + 1 != |trees| {
          Put(if format then "\n" else ",\n");
        }
        assert text == before + tree + sep;
        OneTree(before, tree, sep, if format then FormattedText(trees[i + 1..], jsonFormat[i + 1..]) else TreesText(trees[i + 1..]));
        i := i + 1;
      }
      assert trees[i..] == [];
      NoTrees(text);
      Put(if format then "\n" else "\n]\n");
      Whole(old(text), TreesText(trees));
    }
  }

  lemma TopIs(j: Json, indent: nat, fmt: bool)
    ensures TopText(j, indent, fmt) == (if j.Obj? || j.Arr? then Spaces(indent) else "") + Text(j, indent, fmt)
    ensures !(j.Obj? || j.Arr?) ==> TopText(j, indent, fmt) == Text(j, indent, fmt)
    ensures "" + Text(j, indent, fmt) == Text(j, indent, fmt)
  {
  }

  lemma Empty(t: string, u: string)
    ensures t + "" == t && "" + u == u
  {
  }

  lemma Quoted(before: string, done: string, comma: string)
    ensures before + "\"" + done + "\"" + comma == before + (("\"" + done + "\"") + comma)
    ensures before + done + comma == before + (done + comma)
    ensures before + "\"" + done + "\"" == before + ("\"" + done + "\"")
    ensures before + ("\"" + done + "\"" + "") == before + ("\"" + done + "\"") && before + (done + "") == before + done
  {
  }

  lemma Lead(before: string, top: bool, s: string)
    ensures before + "" + s == before + s && before + "" == before
  {
  }

  lemma Grouped(before: string, lead: string, t: string, comma: string)
    ensures before + lead + (t + comma) == before + (lead + t + comma)
  {
  }

  lemma Framed(before: string, lead: string, open: string, body: string, s: string, close: string, comma: string)
    ensures before + lead + open + body + "\n" + s + (close + comma)
            == before + (lead + (open + body + "\n" + s + close) + comma)
  {
  }

  lemma OneMember(before: string, s: string, k: string, v: string, comma: string, more: string)
    ensures before + "\n" + s + ("\"" + k + "\": ") + (v + comma) + more
            == before + ("\n" + s + "\"" + k + "\": " + v + comma + more)
  {
  }

  lemma OneItem(before: string, s: string, v: string, comma: string, more: string)
    ensures before + "\n" + s + (v + comma) + more == before + ("\n" + s + v + comma + more)
  {
  }

  lemma OneTree(before: string, tree: string, sep: string, more: string)
    ensures before + tree + sep + more == before + (tree + sep + more)
    ensures before + tree + "" == before + tree
  {
  }

  lemma Whole(before: string, body: string)
    ensures before + "[\n" + body + "\n]\n" == before + ("[\n" + body + "\n]\n")
  {
  }

  lemma NoneLeft(t: string, indent: nat, fmt: bool)
    ensures t + MembersText([], indent, fmt) == t && t + ItemsText([], indent, fmt) == t
  {
  }

  lemma NoTrees(t: string)
    ensures t + TreesText([]) == t && t + FormattedText([], []) == t
  {
  }

  lemma MembersAt(ms: seq<Member>, i: nat, indent: nat, fmt: bool)
    requires i < |ms|
    ensures MembersText(ms[i..], indent, fmt) ==
            "\n" + Spaces(indent) + "\"" + CString(ms[i].key) + "\": " + Text(ms[i].value, indent, fmt)
            + Comma(i + 1 == |ms|) + MembersText(ms[i + 1..], indent, fmt)
  {
    hide Text, CString, Spaces;
    assert ms[i..][1..] == ms[i + 1..];
  }

  lemma ItemsAt(xs: seq<Json>, i: nat, indent: nat, fmt: bool)
    requires i < |xs|
    ensures ItemsText(xs[i..], indent, fmt) ==
            "\n" + Spaces(indent) + Text(xs[i], indent, fmt) + Comma(i + 1 == |xs|) + ItemsText(xs[i + 1..], indent, fmt)
  {
    hide Text, Spaces;
    assert xs[i..][1..] == xs[i + 1..];
  }

  lemma TreesAt(trees: seq<Json>, i: nat)
    requires i < |trees|
    ensures TreesText(trees[i..]) ==
            TopText(trees[i], PRINTF_TAB_LEN, true) + (if i + 1 == |trees| then "" else ",\n") + TreesText(trees[i + 1..])
  {
    hide TopText;
    assert trees[i..][1..] == trees[i + 1..];
  }

  lemma FormattedAt(trees: seq<Json>, jsonFormat: seq<bool>, i: nat)
    requires i < |trees| == |jsonFormat|
    ensures FormattedText(trees[i..], jsonFormat[i..]) ==
            TopText(trees[i], 0, jsonFormat[i]) + (if i + 1 == |trees| then "" else "\n")
            + FormattedText(trees[i + 1..], jsonFormat[i + 1..])
  {
    hide TopText;
    assert trees[i..][1..] == trees[i + 1..] && jsonFormat[i..][1..] == jsonFormat[i + 1..];
  }

  lemma CStringRest(s: string, i: nat)
    requires i <= |s|
    ensures Escaped(CString(s[i..])) ==
            if i == |s| || s[i] == NUL then "" else Escape(s[i]) + Escaped(CString(s[i + 1..]))
    ensures i == 0 ==> s[i..] == s
  {
    if i < |s| && s[i] != NUL {
      assert s[i..][1..] == s[i + 1..];
      var w := CString(s[i..]);
      assert w == [s[i]] + CString(s[i + 1..]);
      assert w[1..] == CString(s[i + 1..]);
    }
  }
}
