/** JSON trees, the text `isula inspect` prints for them (as functions), and a reader that
    follows sections 2 to 7 of RFC 8259. */
module JsonText {

  datatype Json =
    | Null
    | True
    | False
    | Number(digits: string)
    | Str(text: string)
    | Arr(items: seq<Json>)
    | Obj(members: seq<Member>)

  datatype Member = Member(key: string, value: Json)

  const NUL := '\0'
  const PRINTF_TAB_LEN: nat := 4

  // ---------------------------------------------------------------- what is printed

  /** A buffer as C reads it: up to the first NUL. */
  function CString(s: string): (r: string)
    ensures NUL !in r && r <= s
    ensures NUL !in s ==> r == s
  {
    if s == "" || s[0] == NUL then "" else [s[0]] + CString(s[1..])
  }

  function HexDigit(n: nat): char
    requires n < 16
  {
    "0123456789ABCDEF"[n]
  }

  function Escape(c: char): string
  {
    if c == '\r' then "\\r"
    else if c == '\n' then "\\n"
    else if c == '\\' then "\\\\"
    else if c == '"' then "\\\""
    else if c == 12 as char then "\\f"
    else if c == 8 as char then "\\b"
    else if c == '\t' then "\\t"
    else if c as int < 0x20 then "\\u00" + [HexDigit(c as int / 16), HexDigit(c as int % 16)]
    else [c]
  }

  function Escaped(s: string): string
  {
    if s == "" then "" else Escape(s[0]) + Escaped(s[1..])
  }

  function Spaces(n: nat): (s: string)
    ensures |s| == n && forall i :: 0 <= i < n ==> s[i] == ' '
  {
    seq(n, _ => ' ')
  }

  function StringText(s: string, fmt: bool): string
  {
    if fmt then "\"" + Escaped(CString(s)) + "\"" else Escaped(CString(s))
  }

  function Text(j: Json, indent: nat, fmt: bool): string
    decreases j
  {
    match j
    case Null => "null"
    case True => "true"
    case False => "false"
    case Number(n) => CString(n)
    case Str(s) => StringText(s, fmt)
    case Arr(xs) =>
      if xs == [] then "[]"
      else "[" + ItemsText(xs, indent + PRINTF_TAB_LEN, fmt) + "\n" + Spaces(indent) + "]"
    case Obj(ms) =>
      if ms == [] then "{}"
      else "{" + MembersText(ms, indent + PRINTF_TAB_LEN, fmt) + "\n" + Spaces(indent) + "}"
  }

  function ItemsText(xs: seq<Json>, indent: nat, fmt: bool): string
    decreases xs
  {
    if xs == [] then ""
    else "\n" + Spaces(indent) + Text(xs[0], indent, fmt) + Comma(|xs| == 1) + ItemsText(xs[1..], indent, fmt)
  }

  function MembersText(ms: seq<Member>, indent: nat, fmt: bool): string
    decreases ms
  {
    if ms == [] then ""
    else ("\n" + Spaces(indent) + "\"" + CString(ms[0].key) + "\": " + Text(ms[0].value, indent, fmt)
          + Comma(|ms| == 1) + MembersText(ms[1..], indent, fmt))
  }

  function Comma(last: bool): string
  {
    if last then "" else ","
  }

  /** A tree at the top level: objects and arrays are indented, scalars are not. */
  function TopText(j: Json, indent: nat, fmt: bool): string
  {
    (if j.Obj? || j.Arr? then Spaces(indent) else "") + Text(j, indent, fmt)
  }

  /** `inspect_show_result` without a `--format`. */
  function ShowText(trees: seq<Json>): string
  {
    if trees == [] then "[]\n" else "[\n" + TreesText(trees) + "\n]\n"
  }

  function TreesText(trees: seq<Json>): string
  {
    if trees == [] then ""
    else (TopText(trees[0], PRINTF_TAB_LEN, true)
          + (if |trees| == 1 then "" else ",\n") + TreesText(trees[1..]))
  }

  /** `inspect_show_result` with a format: the trees one after the other. */
  function FormattedText(trees: seq<Json>, jsonFormat: seq<bool>): string
    requires |trees| == |jsonFormat|
  {
    if trees == [] then ""
    else TopText(trees[0], 0, jsonFormat[0]) + (if |trees| == 1 then "" else "\n")
         + FormattedText(trees[1..], jsonFormat[1..])
  }

  // ---------------------------------------------------------------- the reader

  datatype Parsed<T> = Fail | Read(value: T, rest: string)

  predicate IsWs(c: char)
  {
    c == ' ' || c == '\t' || c == '\n' || c == '\r'
  }

  function SkipWs(s: string): (r: string)
    ensures |r| <= |s| && (r != "" ==> !IsWs(r[0]))
  {
    if s != "" && IsWs(s[0]) then SkipWs(s[1..]) else s
  }

  predicate IsDigit(c: char) { '0' <= c <= '9' }

  function HexValue(c: char): (v: int)
    ensures -1 <= v < 16
  {
    if '0' <= c <= '9' then c as int - '0' as int
    else if 'A' <= c <= 'F' then c as int - 'A' as int + 10
    else if 'a' <= c <= 'f' then c as int - 'a' as int + 10
    else -1
  }

  /** The escape that follows a backslash. */
  function ReadEscape(s: string): (r: Parsed<char>)
    ensures r.Read? ==> |r.rest| < |s| && r.rest == s[|s| - |r.rest|..]
  {
    if s == "" then Fail
    else if s[0] in "\"\\/" then Read(s[0], s[1..])
    else if s[0] == 'b' then Read(8 as char, s[1..])
    else if s[0] == 'f' then Read(12 as char, s[1..])
    else if s[0] == 'n' then Read('\n', s[1..])
    else if s[0] == 'r' then Read('\r', s[1..])
    else if s[0] == 't' then Read('\t', s[1..])
    else if s[0] == 'u' && |s| >= 5 && (forall i :: 1 <= i < 5 ==> HexValue(s[i]) >= 0) then
      var v := ((HexValue(s[1]) * 16 + HexValue(s[2])) * 16 + HexValue(s[3])) * 16 + HexValue(s[4]);
      if 0xD800 <= v < 0xE000 then Fail else Read(v as char, s[5..])
    else Fail
  }

  /** A string, behind its opening quotation mark. */
  function ReadString(s: string): (r: Parsed<string>)
    ensures r.Read? ==> |r.rest| < |s|
    decreases |s|
  {
    if s == "" || s[0] as int < 0x20 then Fail
    else if s[0] == '"' then Read("", s[1..])
    else if s[0] == '\\' then
      match ReadEscape(s[1..])
      case Fail => Fail
      case Read(c, rest) => Prepend(c, ReadString(rest))
    else Prepend(s[0], ReadString(s[1..]))
  }

  function Prepend(c: char, p: Parsed<string>): Parsed<string>
  {
    match p
    case Fail => Fail
    case Read(t, rest) => Read([c] + t, rest)
  }

  function DigitsLen(s: string): (n: nat)
    ensures n <= |s|
  {
    if s != "" && IsDigit(s[0]) then 1 + DigitsLen(s[1..]) else 0
  }

  function IntLen(s: string): (n: nat)
    ensures n <= |s|
  {
    var sign := if s != "" && s[0] == '-' then 1 else 0;
    var d := DigitsLen(s[sign..]);
    if d == 0 then 0 else if s[sign] == '0' then sign + 1 else sign + d
  }

  function FracLen(s: string): (n: nat)
    ensures n <= |s|
  {
    if s != "" && s[0] == '.' && DigitsLen(s[1..]) > 0 then 1 + DigitsLen(s[1..]) else 0
  }

  function ExpLen(s: string): (n: nat)
    ensures n <= |s|
  {
    if s == "" || (s[0] != 'e' && s[0] != 'E') then 0
    else
      var sign := if |s| > 1 && (s[1] == '+' || s[1] == '-') then 2 else 1;
      var d := DigitsLen(s[sign..]);
      if d == 0 then 0 else sign + d
  }

  /** The length of the longest number at the front (section 6), 0 when there is none. */
  function NumberLen(s: string): (n: nat)
    ensures n <= |s|
  {
    var i := IntLen(s);
    if i == 0 then 0
    else
      var f := FracLen(s[i..]);
      i + f + ExpLen(s[i + f..])
  }

  /** A value (section 3), at its first character. */
  function ReadValue(s: string): (r: Parsed<Json>)
    ensures r.Read? ==> |r.rest| < |s|
    decreases |s|, 0
  {
    if s == "" then Fail
    else if s[0] == '{' then
      var t := SkipWs(s[1..]);
      if t != "" && t[0] == '}' then Read(Obj([]), t[1..])
      else
        match ReadMembers(t)
        case Fail => Fail
        case Read(ms, rest) => Read(Obj(ms), rest)
    else if s[0] == '[' then
      var t := SkipWs(s[1..]);
      if t != "" && t[0] == ']' then Read(Arr([]), t[1..])
      else
        match ReadItems(t)
        case Fail => Fail
        case Read(xs, rest) => Read(Arr(xs), rest)
    else if s[0] == '"' then
      match ReadString(s[1..])
      case Fail => Fail
      case Read(t, rest) => Read(Str(t), rest)
    else if "true" <= s then Read(True, s[4..])
    else if "false" <= s then Read(False, s[5..])
    else if "null" <= s then Read(Null, s[4..])
    else if NumberLen(s) > 0 then Read(Number(s[..NumberLen(s)]), s[NumberLen(s)..])
    else Fail
  }

  /** One or more elements and the closing bracket (section 5). */
  function ReadItems(s: string): (r: Parsed<seq<Json>>)
    ensures r.Read? ==> |r.rest| < |s|
    decreases |s|, 1
  {
    match ReadValue(s)
    case Fail => Fail
    case Read(v, rest) => MoreItems(v, SkipWs(rest), |s|)
  }

  function MoreItems(v: Json, t: string, bound: nat): (r: Parsed<seq<Json>>)
    requires |t| < bound
    ensures r.Read? ==> |r.rest| < |t|
    decreases bound, 0
  {
    if t == "" then Fail
    else if t[0] == ']' then Read([v], t[1..])
    else if t[0] == ',' then
      match ReadItems(SkipWs(t[1..]))
      case Fail => Fail
      case Read(vs, rest) => Read([v] + vs, rest)
    else Fail
  }

  /** A name, its colon and the position of its value (section 4). */
  function ReadName(s: string): (r: Parsed<string>)
    ensures r.Read? ==> |r.rest| < |s|
  {
    if s == "" || s[0] != '"' then Fail
    else
      match ReadString(s[1..])
      case Fail => Fail
      case Read(key, rest) =>
        var t := SkipWs(rest);
        if t == "" || t[0] != ':' then Fail else Read(key, SkipWs(t[1..]))
  }

  /** One or more members and the closing brace (section 4). */
  function ReadMembers(s: string): (r: Parsed<seq<Member>>)
    ensures r.Read? ==> |r.rest| < |s|
    decreases |s|, 1
  {
    match ReadName(s)
    case Fail => Fail
    case Read(key, u) =>
      match ReadValue(u)
      case Fail => Fail
      case Read(v, rest) => MoreMembers(Member(key, v), SkipWs(rest), |s|)
  }

  function MoreMembers(m: Member, t: string, bound: nat): (r: Parsed<seq<Member>>)
    requires |t| < bound
    ensures r.Read? ==> |r.rest| < |t|
    decreases bound, 0
  {
    if t == "" then Fail
    else if t[0] == '}' then Read([m], t[1..])
    else if t[0] == ',' then
      match ReadMembers(SkipWs(t[1..]))
      case Fail => Fail
      case Read(ms, rest) => Read([m] + ms, rest)
    else Fail
  }

  /** A JSON text (section 2): one value between whitespace. */
  function ReadText(s: string): (r: Parsed<Json>)
  {
    match ReadValue(SkipWs(s))
    case Fail => Fail
    case Read(v, rest) => if SkipWs(rest) == "" then Read(v, "") else Fail
  }
}
