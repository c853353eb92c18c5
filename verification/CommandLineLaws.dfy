/** What the command line parser promises its callers. */
module CommandLineLaws {
  import opened Common
  import opened CommandLine

  // ---------------------------------------------------------------- the argument window

  lemma OptionWindow(o: Opt, left: Option<string>, hasData: bool, rest: seq<string>, eff: seq<Effect>, cb: Callbacks)
    requires hasData ==> left.Some?
    ensures Suffix(OptionData(o, left, hasData, rest, eff, cb).rest, rest)
  {
    hide Stored, ParseBool;
  }

  lemma {:induction false} ShortWindow(t: seq<Opt>, s: string, rest: seq<string>, eff: seq<Effect>, cb: Callbacks)
    requires s != "" && rest != []
    ensures var r := ShortArg(t, s, rest, eff, cb); r.Done? || r.Failed? ==> Suffix(r.rest, rest)
    decreases |s|
  {
    hide FindShort, OptionData, Suffix;
    var f := FindShort(t, s[0]);
    if f.Some? {
      var (left, hasData) := Behind(s);
      var p := OptionData(f.value, left, hasData, rest, eff, cb);
      OptionWindow(f.value, left, hasData, rest, eff, cb);
      if p.ok && p.left.Some? {
        ShortWindow(t, p.left.value, p.rest, p.effects, cb);
        var r := ShortArg(t, p.left.value, p.rest, p.effects, cb);
        if r.Done? || r.Failed? {
          SuffixTrans(r.rest, p.rest, rest);
        }
      }
    }
  }

  lemma LongWindow(t: seq<Opt>, arg: string, rest: seq<string>, eff: seq<Effect>, cb: Callbacks)
    requires rest != []
    ensures var r := LongArg(t, arg, rest, eff, cb); r.Done? || r.Failed? ==> Suffix(r.rest, rest)
  {
    hide FindLong, OptionData, Suffix, ShowsHelp;
    var f := FindLong(t, arg);
    if f.Some? {
      var n := |f.value.large.value|;
      OptionWindow(f.value, if |arg| > n then Some(arg[n + 1..]) else None, |arg| > n, rest, eff, cb);
    }
  }

  /** What is handed back are the last arguments, untouched: nothing is read past the end,
      none is skipped, reordered or changed. */
  lemma {:induction false} ArgumentWindow(t: seq<Opt>, rest: seq<string>, eff: seq<Effect>, cb: Callbacks)
    ensures var r := ParseArgs(t, rest, eff, cb); r.Done? || r.Failed? ==> Suffix(r.rest, rest)
    decreases |rest|
  {
    hide ShortArg, LongArg;
    if rest != [] && IsOption(rest[0]) && rest[0] != "--" {
      var r := if rest[0][1] != '-' then ShortArg(t, rest[0][1..], rest, eff, cb)
               else LongArg(t, rest[0][2..], rest, eff, cb);
      if rest[0][1] != '-' {
        ShortWindow(t, rest[0][1..], rest, eff, cb);
      } else {
        LongWindow(t, rest[0][2..], rest, eff, cb);
      }
      if r.Done? {
        ArgumentWindow(t, r.rest[1..], r.effects, cb);
        var q := ParseArgs(t, r.rest[1..], r.effects, cb);
        if q.Done? || q.Failed? {
          SuffixTrans(r.rest[1..], r.rest, rest);
          SuffixTrans(q.rest, r.rest[1..], rest);
        }
      }
    }
  }

  // ---------------------------------------------------------------- which option a name means

  /** A long argument's name: what comes before its first equals sign. */
  function NameOf(arg: string): (n: string)
    ensures n <= arg && '=' !in n
    ensures |n| < |arg| ==> arg[|n|] == '='
  {
    if arg == "" || arg[0] == '=' then "" else [arg[0]] + NameOf(arg[1..])
  }

  /** Names are non-empty, free of equals signs and distinct. */
  ghost predicate GoodNames(t: seq<Opt>)
  {
    && (forall i :: 0 <= i < |t| && t[i].large.Some? ==> t[i].large.value != "" && '=' !in t[i].large.value)
    && (forall i, j :: 0 <= i < j < |t| && t[i].large.Some? ==> t[i].large != t[j].large)
  }

  ghost predicate GoodLetters(t: seq<Opt>)
  {
    forall i, j :: 0 <= i < j < |t| && t[i].small.Some? ==> t[i].small != t[j].small
  }

  lemma NamesIsName(o: Opt, arg: string)
    requires o.large.Some? && '=' !in o.large.value
    ensures Names(o, arg) <==> o.large.value == NameOf(arg)
  {
    hide NameOf;
    var l, n := o.large.value, NameOf(arg);
    if Names(o, arg) {
      assert l == arg[..|l|] && n == arg[..|n|];
    }
  }

  /** In such a table an argument means the one option that has its name. */
  lemma FindLongIs(t: seq<Opt>, arg: string, o: Opt)
    requires GoodNames(t) && o in t
    ensures FindLong(t, arg) == Some(o) <==> o.large == Some(NameOf(arg))
  {
    hide FindLong, NameOf;
    var r := FindLong(t, arg);
    if o.large.Some? {
      NamesIsName(o, arg);
    }
    if r.Some? {
      NamesIsName(r.value, arg);
      if o.large == Some(NameOf(arg)) {
        assert r.value.large == o.large;
        OneName(t, r.value, o);
      }
    }
  }

  lemma OneName(t: seq<Opt>, a: Opt, b: Opt)
    requires GoodNames(t) && a in t && b in t && a.large.Some? && a.large == b.large
    ensures a == b
  {
    var i :| 0 <= i < |t| && t[i] == a;
    var j :| 0 <= j < |t| && t[j] == b;
  }

  lemma OneLetter(t: seq<Opt>, a: Opt, b: Opt)
    requires GoodLetters(t) && a in t && b in t && a.small.Some? && a.small == b.small
    ensures a == b
  {
    var i :| 0 <= i < |t| && t[i] == a;
    var j :| 0 <= j < |t| && t[j] == b;
  }

  /** Where names or letters are shared, the option that comes first in the table is taken. */
  lemma {:induction false} FirstOneWins(t: seq<Opt>, c: char, arg: string)
    ensures FindShort(t, c).Some? ==>
              exists i :: 0 <= i < |t| && t[i] == FindShort(t, c).value && forall j :: 0 <= j < i ==> t[j].small != Some(c)
    ensures FindLong(t, arg).Some? ==>
              exists i :: 0 <= i < |t| && t[i] == FindLong(t, arg).value && forall j :: 0 <= j < i ==> !Names(t[j], arg)
  {
    if t != [] {
      FirstOneWins(t[1..], c, arg);
      if FindShort(t[1..], c).Some? && t[0].small != Some(c) {
        var i :| 0 <= i < |t[1..]| && t[1..][i] == FindShort(t[1..], c).value
                 && forall j :: 0 <= j < i ==> t[1..][j].small != Some(c);
        assert forall j :: 0 < j < i + 1 ==> t[j] == t[1..][j - 1];
        assert t[i + 1] == FindShort(t, c).value;
      }
      if FindLong(t[1..], arg).Some? && !Names(t[0], arg) {
        var i :| 0 <= i < |t[1..]| && t[1..][i] == FindLong(t[1..], arg).value
                 && forall j :: 0 <= j < i ==> !Names(t[1..][j], arg);
        assert forall j :: 0 < j < i + 1 ==> t[j] == t[1..][j - 1];
        assert t[i + 1] == FindLong(t, arg).value;
      }
    }
  }

  ghost predicate SameOptions(t: seq<Opt>, u: seq<Opt>)
  {
    forall o :: o in t <==> o in u
  }

  lemma LongLookup(t: seq<Opt>, u: seq<Opt>, arg: string)
    requires GoodNames(t) && GoodNames(u) && SameOptions(t, u)
    ensures FindLong(t, arg) == FindLong(u, arg)
  {
    hide FindLong, Names, GoodNames;
    var a, b := FindLong(t, arg), FindLong(u, arg);
    if a.Some? {
      FindLongIs(t, arg, a.value);
      FindLongIs(u, arg, a.value);
    }
  }

  lemma ShortLookup(t: seq<Opt>, u: seq<Opt>, c: char)
    requires GoodLetters(t) && GoodLetters(u) && SameOptions(t, u)
    ensures FindShort(t, c) == FindShort(u, c)
  {
    hide FindShort, GoodLetters;
    var a, b := FindShort(t, c), FindShort(u, c);
    if a.Some? && b.Some? {
      OneLetter(t, a.value, b.value);
    }
  }

  lemma {:induction false} ShortOrder(t: seq<Opt>, u: seq<Opt>, s: string, rest: seq<string>, eff: seq<Effect>, cb: Callbacks)
    requires GoodLetters(t) && GoodLetters(u) && SameOptions(t, u) && s != "" && rest != []
    ensures ShortArg(t, s, rest, eff, cb) == ShortArg(u, s, rest, eff, cb)
    decreases |s|
  {
    hide FindShort, OptionData, GoodLetters, SameOptions;
    ShortLookup(t, u, s[0]);
    var f := FindShort(t, s[0]);
    if f.Some? {
      var (left, hasData) := Behind(s);
      var p := OptionData(f.value, left, hasData, rest, eff, cb);
      if p.ok && p.left.Some? {
        ShortOrder(t, u, p.left.value, p.rest, p.effects, cb);
      }
    }
  }

  lemma LongOrder(t: seq<Opt>, u: seq<Opt>, arg: string, rest: seq<string>, eff: seq<Effect>, cb: Callbacks)
    requires GoodNames(t) && GoodNames(u) && SameOptions(t, u) && rest != []
    ensures LongArg(t, arg, rest, eff, cb) == LongArg(u, arg, rest, eff, cb)
  {
    hide FindLong, OptionData, GoodNames, SameOptions;
    LongLookup(t, u, arg);
  }

  /** For every list of arguments the outcome depends on which options the table has, not on
      the order they are in. */
  lemma {:induction false} TableOrder(t: seq<Opt>, u: seq<Opt>, rest: seq<string>, eff: seq<Effect>, cb: Callbacks)
    requires GoodNames(t) && GoodLetters(t) && GoodNames(u) && GoodLetters(u) && SameOptions(t, u)
    ensures ParseArgs(t, rest, eff, cb) == ParseArgs(u, rest, eff, cb)
    decreases |rest|
  {
    hide ShortArg, LongArg, GoodNames, GoodLetters, SameOptions;
    if rest != [] && IsOption(rest[0]) && rest[0] != "--" {
      var r;
      if rest[0][1] != '-' {
        ShortOrder(t, u, rest[0][1..], rest, eff, cb);
        r := ShortArg(t, rest[0][1..], rest, eff, cb);
      } else {
        LongOrder(t, u, rest[0][2..], rest, eff, cb);
        r := LongArg(t, rest[0][2..], rest, eff, cb);
      }
      if r.Done? {
        TableOrder(t, u, r.rest[1..], r.effects, cb);
      }
    }
  }

  // ---------------------------------------------------------------- settings and how they are written

  const TRUE_WORDS: set<string> := {"1", "t", "T", "true", "TRUE", "True"}
  const FALSE_WORDS: set<string> := {"0", "f", "F", "false", "FALSE", "False"}

  datatype Form =
    | Bare                      // the option alone
    | Word(word: string)        // a flag, with =word
    | Joined(value: string)     // =value
    | Separate(value: string)   // the value as the next argument

  /** A setting a user wants to make: an option by its letter or by its name. */
  datatype Setting = Setting(opt: Opt, short: bool, form: Form)

  /** The option is in the table, and what names it names no other. */
  ghost predicate Nameable(t: seq<Opt>, x: Setting)
  {
    && x.opt in t
    && (x.short ==> GoodLetters(t) && x.opt.small.Some? && x.opt.small.value != '-')
    && (!x.short ==> GoodNames(t) && x.opt.large.Some? && x.opt.large.value != "help")
    && (x.form.Bare? || x.form.Word? <==> x.opt.IsFlag())
  }

  /** Whether the option takes the value; with a callback the callback decides. */
  predicate Accepted(x: Setting, cb: Callbacks)
  {
    match x.form
    case Bare => true
    case Word(w) => w in TRUE_WORDS || w in FALSE_WORDS
    case Joined(v) => if x.opt.hasCallback then cb(x.opt, v) else !x.opt.kind.Callback?
    case Separate(v) => if x.opt.hasCallback then cb(x.opt, v) else !x.opt.kind.Callback?
  }

  function Name(x: Setting): string
    requires if x.short then x.opt.small.Some? else x.opt.large.Some?
  {
    if x.short then ['-', x.opt.small.value] else "--" + x.opt.large.value
  }

  function Attached(x: Setting): string
  {
    match x.form
    case Word(w) => "=" + w
    case Joined(v) => "=" + v
    case _ => ""
  }

  function Written(x: Setting): (r: seq<string>)
    requires if x.short then x.opt.small.Some? else x.opt.large.Some?
    ensures r != []
  {
    [Name(x) + Attached(x)] + if x.form.Separate? then [x.form.value] else []
  }

  /** What an option does with a value: it is stored in the variable, unless the option is only a
      callback, and then the callback is called with it. */
  function WithValue(o: Opt, v: string): seq<Effect>
  {
    (if o.kind.Callback? then [] else [StoreString(o.data, v)]) + (if o.hasCallback then [Call(o, v)] else [])
  }

  /** What the setting does, as far as it gets. */
  function Meant(x: Setting): seq<Effect>
  {
    match x.form
    case Bare => [StoreBool(x.opt.data, x.opt.kind.Bool?)]
    case Word(w) =>
      if w in TRUE_WORDS then [StoreBool(x.opt.data, true)]
      else if w in FALSE_WORDS then [StoreBool(x.opt.data, false)]
      else []
    case Joined(v) => WithValue(x.opt, v)
    case Separate(v) => WithValue(x.opt, v)
  }

  // -- one option

  lemma OptionDone(x: Setting, rest: seq<string>, eff: seq<Effect>, cb: Callbacks)
    requires (x.form.Bare? || x.form.Word? <==> x.opt.IsFlag()) && rest != []
    requires x.form.Separate? ==> |rest| > 1 && rest[1] == x.form.value
    ensures var tail := Attached(x);
            var p := OptionData(x.opt, if tail == "" then None else Some(tail[1..]), tail != "", rest, eff, cb);
            && p.ok == Accepted(x, cb)
            && p.effects == eff + Meant(x)
            && p.rest == (if x.form.Separate? then rest[1..] else rest)
            && (p.ok ==> p.left == None)
  {
    match x.form
    case Bare =>
    case Word(w) =>
      assert ("=" + w)[1..] == w && eff + [] == eff;
    case Joined(v) =>
      assert ("=" + v)[1..] == v;
      ValueMeant(x.opt, v, eff, cb);
    case Separate(v) =>
      ValueMeant(x.opt, v, eff, cb);
  }

  lemma ValueMeant(o: Opt, v: string, eff: seq<Effect>, cb: Callbacks)
    requires !o.IsFlag()
    ensures Stored(o, v, cb).0 == WithValue(o, v)
    ensures Stored(o, v, cb).1 == if o.hasCallback then cb(o, v) else !o.kind.Callback?
  {
    var store, call := [StoreString(o.data, v)], [Call(o, v)];
    assert store + call == [StoreString(o.data, v), Call(o, v)] && [] + call == call && store + [] == store;
  }

  lemma {:induction false} NameOfPlain(n: string, t: string)
    requires '=' !in n && (t == "" || t[0] == '=')
    ensures NameOf(n + t) == n
  {
    if n == "" {
      assert n + t == t;
    } else {
      assert (n + t)[1..] == n[1..] + t;
      NameOfPlain(n[1..], t);
    }
  }

  lemma LongDone(t: seq<Opt>, o: Opt, tail: string, rest: seq<string>, eff: seq<Effect>, cb: Callbacks)
    requires GoodNames(t) && o in t && o.large.Some? && o.large.value != "help" && rest != []
    requires tail == "" || tail[0] == '='
    ensures var p := OptionData(o, if tail == "" then None else Some(tail[1..]), tail != "", rest, eff, cb);
            LongArg(t, o.large.value + tail, rest, eff, cb)
            == if p.ok then Done(p.rest, p.effects) else Failed(p.rest, p.effects)
  {
    hide FindLong, OptionData, NameOf;
    var n := o.large.value;
    var arg := n + tail;
    assert exists i :: 0 <= i < |t| && t[i] == o;
    NameOfPlain(n, tail);
    FindLongIs(t, arg, o);
    NotHelp(n, tail);
    if tail != "" {
      assert arg[|n| + 1..] == tail[1..];
    }
  }

  lemma ShortDone(t: seq<Opt>, o: Opt, tail: string, rest: seq<string>, eff: seq<Effect>, cb: Callbacks)
    requires GoodLetters(t) && o in t && o.small.Some? && rest != []
    requires tail == "" || tail[0] == '='
    ensures var p := OptionData(o, if tail == "" then None else Some(tail[1..]), tail != "", rest, eff, cb);
            p.ok ==> p.left == None
    ensures var p := OptionData(o, if tail == "" then None else Some(tail[1..]), tail != "", rest, eff, cb);
            ShortArg(t, [o.small.value] + tail, rest, eff, cb)
            == if p.ok then Done(p.rest, p.effects) else Failed(p.rest, p.effects)
  {
    hide FindShort, OptionData;
    var s := [o.small.value] + tail;
    var f := FindShort(t, s[0]);
    assert f.Some?;
    OneLetter(t, f.value, o);
    if tail == "" {
      assert |s| == 1;
    } else {
      assert s[1] == '=' && s[2..] == tail[1..];
    }
  }

  lemma NotHelp(n: string, tail: string)
    requires n != "help" && '=' !in n && (tail == "" || tail[0] == '=')
    ensures n + tail != "help"
  {
    if tail == "" {
      assert n + tail == n;
    } else {
      assert (n + tail)[|n|] == '=';
      assert forall i :: 0 <= i < 4 ==> "help"[i] != '=';
    }
  }

  /** The argument that carries a setting, by name or by letter. */
  lemma ArgDone(t: seq<Opt>, x: Setting, rest: seq<string>, eff: seq<Effect>, cb: Callbacks)
    requires Nameable(t, x) && rest != [] && rest[0] == Name(x) + Attached(x)
    ensures var p := OptionData(x.opt, if Attached(x) == "" then None else Some(Attached(x)[1..]), Attached(x) != "", rest, eff, cb);
            && (p.rest != [])
            && ParseArgs(t, rest, eff, cb)
               == if p.ok then ParseArgs(t, p.rest[1..], p.effects, cb) else Failed(p.rest, p.effects)
  {
    hide LongArg, ShortArg, OptionData, GoodNames, GoodLetters;
    var tail := Attached(x);
    if x.short {
      LetterShape(x.opt.small.value, tail);
      ShortDone(t, x.opt, tail, rest, eff, cb);
    } else {
      NameNotEmpty(t, x.opt);
      ArgShape(x.opt.large.value, tail);
      LongDone(t, x.opt, tail, rest, eff, cb);
    }
  }

  lemma NameNotEmpty(t: seq<Opt>, o: Opt)
    requires GoodNames(t) && o in t && o.large.Some?
    ensures o.large.value != ""
  {
  }

  lemma ArgShape(name: string, suffix: string)
    requires name != ""
    ensures var arg := "--" + name + suffix;
            IsOption(arg) && arg != "--" && arg[1] == '-' && arg[2..] == name + suffix
  {
  }

  lemma LetterShape(c: char, suffix: string)
    requires c != '-'
    ensures var arg := ['-', c] + suffix;
            IsOption(arg) && arg != "--" && arg[1] != '-' && arg[1..] == [c] + suffix
  {
    var arg := ['-', c] + suffix;
    assert arg[1] == c && "--"[1] == '-';
    assert arg[1..] == [c] + suffix;
  }

  /** One setting, whatever follows it: it does what is meant, and parsing goes on behind it, or fails
      there exactly if the setting is not accepted. */
  lemma OneSetting(t: seq<Opt>, x: Setting, tail: seq<string>, eff: seq<Effect>, cb: Callbacks)
    requires Nameable(t, x)
    ensures Accepted(x, cb) ==> ParseArgs(t, Written(x) + tail, eff, cb) == ParseArgs(t, tail, eff + Meant(x), cb)
    ensures !Accepted(x, cb) ==>
              ParseArgs(t, Written(x) + tail, eff, cb)
              == Failed((if x.form.Separate? then [x.form.value] else Written(x)) + tail, eff + Meant(x))
  {
    hide ParseArgs, OptionData, Nameable, Meant, Accepted, Name, Attached;
    Shape(t, x);
    var rest := Written(x) + tail;
    assert x.form.Separate? ==> rest[1] == x.form.value && rest[1..] == [x.form.value] + tail && rest[1..][1..] == tail;
    assert !x.form.Separate? ==> rest[1..] == tail;
    ArgDone(t, x, rest, eff, cb);
    OptionDone(x, rest, eff, cb);
  }

  lemma Shape(t: seq<Opt>, x: Setting)
    requires Nameable(t, x)
    ensures if x.short then x.opt.small.Some? else x.opt.large.Some?
    ensures x.form.Bare? || x.form.Word? <==> x.opt.IsFlag()
  {
  }

  // -- any list of settings

  ghost predicate AllWritable(t: seq<Opt>, xs: seq<Setting>, cb: Callbacks)
  {
    forall i :: 0 <= i < |xs| ==> Nameable(t, xs[i]) && Accepted(xs[i], cb)
  }

  function WrittenAll(xs: seq<Setting>): seq<string>
    requires forall i :: 0 <= i < |xs| ==> if xs[i].short then xs[i].opt.small.Some? else xs[i].opt.large.Some?
  {
    if xs == [] then [] else Written(xs[0]) + WrittenAll(xs[1..])
  }

  function MeantAll(xs: seq<Setting>): seq<Effect>
  {
    if xs == [] then [] else Meant(xs[0]) + MeantAll(xs[1..])
  }

  /** Any list of settings, written out and parsed, makes exactly those settings in order,
      and goes on with whatever follows. */
  lemma {:induction false} SettingsRoundTrip(t: seq<Opt>, xs: seq<Setting>, tail: seq<string>, eff: seq<Effect>, cb: Callbacks)
    requires AllWritable(t, xs, cb)
    ensures ParseArgs(t, WrittenAll(xs) + tail, eff, cb) == ParseArgs(t, tail, eff + MeantAll(xs), cb)
    decreases |xs|
  {
    hide ParseArgs, Written, Meant, Accepted, GoodNames, GoodLetters;
    if xs == [] {
      assert WrittenAll(xs) + tail == tail && eff + MeantAll(xs) == eff;
    } else {
      var more := WrittenAll(xs[1..]);
      assert WrittenAll(xs) + tail == Written(xs[0]) + (more + tail);
      OneSetting(t, xs[0], more + tail, eff, cb);
      SettingsRoundTrip(t, xs[1..], tail, eff + Meant(xs[0]), cb);
      assert eff + Meant(xs[0]) + MeantAll(xs[1..]) == eff + MeantAll(xs);
    }
  }

  /** In particular the trailing arguments come back untouched, be they set off by their
      form or by a double dash. */
  lemma TrailingUntouched(t: seq<Opt>, xs: seq<Setting>, tail: seq<string>, cb: Callbacks)
    requires AllWritable(t, xs, cb)
    ensures tail == [] || !IsOption(tail[0]) ==>
              ParseArgs(t, WrittenAll(xs) + tail, [], cb) == Done(tail, MeantAll(xs))
    ensures ParseArgs(t, WrittenAll(xs) + (["--"] + tail), [], cb) == Done(tail, MeantAll(xs))
  {
    hide Nameable, Accepted, Meant;
    SettingsRoundTrip(t, xs, tail, [], cb);
    SettingsRoundTrip(t, xs, ["--"] + tail, [], cb);
    assert [] + MeantAll(xs) == MeantAll(xs);
    assert (["--"] + tail)[1..] == tail;
  }

  // ---------------------------------------------------------------- what ends parsing

  /** The process exits for an argument no option of the table has a name or a letter for, and for help. */
  lemma ExitsAt(t: seq<Opt>, arg: string, tail: seq<string>, eff: seq<Effect>, cb: Callbacks)
    ensures "--" <= arg && |arg| > 2 && arg != "--help" && (forall o :: o in t ==> !Names(o, arg[2..])) ==>
              ParseArgs(t, [arg] + tail, eff, cb) == ExitUnknown(eff)
    ensures IsOption(arg) && arg[1] != '-' && (forall o :: o in t ==> o.small != Some(arg[1])) ==>
              ParseArgs(t, [arg] + tail, eff, cb) == ExitUnknown(eff)
    ensures arg == "--help" ==> ParseArgs(t, [arg] + tail, eff, cb) == ExitHelp(eff)
  {
    hide FindLong, FindShort, Names;
    var rest := [arg] + tail;
    if arg == "--help" {
      assert arg[2..] == "help";
    } else if "--" <= arg && |arg| > 2 {
      assert arg[2..] != "help" by {
        assert arg == "--" + arg[2..];
      }
    }
  }

  /** An option that needs a value and is the last argument fails, and nothing is done. */
  lemma ValueMissing(t: seq<Opt>, x: Setting, eff: seq<Effect>, cb: Callbacks)
    requires Nameable(t, x) && x.form.Separate?
    ensures ParseArgs(t, [Name(x)], eff, cb) == Failed([Name(x)], eff)
  {
    hide ParseArgs, GoodNames, GoodLetters;
    assert Name(x) + "" == Name(x);
    ArgDone(t, x, [Name(x)], eff, cb);
  }

  // ---------------------------------------------------------------- clusters of flags

  /** Every letter is a flag's, and none is read as punctuation. */
  ghost predicate FlagLetters(t: seq<Opt>, cs: string)
  {
    forall i :: 0 <= i < |cs| ==>
      cs[i] != '-' && cs[i] != '=' && FindShort(t, cs[i]).Some? && FindShort(t, cs[i]).value.IsFlag()
  }

  function Singles(cs: string): seq<string>
  {
    if cs == "" then [] else [['-', cs[0]]] + Singles(cs[1..])
  }

  function FlagEffect(t: seq<Opt>, c: char): seq<Effect>
  {
    match FindShort(t, c)
    case Some(o) => [StoreBool(o.data, o.kind.Bool?)]
    case None => []
  }

  function FlagEffects(t: seq<Opt>, cs: string): seq<Effect>
  {
    if cs == "" then [] else FlagEffect(t, cs[0]) + FlagEffects(t, cs[1..])
  }

  lemma {:induction false} ClusterDone(t: seq<Opt>, cs: string, rest: seq<string>, eff: seq<Effect>, cb: Callbacks)
    requires cs != "" && FlagLetters(t, cs) && rest != []
    ensures ShortArg(t, cs, rest, eff, cb) == Done(rest, eff + FlagEffects(t, cs))
    decreases |cs|
  {
    hide FindShort;
    var e := FlagEffect(t, cs[0]);
    if |cs| == 1 {
      assert FlagEffects(t, cs) == e + [] == e;
    } else {
      ClusterDone(t, cs[1..], rest, eff + e, cb);
      assert eff + e + FlagEffects(t, cs[1..]) == eff + FlagEffects(t, cs);
    }
  }

  /** Flags in front of any other option of a cluster do the same. */
  lemma {:induction false} FlagsFirst(t: seq<Opt>, cs: string, s: string, rest: seq<string>, eff: seq<Effect>, cb: Callbacks)
    requires FlagLetters(t, cs) && s != "" && s[0] != '=' && rest != []
    ensures ShortArg(t, cs + s, rest, eff, cb) == ShortArg(t, s, rest, eff + FlagEffects(t, cs), cb)
    decreases |cs|
  {
    hide FindShort;
    if cs == "" {
      assert cs + s == s && eff + FlagEffects(t, cs) == eff;
    } else {
      var e, more := FlagEffect(t, cs[0]), cs[1..] + s;
      assert (cs + s)[0] == cs[0] && (cs + s)[1..] == more && more[0] != '=';
      FlagsFirst(t, cs[1..], s, rest, eff + e, cb);
      assert eff + e + FlagEffects(t, cs[1..]) == eff + FlagEffects(t, cs);
    }
  }

  /** An option with a value inside a cluster takes the next argument as its value, and the letters behind
      it go on as options of their own. */
  lemma ValueInCluster(t: seq<Opt>, o: Opt, more: string, arg: string, v: string, tail: seq<string>, eff: seq<Effect>, cb: Callbacks)
    requires GoodLetters(t) && o in t && o.small.Some? && !o.IsFlag() && more != "" && more[0] != '='
    ensures var r := ShortArg(t, [o.small.value] + more, [arg, v] + tail, eff, cb);
            if Accepted(Setting(o, true, Separate(v)), cb)
            then r == ShortArg(t, more, [v] + tail, eff + WithValue(o, v), cb)
            else r == Failed([v] + tail, eff + WithValue(o, v))
  {
    hide FindShort;
    var s := [o.small.value] + more;
    var f := FindShort(t, s[0]);
    assert f.Some?;
    OneLetter(t, f.value, o);
    assert s[1] == more[0] && s[1..] == more;
    var rest := [arg, v] + tail;
    assert rest[1] == v && rest[1..] == [v] + tail;
    ValueMeant(o, v, eff, cb);
  }

  lemma OneCluster(t: seq<Opt>, cs: string, tail: seq<string>, eff: seq<Effect>, cb: Callbacks)
    requires cs != "" && FlagLetters(t, cs)
    ensures ParseArgs(t, ["-" + cs] + tail, eff, cb) == ParseArgs(t, tail, eff + FlagEffects(t, cs), cb)
  {
    hide ShortArg, LongArg, FlagEffects, FindShort;
    var rest := ["-" + cs] + tail;
    ClusterDone(t, cs, rest, eff, cb);
    assert rest[0] == "-" + cs && rest[0][1..] == cs && rest[0][1] == cs[0];
    assert rest[1..] == tail;
  }

  lemma {:induction false} SinglesDone(t: seq<Opt>, cs: string, tail: seq<string>, eff: seq<Effect>, cb: Callbacks)
    requires FlagLetters(t, cs)
    ensures ParseArgs(t, Singles(cs) + tail, eff, cb) == ParseArgs(t, tail, eff + FlagEffects(t, cs), cb)
    decreases |cs|
  {
    hide ParseArgs, FindShort;
    if cs == "" {
      assert Singles(cs) + tail == tail && eff + [] == eff;
    } else {
      var c := [cs[0]];
      assert "-" + c == ['-', cs[0]];
      assert Singles(cs) + tail == ["-" + c] + (Singles(cs[1..]) + tail);
      OneCluster(t, c, Singles(cs[1..]) + tail, eff, cb);
      assert c[1..] == "" && FlagEffects(t, c) == FlagEffect(t, cs[0]) + [] == FlagEffect(t, cs[0]);
      SinglesDone(t, cs[1..], tail, eff + FlagEffect(t, cs[0]), cb);
      assert eff + FlagEffect(t, cs[0]) + FlagEffects(t, cs[1..]) == eff + FlagEffects(t, cs);
    }
  }

  /** A cluster of flags does what the same flags do one by one. */
  lemma ClusterIsSingles(t: seq<Opt>, cs: string, tail: seq<string>, eff: seq<Effect>, cb: Callbacks)
    requires cs != "" && FlagLetters(t, cs)
    ensures ParseArgs(t, ["-" + cs] + tail, eff, cb) == ParseArgs(t, Singles(cs) + tail, eff, cb)
  {
    hide ParseArgs;
    OneCluster(t, cs, tail, eff, cb);
    SinglesDone(t, cs, tail, eff, cb);
  }
}
