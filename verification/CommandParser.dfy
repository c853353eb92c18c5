/** `command_parser.c` as it runs: the argument window moves forward in place, and each
    option carries its `hasdata` mark. */
module CommandParser {
  import opened Common
  import opened CommandLine

  /** How a parsing function ends; the process exits on the last two. */
  datatype Verdict = Fine | Error | Unknown | Help

  function Ended(v: Verdict, rest: seq<string>, effects: seq<Effect>): Outcome
  {
    match v
    case Fine => Done(rest, effects)
    case Error => Failed(rest, effects)
    case Unknown => ExitUnknown(effects)
    case Help => ExitHelp(effects)
  }

  class Command {
    const options: seq<Opt>
    const callbacks: Callbacks
    const arguments: seq<string>
    const hasData: array<bool>
    var argv: nat                 // where the window starts
    var argc: nat                 // how long it is
    var effects: seq<Effect>

    /** The window always reaches to the end of the arguments. */
    ghost predicate Valid()
      reads this
    {
      argv + argc == |arguments| && hasData.Length == |options|
    }

    ghost function Window(): seq<string>
      requires Valid()
      reads this
    {
      arguments[argv..]
    }

    constructor (opts: seq<Opt>, cb: Callbacks, args: seq<string>)
      ensures Valid() && options == opts && callbacks == cb && Window() == args && effects == []
    {
      options := opts;
      callbacks := cb;
      arguments := args;
      hasData := new bool[|opts|];
      argv := 0;
      argc := |args|;
      effects := [];
    }

    method ReadOptionArg(j: nat, arg: Option<string>) returns (ok: bool, value: string, left: Option<string>)
      requires Valid() && j < |options| && argc > 0 && (hasData[j] ==> arg.Some?)
      modifies this`argv, this`argc, hasData
      ensures Valid()
      ensures old(hasData[j]) ==> ok && value == arg.value && left == None && argv == old(argv)
      ensures !old(hasData[j]) && old(argc) > 1 ==> ok && value == old(Window())[1] && left == arg && argv == old(argv) + 1
      ensures !old(hasData[j]) && old(argc) <= 1 ==> !ok && left == arg && argv == old(argv)
    {
      ok, value, left := true, "", arg;
      if hasData[j] {
        value := arg.value;
        left := None;
      }
      if !hasData[j] && argc > 1 {
        hasData[j] := true;
        argv := argv + 1;
        value := arguments[argv];
        argc := argc - 1;
      }
      if !hasData[j] {
        ok := false;
      }
    }

    method GetBoolOptionData(j: nat, arg: Option<string>) returns (ok: bool, left: Option<string>)
      requires Valid() && j < |options| && (hasData[j] ==> arg.Some?)
      modifies this`effects
      ensures Step(ok, left, Window(), effects) == FlagData(options[j], arg, hasData[j], Window(), old(effects))
    {
      var on := options[j].kind == Bool;
      ok, left := true, arg;
      if hasData[j] {
        var b := ParseBool(arg.value);
        if b.None? {
          return false, arg;
        }
        on := b.value;
        left := None;
      }
      effects := effects + [StoreBool(options[j].data, on)];
    }

    method GetOptionData(j: nat, arg: Option<string>) returns (ok: bool, left: Option<string>)
      requires Valid() && j < |options| && argc > 0 && (hasData[j] ==> arg.Some?)
      modifies this, hasData
      ensures Valid()
      ensures Step(ok, left, Window(), effects)
              == OptionData(options[j], arg, old(hasData[j]), old(Window()), old(effects), callbacks)
    {
      var o := options[j];
      if o.kind == Bool || o.kind == BoolFalse {
        ok, left := GetBoolOptionData(j, arg);
        return;
      }
      var value;
      ok, value, left := ReadOptionArg(j, arg);
      assert argv == old(argv) + 1 ==> Window() == old(Window())[1..];
      if !ok {
        return;
      }
      if o.kind == Callback {
        if !o.hasCallback {
          assert effects + [] == effects;
          return false, left;
        }
        effects := effects + [Call(o, value)];
        ok := callbacks(o, value);
      } else {
        ghost var before := effects;
        effects := effects + [StoreString(o.data, value)];
        if o.hasCallback {
          effects := effects + [Call(o, value)];
          assert effects == before + [StoreString(o.data, value), Call(o, value)];
          ok := callbacks(o, value);
        }
      }
    }

    /** One letter of a cluster. */
    method ParseOptions(arg: string) returns (ok: bool, found: bool, left: Option<string>)
      requires Valid() && argc > 0 && arg != ""
      modifies this, hasData
      ensures Valid()
      ensures !found <==> FindShort(options, arg[0]).None?
      ensures !found ==> ok && left == Some(arg) && Window() == old(Window()) && effects == old(effects)
      ensures found ==> Step(ok, left, Window(), effects)
                        == OptionData(FindShort(options, arg[0]).value, Behind(arg).0, Behind(arg).1, old(Window()),
                                      old(effects), callbacks)
    {
      ok, found, left := true, false, Some(arg);
      var j := 0;
      assert options[0..] == options;
      while j < |options|
        invariant 0 <= j <= |options| && Valid() && argc == old(argc) && effects == old(effects)
        invariant ok && !found && left == Some(arg)
        invariant FindShort(options[j..], arg[0]) == FindShort(options, arg[0])
      {
        hasData[j] := false;
        assert options[j..][0] == options[j] && options[j..][1..] == options[j + 1..];
        if options[j].small != Some(arg[0]) {
          j := j + 1;
          continue;
        }
        found := true;
        if |arg| > 1 {
          if arg[1] == '=' {
            left := Some(arg[2..]);
            hasData[j] := true;
          } else {
            left := Some(arg[1..]);
          }
        } else {
          left := None;
        }
        ok, left := GetOptionData(j, left);
        return;
      }
    }

    method ParseShortArg(arg: string) returns (v: Verdict)
      requires Valid() && argc > 0 && arg != ""
      modifies this, hasData
      ensures Valid() && Ended(v, Window(), effects) == ShortArg(options, arg, old(Window()), old(effects), callbacks)
      ensures v.Fine? || v.Error? ==> argc > 0
    {
      hide FindShort, OptionData;
      var found, left := true, Some(arg);
      while found && left.Some?
        invariant Valid() && argc > 0
        invariant found && left.Some? ==>
                    left.value != "" &&
                    ShortArg(options, left.value, Window(), effects, callbacks)
                    == ShortArg(options, arg, old(Window()), old(effects), callbacks)
        invariant found && left.None? ==>
                    Done(Window(), effects) == ShortArg(options, arg, old(Window()), old(effects), callbacks)
        invariant !found ==> left.Some? && ExitUnknown(effects) == ShortArg(options, arg, old(Window()), old(effects), callbacks)
        decreases if found && left.Some? then |left.value| + 1 else 0
      {
        var ok;
        ok, found, left := ParseOptions(left.value);
        if !ok {
          return Error;
        }
      }
      v := if left.Some? then Unknown else Fine;
    }

    method ParseLongArg(arg: string) returns (v: Verdict)
      requires Valid() && argc > 0
      modifies this, hasData
      ensures Valid() && Ended(v, Window(), effects) == LongArg(options, arg, old(Window()), old(effects), callbacks)
      ensures v.Fine? || v.Error? ==> argc > 0
    {
      hide OptionData;
      if arg == "help" {
        return Help;
      }
      var j := 0;
      assert options[0..] == options;
      while j < |options|
        invariant 0 <= j <= |options| && Valid() && argc == old(argc) && effects == old(effects)
        invariant FindLong(options[j..], arg) == FindLong(options, arg)
      {
        hasData[j] := false;
        assert options[j..][0] == options[j] && options[j..][1..] == options[j + 1..];
        var o := options[j];
        if o.large.None? || !(o.large.value <= arg) {
          j := j + 1;
          continue;
        }
        var n := |o.large.value|;
        var optArg := None;
        if n < |arg| {
          if arg[n] != '=' {
            j := j + 1;
            continue;
          }
          optArg := Some(arg[n + 1..]);
          hasData[j] := true;
        }
        var ok, left := GetOptionData(j, optArg);
        if !ok {
          return Error;
        }
        if o.large.value == "help" && ShowsHelp(o, effects) {
          return Help;
        }
        return Fine;
      }
      return Unknown;
    }

    /** `command_parse_args`; what is left is handed back unless nothing is. */
    method Parse() returns (v: Verdict, left: Option<seq<string>>)
      requires Valid()
      modifies this, hasData
      ensures Valid() && Ended(v, Window(), effects) == ParseArgs(options, old(Window()), old(effects), callbacks)
      ensures v.Fine? || v.Error? ==> left == if Window() == [] then None else Some(Window())
    {
      hide ShortArg, LongArg;
      left := None;
      v := Fine;
      while argc > 0
        invariant Valid() && v.Fine?
        invariant ParseArgs(options, Window(), effects, callbacks)
                  == ParseArgs(options, old(Window()), old(effects), callbacks)
        decreases argc
      {
        var arg := arguments[argv];
        assert arg == Window()[0];
        if |arg| == 0 || arg[0] != '-' || |arg| == 1 {
          break;
        }
        ghost var w, e := Window(), effects;
        if arg[1] != '-' {
          v := ParseShortArg(arg[1..]);
        } else if |arg| == 2 {
          assert arg == "--";
          argc := argc - 1;
          argv := argv + 1;
          assert Window() == w[1..];
          break;
        } else {
          v := ParseLongArg(arg[2..]);
        }
        if v != Fine {
          break;
        }
        ghost var w' := Window();
        argc := argc - 1;
        argv := argv + 1;
        assert Window() == w'[1..];
      }
      if argc > 0 {
        left := Some(arguments[argv..]);
      }
    }
  }
}
