/** The command line parser as a function: what it does with a list of arguments, for any
    table of options. */
module CommandLine {
  import opened Common

  datatype Kind = Bool | BoolFalse | String | StringDup | Callback

  /** `command_option_t`; `data` names the variable an option sets. */
  datatype Opt = Opt(kind: Kind, large: Option<string>, small: Option<char>, data: nat, hasCallback: bool)
  {
    predicate IsFlag() { kind.Bool? || kind.BoolFalse? }
  }

  /** What the parser does to the program's variables, in order. */
  datatype Effect =
    | StoreBool(data: nat, on: bool)
    | StoreString(data: nat, text: string)
    | Call(opt: Opt, text: string)

  /** Whether a callback takes a value; callbacks are the commands' own. */
  type Callbacks = (Opt, string) -> bool

  /** How parsing goes on or ends. `rest` is the argument window, `self->argv` of length
      `self->argc`; the process exits for help and for unknown flags. */
  datatype Outcome =
    | Done(rest: seq<string>, effects: seq<Effect>)
    | Failed(rest: seq<string>, effects: seq<Effect>)
    | ExitHelp(effects: seq<Effect>)
    | ExitUnknown(effects: seq<Effect>)

  // ---------------------------------------------------------------- one option

  /** An option in progress: the text left of its argument, and what happened so far. */
  datatype Step = Step(ok: bool, left: Option<string>, rest: seq<string>, effects: seq<Effect>)

  /** `util_str_to_bool` */
  function ParseBool(s: string): Option<bool>
  {
    if s in {"1", "t", "T", "true", "TRUE", "True"} then Some(true)
    else if s in {"0", "f", "F", "false", "FALSE", "False"} then Some(false)
    else None
  }

  function FlagData(o: Opt, left: Option<string>, hasData: bool, rest: seq<string>, eff: seq<Effect>): Step
    requires hasData ==> left.Some?
  {
    if !hasData then Step(true, left, rest, eff + [StoreBool(o.data, o.kind.Bool?)])
    else
      match ParseBool(left.value)
      case None => Step(false, left, rest, eff)
      case Some(b) => Step(true, None, rest, eff + [StoreBool(o.data, b)])
  }

  /** What storing a value does; the last part says whether it was accepted. */
  function Stored(o: Opt, value: string, cb: Callbacks): (seq<Effect>, bool)
  {
    match o.kind
    case Callback => if o.hasCallback then ([Call(o, value)], cb(o, value)) else ([], false)
    case _ =>
      if o.hasCallback then ([StoreString(o.data, value), Call(o, value)], cb(o, value))
      else ([StoreString(o.data, value)], true)
  }

  /** `read_option_arg` and the storing: data behind `=`, else the next argument. In the
      latter case what is left of the cluster stays. */
  function ValueData(o: Opt, left: Option<string>, hasData: bool, rest: seq<string>, eff: seq<Effect>, cb: Callbacks): Step
    requires hasData ==> left.Some?
  {
    if hasData then
      var (es, ok) := Stored(o, left.value, cb);
      Step(ok, None, rest, eff + es)
    else if |rest| > 1 then
      var (es, ok) := Stored(o, rest[1], cb);
      Step(ok, left, rest[1..], eff + es)
    else Step(false, left, rest, eff)
  }

  function OptionData(o: Opt, left: Option<string>, hasData: bool, rest: seq<string>, eff: seq<Effect>, cb: Callbacks): (r: Step)
    requires hasData ==> left.Some?
    ensures |r.rest| <= |rest| && (rest != [] ==> r.rest != [])
    ensures if hasData then r.ok ==> r.left == None else r.left == left
  {
    if o.IsFlag() then FlagData(o, left, hasData, rest, eff) else ValueData(o, left, hasData, rest, eff, cb)
  }

  // ---------------------------------------------------------------- short options

  function FindShort(t: seq<Opt>, c: char): (r: Option<Opt>)
    ensures r.Some? ==> r.value in t && r.value.small == Some(c)
    ensures r.None? ==> forall o :: o in t ==> o.small != Some(c)
  {
    if t == [] then None else if t[0].small == Some(c) then Some(t[0]) else FindShort(t[1..], c)
  }

  /** What a short option finds behind its letter. */
  function Behind(s: string): (r: (Option<string>, bool))
    requires s != ""
    ensures r.1 ==> r.0.Some?
    ensures r.0.Some? ==> |r.0.value| < |s|
    ensures r.0.Some? && !r.1 ==> r.0.value != ""
  {
    if |s| == 1 then (None, false)
    else if s[1] == '=' then (Some(s[2..]), true)
    else (Some(s[1..]), false)
  }

  /** `command_parse_short_arg`: a cluster, letter by letter. */
  function ShortArg(t: seq<Opt>, s: string, rest: seq<string>, eff: seq<Effect>, cb: Callbacks): (r: Outcome)
    requires s != "" && rest != []
    ensures r.Done? || r.Failed? ==> 0 < |r.rest| <= |rest|
    decreases |s|
  {
    match FindShort(t, s[0])
    case None => ExitUnknown(eff)
    case Some(o) =>
      var (left, hasData) := Behind(s);
      var p := OptionData(o, left, hasData, rest, eff, cb);
      if !p.ok then Failed(p.rest, p.effects)
      else if p.left.None? then Done(p.rest, p.effects)
      else ShortArg(t, p.left.value, p.rest, p.effects, cb)
  }

  // ---------------------------------------------------------------- long options

  /** The loop's test: the name, then either nothing or an equals sign. */
  predicate Names(o: Opt, arg: string)
  {
    o.large.Some? && o.large.value <= arg && (|arg| == |o.large.value| || arg[|o.large.value|] == '=')
  }

  function FindLong(t: seq<Opt>, arg: string): (r: Option<Opt>)
    ensures r.Some? ==> r.value in t && Names(r.value, arg)
    ensures r.None? ==> forall o :: o in t ==> !Names(o, arg)
  {
    if t == [] then None else if Names(t[0], arg) then Some(t[0]) else FindLong(t[1..], arg)
  }

  function LongArg(t: seq<Opt>, arg: string, rest: seq<string>, eff: seq<Effect>, cb: Callbacks): (r: Outcome)
    requires rest != []
    ensures r.Done? || r.Failed? ==> 0 < |r.rest| <= |rest|
  {
    if arg == "help" then ExitHelp(eff)
    else
      match FindLong(t, arg)
      case None => ExitUnknown(eff)
      case Some(o) =>
        var n := |o.large.value|;
        var hasData := |arg| > n;
        var p := OptionData(o, if hasData then Some(arg[n + 1..]) else None, hasData, rest, eff, cb);
        if !p.ok then Failed(p.rest, p.effects)
        else if o.large.value == "help" && ShowsHelp(o, p.effects) then ExitHelp(p.effects)
        else Done(p.rest, p.effects)
  }

  /** The variable of an option named help, which is a flag. */
  predicate ShowsHelp(o: Opt, effects: seq<Effect>)
  {
    o.IsFlag() && effects != [] && effects[|effects| - 1] == StoreBool(o.data, true)
  }

  // ---------------------------------------------------------------- all arguments

  predicate IsOption(arg: string)
  {
    |arg| > 1 && arg[0] == '-'
  }

  /** `command_parse_args` */
  function ParseArgs(t: seq<Opt>, rest: seq<string>, eff: seq<Effect>, cb: Callbacks): Outcome
    decreases |rest|
  {
    if rest == [] || !IsOption(rest[0]) then Done(rest, eff)
    else if rest[0] == "--" then Done(rest[1..], eff)
    else
      var r := if rest[0][1] != '-' then ShortArg(t, rest[0][1..], rest, eff, cb)
               else LongArg(t, rest[0][2..], rest, eff, cb);
      if r.Done? then ParseArgs(t, r.rest[1..], r.effects, cb) else r
  }
}
