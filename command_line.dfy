/**
 * The option loop at the start of `main`: each option `getopt_long` returns
 * updates one setting or ends the process with status 1, and operands left
 * over after the options end it too.
 *
 * `getopt_long` itself is not modelled: its output is the sequence of
 * (option character, argument) pairs it returns, followed by the number of
 * operands left behind. The `-b` argument is parsed as a floating-point
 * number, which this model does not cover; whether it is accepted is the
 * parameter `bufferOk`.
 */
module CommandLine {
  import opened Wrappers
  import opened IntParsing
  import opened DeviceSelection

  /** One result of `getopt_long`: the option character and its `optarg`. */
  datatype Opt = Opt(name: char, arg: seq<char>)

  /** The locals the option loop leaves for the rest of `main`. */
  datatype Settings = Settings(devtype: seq<char>, config: seq<char>, devidx: int, pcmrate: int, stereo: bool)

  /** Either the process goes on with its settings, or it exits with a status. */
  datatype Outcome = Run(settings: Settings) | Exit(status: int)

  /** The initial values of `devtype_str`, `config_str`, `devidx`, `pcmrate` and `stereo`. */
  const Defaults: Settings := Settings("", "", 0, 48000, true)

  /** `-d`: the parsed index, or -1 ("list the devices") when the argument does not parse. */
  function DeviceIndex(arg: seq<char>): (r: int)
    ensures INT_MIN <= r <= INT_MAX
    ensures ParseInt(arg, false).Some? ==> r == ParseInt(arg, false).value
    ensures r != -1 ==> ParseInt(arg, false) == Some(r)
  {
    match ParseInt(arg, false)
    case Some(v) => v
    case None => -1
  }

  /** The effect of one option on the settings; `None` is `exit(1)`. */
  function Apply(s: Settings, o: Opt, bufferOk: seq<char> -> bool): (r: Option<Settings>)
    ensures r.Some? <==> Accepted(o, bufferOk)
    ensures r.Some? && s.pcmrate >= 1 ==> r.value.pcmrate >= 1
  {
    match o.name
    case 't' => Some(s.(devtype := o.arg))
    case 'c' => Some(s.(config := o.arg))
    case 'd' => Some(s.(devidx := DeviceIndex(o.arg)))
    case 'r' =>
      (match ParseInt(o.arg, true)
       case Some(v) => if v < 1 then None else Some(s.(pcmrate := v))
       case None => None)
    case 'M' => Some(s.(stereo := false))
    case 'b' => if bufferOk(o.arg) then Some(s) else None
    case _ => None
  }

  /** The settings after the options in order, or `None` once one of them exits. */
  function ApplyAll(opts: seq<Opt>, bufferOk: seq<char> -> bool): (r: Option<Settings>)
    ensures r.Some? ==> r.value.pcmrate >= 1
  {
    if opts == [] then Some(Defaults)
    else
      match ApplyAll(opts[..|opts| - 1], bufferOk)
      case None => None
      case Some(s) => Apply(s, opts[|opts| - 1], bufferOk)
  }

  /** What the option loop and the operand check that follows it decide. */
  function Decide(opts: seq<Opt>, operands: nat, bufferOk: seq<char> -> bool): (r: Outcome)
    ensures r.Exit? ==> r.status == 1
    ensures r.Run? ==> operands == 0 && r.settings.pcmrate >= 1
  {
    match ApplyAll(opts, bufferOk)
    case None => Exit(1)
    case Some(s) => if operands > 0 then Exit(1) else Run(s)
  }

  /** Once an option has exited, later options change nothing. */
  lemma {:induction false} ApplyAllStaysExited(opts: seq<Opt>, i: nat, bufferOk: seq<char> -> bool)
    requires i <= |opts| && ApplyAll(opts[..i], bufferOk) == None
    ensures ApplyAll(opts, bufferOk) == None
    decreases |opts| - i
  {
    if i < |opts| {
      assert opts[..i + 1][..i] == opts[..i];
      ApplyAllStaysExited(opts, i + 1, bufferOk);
    } else {
      assert opts[..i] == opts;
    }
  }

  /**
   * The `while (getopt_long(...))` loop of `main` and the `optind < argc`
   * check after it, updating the settings in place.
   */
  method ParseCommandLine(opts: seq<Opt>, operands: nat, bufferOk: seq<char> -> bool) returns (outcome: Outcome)
    ensures outcome == Decide(opts, operands, bufferOk)
  {
    var devtype, config := "", "";
    var devidx, pcmrate, stereo := 0, 48000, true;
    var i := 0;
    while i < |opts|
      invariant 0 <= i <= |opts|
      invariant ApplyAll(opts[..i], bufferOk) == Some(Settings(devtype, config, devidx, pcmrate, stereo))
    {
      var opt := opts[i];
      assert opts[..i + 1][..i] == opts[..i];
      match opt.name {
        case 't' =>
          devtype := opt.arg;
        case 'c' =>
          config := opt.arg;
        case 'd' =>
          var parsed := ParseInt(opt.arg, false);
          if parsed.Some? {
            devidx := parsed.value;
          } else {
            devidx := -1;
          }
        case 'r' =>
          var parsed := ParseInt(opt.arg, true);
          if parsed.Some? {
            pcmrate := parsed.value;
          }
          if parsed.None? || pcmrate < 1 {
            ApplyAllStaysExited(opts, i + 1, bufferOk);
            return Exit(1);
          }
        case 'M' =>
          stereo := false;
        case 'b' =>
          if !bufferOk(opt.arg) {
            ApplyAllStaysExited(opts, i + 1, bufferOk);
            return Exit(1);
          }
        case _ =>
          ApplyAllStaysExited(opts, i + 1, bufferOk);
          return Exit(1);
      }
      i := i + 1;
    }
    assert opts[..i] == opts;
    if operands > 0 {
      return Exit(1);
    }
    return Run(Settings(devtype, config, devidx, pcmrate, stereo));
  }

  // ---------------------------------------------------------------------
  // What the option loop promises, stated without replaying it.
  // ---------------------------------------------------------------------

  /** An option that does not end the process, whatever came before it. */
  predicate Accepted(o: Opt, bufferOk: seq<char> -> bool) {
    || o.name == 't' || o.name == 'c' || o.name == 'd' || o.name == 'M'
    || (o.name == 'r' && ParseInt(o.arg, true).Some? && ParseInt(o.arg, true).value >= 1)
    || (o.name == 'b' && bufferOk(o.arg))
  }

  /** The argument of the last option named `name`, if there is one. */
  function LastArg(opts: seq<Opt>, name: char): Option<seq<char>> {
    if opts == [] then None
    else if opts[|opts| - 1].name == name then Some(opts[|opts| - 1].arg)
    else LastArg(opts[..|opts| - 1], name)
  }

  /** The settings a run ends up with: each setting from the last option that sets it, else its default. */
  function LastWins(opts: seq<Opt>): Settings {
    Settings(
      LastArg(opts, 't').GetOr(Defaults.devtype),
      LastArg(opts, 'c').GetOr(Defaults.config),
      match LastArg(opts, 'd') case None => Defaults.devidx case Some(a) => DeviceIndex(a),
      match LastArg(opts, 'r') case None => Defaults.pcmrate case Some(a) => ParseInt(a, true).GetOr(0),
      LastArg(opts, 'M').None?)
  }

  /** The options run to the end exactly when every one of them is accepted. */
  lemma {:induction false} ApplyAllAccepts(opts: seq<Opt>, bufferOk: seq<char> -> bool)
    ensures ApplyAll(opts, bufferOk).Some? <==> forall i :: 0 <= i < |opts| ==> Accepted(opts[i], bufferOk)
  {
    if opts != [] {
      var front := opts[..|opts| - 1];
      ApplyAllAccepts(front, bufferOk);
      assert forall i :: 0 <= i < |front| ==> front[i] == opts[i];
    }
  }

  /** When the options run to the end, each setting is the last one given, and `pcmrate` is at least 1. */
  lemma {:induction false} ApplyAllLastWins(opts: seq<Opt>, bufferOk: seq<char> -> bool)
    requires ApplyAll(opts, bufferOk).Some?
    ensures ApplyAll(opts, bufferOk).value == LastWins(opts)
    ensures ApplyAll(opts, bufferOk).value.pcmrate >= 1
  {
    if opts != [] {
      var front, last := opts[..|opts| - 1], opts[|opts| - 1];
      ApplyAllLastWins(front, bufferOk);
      var s := ApplyAll(front, bufferOk).value;
      assert ApplyAll(opts, bufferOk) == Apply(s, last, bufferOk);
      match last.name
      case 't' =>
      case 'c' =>
      case 'd' =>
      case 'r' =>
      case 'M' =>
      case 'b' =>
    }
  }

  /**
   * The process exits with status 1 exactly when an option is refused or an
   * operand is left over; otherwise it runs with the last-given settings.
   */
  lemma DecideSummary(opts: seq<Opt>, operands: nat, bufferOk: seq<char> -> bool)
    ensures Decide(opts, operands, bufferOk).Exit? ==> Decide(opts, operands, bufferOk).status == 1
    ensures Decide(opts, operands, bufferOk).Run?
            <==> operands == 0 && forall i :: 0 <= i < |opts| ==> Accepted(opts[i], bufferOk)
    ensures Decide(opts, operands, bufferOk).Run? ==> Decide(opts, operands, bufferOk).settings == LastWins(opts)
    ensures Decide(opts, operands, bufferOk).Run? ==> Decide(opts, operands, bufferOk).settings.pcmrate >= 1
  {
    ApplyAllAccepts(opts, bufferOk);
    if ApplyAll(opts, bufferOk).Some? {
      ApplyAllLastWins(opts, bufferOk);
    }
  }

  /**
   * `-I`, `-D` and `-C` are in the option string but have no case of their
   * own, so any of them ends the process with status 1.
   */
  lemma ReservedOptionsExit(opts: seq<Opt>, operands: nat, bufferOk: seq<char> -> bool, i: nat)
    requires i < |opts| && (opts[i].name == 'I' || opts[i].name == 'D' || opts[i].name == 'C')
    ensures Decide(opts, operands, bufferOk) == Exit(1)
  {
    DecideSummary(opts, operands, bufferOk);
    assert !Accepted(opts[i], bufferOk);
  }

  /**
   * An unparsable `-d` argument makes `get_device` list the devices without
   * reporting an invalid index: it never selects a device and never prints
   * the index error.
   */
  lemma UnparsableIndexOnlyLists(opts: seq<Opt>, operands: nat, bufferOk: seq<char> -> bool, devnames: seq<seq<char>>)
    requires Decide(opts, operands, bufferOk).Run?
    requires LastArg(opts, 'd').Some? && ParseInt(LastArg(opts, 'd').value, false).None?
    ensures var s := Decide(opts, operands, bufferOk).settings;
      SelectDevice(s.devtype, s.devidx, devnames) in {Failure(UnknownType), Failure(NoSuchDevice(false))}
  {
    DecideSummary(opts, operands, bufferOk);
  }
}
