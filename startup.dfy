/**
 * The start-up sequence of `main` between the option loop and the
 * forwarding loop: every check that fails ends the process with status 1,
 * and streaming begins only when all of them pass.
 *
 * The UDP sink, the device sources and their `configure` calls are foreign
 * code; whether each of them succeeds is a parameter, as is the list of
 * device names the chosen family enumerates.
 */
module Startup {
  import opened Wrappers
  import opened DeviceSelection
  import opened CommandLine

  /** How far `main` gets: into the forwarding loop with a source, or out with a status. */
  datatype Start = Streaming(settings: Settings, selection: Selection) | Exited(status: int)

  /**
   * The option loop, then the UDP sink check, `get_device`, the radio
   * source's own error check and `configure(config_str)`, in the order
   * `main.cpp` makes them.
   */
  function Launch(
    opts: seq<Opt>, operands: nat, bufferOk: seq<char> -> bool,
    sinkOk: bool, devnames: seq<seq<char>>,
    sourceOk: Selection -> bool, configures: (Selection, seq<char>) -> bool): (r: Start)
    ensures r.Exited? ==> r.status == 1
    ensures r.Streaming? ==> sinkOk && sourceOk(r.selection) && configures(r.selection, r.settings.config)
    ensures r.Streaming? ==> FamilyOf(r.settings.devtype) == Some(r.selection.family)
  {
    match Decide(opts, operands, bufferOk)
    case Exit(status) => Exited(status)
    case Run(s) =>
      if !sinkOk then Exited(1)
      else
        match SelectDevice(s.devtype, s.devidx, devnames)
        case Failure(_) => Exited(1)
        case Success(sel) =>
          if !sourceOk(sel) then Exited(1)
          else if !configures(sel, s.config) then Exited(1)
          else Streaming(s, sel)
  }

  /**
   * Start-up fails only with status 1, and streams exactly when the options
   * are accepted, the sink is usable, the device type and index select a
   * device, and that device opens and accepts the configuration string. The
   * source streams with the last-given settings and the family its type names.
   */
  lemma LaunchSummary(
    opts: seq<Opt>, operands: nat, bufferOk: seq<char> -> bool,
    sinkOk: bool, devnames: seq<seq<char>>,
    sourceOk: Selection -> bool, configures: (Selection, seq<char>) -> bool)
    ensures var r := Launch(opts, operands, bufferOk, sinkOk, devnames, sourceOk, configures);
      && (r.Exited? ==> r.status == 1)
      && (r.Streaming? <==>
            && operands == 0
            && (forall i :: 0 <= i < |opts| ==> Accepted(opts[i], bufferOk))
            && sinkOk
            && (var s := LastWins(opts);
                var d := SelectDevice(s.devtype, s.devidx, devnames);
                d.Success? && sourceOk(d.value) && configures(d.value, s.config)))
      && (r.Streaming? ==>
            && r.settings == LastWins(opts)
            && r.selection.family == FamilyOf(r.settings.devtype).value
            && SameIgnoringCase(r.settings.devtype, FamilyName(r.selection.family)))
  {
    DecideSummary(opts, operands, bufferOk);
  }

  /**
   * The device type starts out empty, which names no family: a command line
   * without `-t` never reaches streaming.
   */
  lemma NoDeviceTypeExits(
    opts: seq<Opt>, operands: nat, bufferOk: seq<char> -> bool,
    sinkOk: bool, devnames: seq<seq<char>>,
    sourceOk: Selection -> bool, configures: (Selection, seq<char>) -> bool)
    requires LastArg(opts, 't').None?
    ensures Launch(opts, operands, bufferOk, sinkOk, devnames, sourceOk, configures) == Exited(1)
  {
    DecideSummary(opts, operands, bufferOk);
    assert !SameIgnoringCase("", "rtlsdr");
  }
}
