/**
 * Choosing the radio source from the `-t` device type and the `-d` index
 * (`get_device`): a case-insensitive match of the type against the four
 * supported families, then a range check of the index against the names the
 * family's enumeration reported.
 *
 * Enumerating the attached devices is a call into a vendor library, so the
 * list of names is a parameter. Opening the device is what the result
 * describes: which family's source is constructed, and from what.
 */
module DeviceSelection {
  import opened Wrappers

  datatype Family = RtlSdr | HackRF | Airspy | BladeRF

  /** The device-type name `-t` accepts for each family. */
  function FamilyName(f: Family): seq<char> {
    match f
    case RtlSdr => "rtlsdr"
    case HackRF => "hackrf"
    case Airspy => "airspy"
    case BladeRF => "bladerf"
  }

  /** `tolower` in the C locale. */
  function ToLower(c: char): char {
    if 'A' <= c <= 'Z' then (c as int - 'A' as int + 'a' as int) as char else c
  }

  /**
   * `strcasecmp(a, b) == 0`: equal length and equal characters once both are
   * lower-cased. Both strings come from C strings, so neither holds a NUL.
   */
  predicate SameIgnoringCase(a: seq<char>, b: seq<char>) {
    |a| == |b| && forall k :: 0 <= k < |a| ==> ToLower(a[k]) == ToLower(b[k])
  }

  /** The family whose name `devtype` matches, tried in the order of the `if` chain in `get_device` (main.cpp). */
  function FamilyOf(devtype: seq<char>): (r: Option<Family>)
    ensures r.Some? ==> SameIgnoringCase(devtype, FamilyName(r.value))
    ensures r.None? ==> forall f :: !SameIgnoringCase(devtype, FamilyName(f))
  {
    if SameIgnoringCase(devtype, "rtlsdr") then Some(RtlSdr)
    else if SameIgnoringCase(devtype, "hackrf") then Some(HackRF)
    else if SameIgnoringCase(devtype, "airspy") then Some(Airspy)
    else if SameIgnoringCase(devtype, "bladerf") then Some(BladeRF)
    else None
  }

  /** How the chosen source is constructed: BladeRF from the device's name, the others from its index. */
  datatype OpenBy = ByIndex(index: nat) | ByName(name: seq<char>)

  datatype Selection = Selection(family: Family, openBy: OpenBy)

  /**
   * Why no radio source was chosen. `NoSuchDevice` comes with the list of found
   * devices; `indexReported` says whether the "invalid device index" error is
   * printed before it, which `get_device` skips for index -1 ("list devices").
   */
  datatype SelectionError = UnknownType | NoSuchDevice(indexReported: bool)

  /** `get_device(devnames, devtype, &srcsdr, devidx)`: the source to create, or why there is none. */
  function SelectDevice(devtype: seq<char>, devidx: int, devnames: seq<seq<char>>): (r: Result<Selection, SelectionError>)
    ensures r.Success? <==> FamilyOf(devtype).Some? && 0 <= devidx < |devnames|
    ensures r == Failure(UnknownType) <==> FamilyOf(devtype).None?
    ensures r.Success? ==> r.value.family == FamilyOf(devtype).value
    ensures r.Success? ==> r.value.openBy == if r.value.family == BladeRF then ByName(devnames[devidx]) else ByIndex(devidx)
    ensures r.Failure? && r.error.NoSuchDevice? ==> r.error.indexReported == (devidx != -1)
  {
    match FamilyOf(devtype)
    case None => Failure(UnknownType)
    case Some(f) =>
      if devidx < 0 || devidx >= |devnames| then Failure(NoSuchDevice(devidx != -1))
      else Success(Selection(f, if f == BladeRF then ByName(devnames[devidx]) else ByIndex(devidx)))
  }

  /** Each family's own name, in any mix of upper and lower case, selects that family. */
  lemma FamilyOfName(f: Family, spelled: seq<char>)
    requires SameIgnoringCase(spelled, FamilyName(f))
    ensures FamilyOf(spelled) == Some(f)
  {
    var n := FamilyName(f);
    forall g | g != f ensures !SameIgnoringCase(spelled, FamilyName(g)) {
      var m := FamilyName(g);
      if |m| == |n| {
        var k :| 0 <= k < |n| && ToLower(n[k]) != ToLower(m[k]) && n[k] == ToLower(n[k]) && m[k] == ToLower(m[k]);
        assert ToLower(spelled[k]) == ToLower(n[k]);
      }
    }
  }

  /** The family does not depend on the case of the device type. */
  lemma FamilyOfIgnoresCase(a: seq<char>, b: seq<char>)
    requires SameIgnoringCase(a, b)
    ensures FamilyOf(a) == FamilyOf(b)
  {
    if FamilyOf(a).Some? {
      FamilyOfName(FamilyOf(a).value, b);
    } else if FamilyOf(b).Some? {
      FamilyOfName(FamilyOf(b).value, a);
    }
  }
}
