/**
 * Decimal integer parsing of command-line values: the C library's `strtol`
 * in base 10 on an LP64 platform, and the daemon's `parse_int` built on it.
 *
 * A C string is modelled as a `seq<char>`; reading past its end yields the
 * terminating NUL, so a NUL inside the sequence ends the string exactly as
 * it would in C.
 */
module IntParsing {
  import opened Wrappers

  const INT_MIN: int := -0x8000_0000
  const INT_MAX: int := 0x7FFF_FFFF
  const LONG_MIN: int := -0x8000_0000_0000_0000
  const LONG_MAX: int := 0x7FFF_FFFF_FFFF_FFFF

  /** The largest magnitude that the `k` suffix still scales: INT_MAX / 1000 - 1. */
  const UNIT_LIMIT: int := 2147482

  /** The character a C pointer to offset `i` of `s` reads. */
  function At(s: seq<char>, i: nat): char {
    if i < |s| then s[i] else '\0'
  }

  /** `isspace` in the C locale. */
  predicate IsSpace(c: char) {
    c == ' ' || c == '\t' || c == '\n' || c == '\U{B}' || c == '\U{C}' || c == '\r'
  }

  predicate IsDigit(c: char) {
    '0' <= c <= '9'
  }

  predicate AllDigits(ds: seq<char>) {
    forall k :: 0 <= k < |ds| ==> IsDigit(ds[k])
  }

  predicate AllSpaces(ws: seq<char>) {
    forall k :: 0 <= k < |ws| ==> IsSpace(ws[k])
  }

  /** The value of a decimal digit character (its distance from '0'). */
  function DigitValue(c: char): int {
    c as int - '0' as int
  }

  /** The number a string of decimal digits denotes, most significant digit first. */
  function DigitsValue(ds: seq<char>): int {
    if ds == [] then 0 else 10 * DigitsValue(ds[..|ds| - 1]) + DigitValue(ds[|ds| - 1])
  }

  /** C's `/` on integers, which truncates toward zero. */
  function CDiv(a: int, b: int): int
    requires b > 0
  {
    if a >= 0 then a / b else -((-a) / b)
  }

  /** What `strtol` returns for a value outside `long`: the nearest bound. */
  function Saturate(n: int): int {
    if n > LONG_MAX then LONG_MAX else if n < LONG_MIN then LONG_MIN else n
  }

  /** Index of the first character at or after `i` that is not white space. */
  function SkipSpaces(s: seq<char>, i: nat): (j: nat)
    decreases |s| - i
    ensures i <= j && (j <= |s| || j == i)
    ensures !IsSpace(At(s, j))
  {
    if i < |s| && IsSpace(s[i]) then SkipSpaces(s, i + 1) else i
  }

  /** Index of the first character at or after `i` that is not a decimal digit. */
  function DigitsEnd(s: seq<char>, i: nat): (j: nat)
    decreases |s| - i
    ensures i <= j && (j <= |s| || j == i)
    ensures j > i ==> IsDigit(s[j - 1])
    ensures !IsDigit(At(s, j))
  {
    if i < |s| && IsDigit(s[i]) then DigitsEnd(s, i + 1) else i
  }

  /** Everything `SkipSpaces` passes over is white space. */
  lemma {:induction false} SkippedAreSpaces(s: seq<char>, i: nat)
    ensures forall k :: i <= k < SkipSpaces(s, i) ==> IsSpace(s[k])
    decreases |s| - i
  {
    if i < |s| && IsSpace(s[i]) {
      SkippedAreSpaces(s, i + 1);
    }
  }

  /** Everything `DigitsEnd` passes over is a digit. */
  lemma {:induction false} ScannedAreDigits(s: seq<char>, i: nat)
    ensures forall k :: i <= k < DigitsEnd(s, i) ==> IsDigit(s[k])
    decreases |s| - i
  {
    if i < |s| && IsDigit(s[i]) {
      ScannedAreDigits(s, i + 1);
    }
  }

  /** The pair `strtol(s, &endp, 10)` produces: the returned value and the offset of `endp`. */
  datatype Conversion = Conversion(value: int, end: nat)

  /**
   * `strtol(s, &endp, 10)`: skip white space, accept one optional sign, then
   * the longest run of decimal digits. With no digit, nothing is converted:
   * the result is 0 and `endp` is `s` itself. A value outside `long`
   * (64 bits) saturates at LONG_MIN or LONG_MAX.
   */
  function Strtol(s: seq<char>): (c: Conversion)
    ensures LONG_MIN <= c.value <= LONG_MAX
    ensures c.end <= |s|
    ensures c.end == 0 ==> c.value == 0
    ensures c.end > 0 ==> IsDigit(s[c.end - 1]) && !IsDigit(At(s, c.end))
  {
    var i := SkipSpaces(s, 0);
    var j := if At(s, i) == '+' || At(s, i) == '-' then i + 1 else i;
    var e := DigitsEnd(s, j);
    if e == j then Conversion(0, 0)
    else
      var magnitude := DigitsValue(s[j..e]);
      Conversion(Saturate(if At(s, i) == '-' then -magnitude else magnitude), e)
  }

  /**
   * The part of `parse_int` after `strtol` (lines 195-203): `t` is the value
   * `strtol` returned, `next` and `after` are the characters at `endp` and
   * at `endp + 1`. A `k` at `endp` multiplies by 1000 and is consumed when
   * units are allowed and `t` lies strictly between INT_MIN / 1000 and
   * INT_MAX / 1000 (C division); the character then at `endp` must be the
   * terminator and the value must fit in `int`.
   */
  function ApplyUnit(t: int, next: char, after: char, allowUnit: bool): (r: Option<int>)
    ensures r.Some? ==> INT_MIN <= r.value <= INT_MAX
    ensures r.Some? ==> (next == '\0' && r.value == t) || (allowUnit && next == 'k' && after == '\0' && r.value == t * 1000)
  {
    var scaled := allowUnit && next == 'k' && CDiv(INT_MIN, 1000) < t < CDiv(INT_MAX, 1000);
    var v := if scaled then t * 1000 else t;
    var last := if scaled then after else next;
    if last != '\0' || v < INT_MIN || v > INT_MAX then None else Some(v)
  }

  /**
   * `parse_int(s, v, allow_unit)`: `Some(v)` where the C function returns
   * true and stores `v`, `None` where it returns false and leaves `v` as it
   * was. Nothing converted (`endp == s`) is a failure.
   */
  function ParseInt(s: seq<char>, allowUnit: bool): (r: Option<int>)
    ensures r.Some? ==> INT_MIN <= r.value <= INT_MAX
    ensures r.Some? ==> Strtol(s).end > 0
  {
    var c := Strtol(s);
    if c.end == 0 then None else ApplyUnit(c.value, At(s, c.end), At(s, c.end + 1), allowUnit)
  }

  // ---------------------------------------------------------------------
  // Reference grammar: the strings `parse_int` accepts are blanks, at most
  // one sign, a non-empty run of digits, an optional `k`, then the end of
  // the C string. A `Layout` names where each part starts.
  // ---------------------------------------------------------------------

  datatype Layout = Layout(signAt: nat, digitsAt: nat, digitsEnd: nat, unit: bool)

  /** `l` cuts `s` into blanks, sign, digits, unit and terminator. */
  predicate Lays(s: seq<char>, l: Layout) {
    && l.signAt <= l.digitsAt < l.digitsEnd <= |s|
    && (forall k :: 0 <= k < l.signAt ==> IsSpace(s[k]))
    && (l.digitsAt == l.signAt || (l.digitsAt == l.signAt + 1 && (s[l.signAt] == '+' || s[l.signAt] == '-')))
    && (forall k :: l.digitsAt <= k < l.digitsEnd ==> IsDigit(s[k]))
    && if l.unit then At(s, l.digitsEnd) == 'k' && At(s, l.digitsEnd + 1) == '\0'
       else At(s, l.digitsEnd) == '\0'
  }

  /** The signed number the sign and digits of a layout write. */
  function Number(s: seq<char>, l: Layout): int
    requires Lays(s, l)
  {
    var magnitude := DigitsValue(s[l.digitsAt..l.digitsEnd]);
    if l.digitsAt > l.signAt && s[l.signAt] == '-' then -magnitude else magnitude
  }

  /** What the number `n`, followed by a unit or not, means: scaled if permitted, kept if it fits. */
  function Scaled(n: int, unit: bool, allowUnit: bool): Option<int> {
    if unit then
      if allowUnit && -UNIT_LIMIT <= n <= UNIT_LIMIT then Some(n * 1000) else None
    else if INT_MIN <= n <= INT_MAX then Some(n) else None
  }

  /** What the text laid out by `l` means. */
  function Meaning(s: seq<char>, l: Layout, allowUnit: bool): Option<int>
    requires Lays(s, l)
  {
    Scaled(Number(s, l), l.unit, allowUnit)
  }

  lemma {:induction false} SkipSpacesStopsAt(s: seq<char>, i: nat, j: nat)
    requires i <= j <= |s|
    requires forall k :: i <= k < j ==> IsSpace(s[k])
    requires !IsSpace(At(s, j))
    ensures SkipSpaces(s, i) == j
    decreases j - i
  {
    if i < j {
      SkipSpacesStopsAt(s, i + 1, j);
    }
  }

  lemma {:induction false} DigitsEndStopsAt(s: seq<char>, i: nat, j: nat)
    requires i <= j <= |s|
    requires forall k :: i <= k < j ==> IsDigit(s[k])
    requires !IsDigit(At(s, j))
    ensures DigitsEnd(s, i) == j
    decreases j - i
  {
    if i < j {
      DigitsEndStopsAt(s, i + 1, j);
    }
  }

  /** `strtol` read through its three phases: blanks up to `b`, a sign when `g == 1`, digits up to `e`. */
  lemma StrtolPhases(s: seq<char>, b: nat, g: nat, e: nat)
    requires SkipSpaces(s, 0) == b
    requires g == if At(s, b) == '+' || At(s, b) == '-' then 1 else 0
    requires DigitsEnd(s, b + g) == e && e > b + g
    ensures var m := DigitsValue(s[b + g..e]);
      Strtol(s) == Conversion(Saturate(if At(s, b) == '-' then -m else m), e)
  {
  }

  /** The unit rule of `parse_int` decides exactly as `Scaled`: saturation never lets a value through. */
  lemma ApplyUnitScales(n: int, unit: bool, after: char, allowUnit: bool)
    requires unit ==> after == '\0'
    ensures ApplyUnit(Saturate(n), if unit then 'k' else '\0', after, allowUnit) == Scaled(n, unit, allowUnit)
  {
    assert CDiv(INT_MIN, 1000) == -UNIT_LIMIT - 1 && CDiv(INT_MAX, 1000) == UNIT_LIMIT + 1;
  }

  /** On laid-out text, `strtol` stops right after the digits and returns the number, saturated. */
  lemma StrtolLaid(s: seq<char>, l: Layout)
    requires Lays(s, l)
    ensures Strtol(s) == Conversion(Saturate(Number(s, l)), l.digitsEnd)
  {
    var first := s[l.signAt];
    assert At(s, l.signAt) == first;
    assert l.digitsAt == l.signAt ==> IsDigit(first);
    SkipSpacesStopsAt(s, 0, l.signAt);
    DigitsEndStopsAt(s, l.digitsAt, l.digitsEnd);
    StrtolPhases(s, l.signAt, l.digitsAt - l.signAt, l.digitsEnd);
  }

  /** Every laid-out text parses to its meaning. */
  lemma ParseLaid(s: seq<char>, l: Layout, allowUnit: bool)
    requires Lays(s, l)
    ensures ParseInt(s, allowUnit) == Meaning(s, l, allowUnit)
  {
    StrtolLaid(s, l);
    ApplyUnitScales(Number(s, l), l.unit, At(s, l.digitsEnd + 1), allowUnit);
  }

  /** Every text `parse_int` accepts has a layout, and the value is its meaning. */
  lemma ParseIntSound(s: seq<char>, allowUnit: bool)
    requires ParseInt(s, allowUnit).Some?
    ensures exists l :: Lays(s, l) && Meaning(s, l, allowUnit) == ParseInt(s, allowUnit)
  {
    var i := SkipSpaces(s, 0);
    var j := if At(s, i) == '+' || At(s, i) == '-' then i + 1 else i;
    var e := DigitsEnd(s, j);
    var c := Strtol(s);
    assert c.end == e && j < e <= |s|;
    var unit := allowUnit && At(s, e) == 'k' && CDiv(INT_MIN, 1000) < c.value < CDiv(INT_MAX, 1000);
    var l := Layout(i, j, e, unit);
    SkippedAreSpaces(s, 0);
    ScannedAreDigits(s, j);
    assert Lays(s, l);
    ParseLaid(s, l, allowUnit);
  }

  /** `parse_int` succeeds exactly on laid-out text whose meaning is defined, with that meaning. */
  lemma ParseIntCharacterized(s: seq<char>, allowUnit: bool, v: int)
    ensures ParseInt(s, allowUnit) == Some(v)
            <==> exists l :: Lays(s, l) && Meaning(s, l, allowUnit) == Some(v)
  {
    if ParseInt(s, allowUnit) == Some(v) {
      ParseIntSound(s, allowUnit);
    }
    if l :| Lays(s, l) && Meaning(s, l, allowUnit) == Some(v) {
      ParseLaid(s, l, allowUnit);
    }
  }

  /** No digit, no number: the empty string, blanks only, or a lone sign all fail. */
  lemma ParseIntNeedsDigit(s: seq<char>, allowUnit: bool)
    requires forall k :: 0 <= k < |s| ==> !IsDigit(s[k])
    ensures ParseInt(s, allowUnit) == None
  {
  }

  /** Trailing white space is not consumed, so it makes the parse fail. */
  lemma ParseIntRejectsTrailingSpace(s: seq<char>, c: char, allowUnit: bool)
    requires '\0' !in s && IsSpace(c)
    ensures ParseInt(s + [c], allowUnit) == None
  {
    var t := s + [c];
    if ParseInt(t, allowUnit).Some? {
      ParseIntSound(t, allowUnit);
      var l :| Lays(t, l);
      assert forall k :: 0 <= k < |t| ==> t[k] != '\0';
      assert false;
    }
  }

  // ---------------------------------------------------------------------
  // Formatting: the decimal text of an integer, the inverse of parsing.
  // ---------------------------------------------------------------------

  function DigitChar(d: nat): (c: char)
    requires d < 10
    ensures IsDigit(c) && DigitValue(c) == d
  {
    ('0' as int + d) as char
  }

  function NatDigits(n: nat): (ds: seq<char>)
    ensures |ds| > 0 && AllDigits(ds)
  {
    if n < 10 then [DigitChar(n)] else NatDigits(n / 10) + [DigitChar(n % 10)]
  }

  /** The decimal text `printf("%d")` gives for `v`. */
  function Format(v: int): seq<char> {
    if v < 0 then "-" + NatDigits(-v) else NatDigits(v)
  }

  lemma {:induction false} NatDigitsValue(n: nat)
    ensures DigitsValue(NatDigits(n)) == n
  {
    if n >= 10 {
      var ds := NatDigits(n);
      assert ds[..|ds| - 1] == NatDigits(n / 10);
      NatDigitsValue(n / 10);
    }
  }

  /** The decimal text of `v`, followed by `tail`, is laid out with `v` as its number. */
  lemma FormatLaid(v: int, tail: seq<char>, unit: bool)
    requires if unit then At(tail, 0) == 'k' && At(tail, 1) == '\0' else At(tail, 0) == '\0'
    ensures var s := Format(v) + tail;
      var l := Layout(0, if v < 0 then 1 else 0, |Format(v)|, unit);
      Lays(s, l) && Number(s, l) == v
  {
    var ds := NatDigits(if v < 0 then -v else v);
    var g := if v < 0 then 1 else 0;
    var f := Format(v);
    var s := f + tail;
    var l := Layout(0, g, |f|, unit);
    assert f == (if v < 0 then "-" else "") + ds;
    assert s[g..|f|] == ds by {
      assert s[..|f|] == f;
    }
    assert forall k :: g <= k < |f| ==> IsDigit(s[k]) by {
      forall k | g <= k < |f| ensures IsDigit(s[k]) {
        assert s[k] == ds[k - g];
      }
    }
    assert At(s, |f|) == At(tail, 0) && At(s, |f| + 1) == At(tail, 1);
    assert Lays(s, l);
    NatDigitsValue(if v < 0 then -v else v);
  }

  /** Parsing the decimal text of any `int` gives it back. */
  lemma ParseFormat(v: int, allowUnit: bool)
    requires INT_MIN <= v <= INT_MAX
    ensures ParseInt(Format(v), allowUnit) == Some(v)
  {
    FormatLaid(v, [], false);
    assert Format(v) + [] == Format(v);
    ParseLaid(Format(v), Layout(0, if v < 0 then 1 else 0, |Format(v)|, false), allowUnit);
  }

  /**
   * A `k` after the decimal text of `v` scales by 1000 exactly when units are
   * allowed and |v| <= 2147482; otherwise the parse fails.
   */
  lemma ParseFormatWithUnit(v: int, allowUnit: bool)
    ensures ParseInt(Format(v) + "k", allowUnit)
            == if allowUnit && -UNIT_LIMIT <= v <= UNIT_LIMIT then Some(v * 1000) else None
  {
    FormatLaid(v, "k", true);
    ParseLaid(Format(v) + "k", Layout(0, if v < 0 then 1 else 0, |Format(v)|, true), allowUnit);
  }
}
