/** Decimal text: the digit accumulators of the client, the `QString::toInt` /
    `QString::toULongLong` conversions it relies on, and the formatting done by
    `QString::arg(int)`. */
module Decimal {
  import opened Codepoints

  const INT_MAX: int := 0x7FFF_FFFF
  const ULLONG_MAX: int := 0xFFFF_FFFF_FFFF_FFFF

  predicate IsDigit(c: Codepoint) {
    ZERO <= c <= NINE
  }

  /** The digits `1`-`9` that the window-id lexers accept (`cc > 0x30 && cc <= 0x39`). */
  predicate IsNonZeroDigit(c: Codepoint) {
    ZERO < c <= NINE
  }

  predicate AllDigits(s: seq<Codepoint>) {
    forall i :: 0 <= i < |s| ==> IsDigit(s[i])
  }

  predicate AllNonZeroDigits(s: seq<Codepoint>) {
    forall i :: 0 <= i < |s| ==> IsNonZeroDigit(s[i])
  }

  /** The value of a digit string, accumulated left to right as `v * 10 + (cc - 0x30)`;
      the empty string is worth 0, as the accumulators start at 0. */
  function Value(s: seq<Codepoint>): nat
    requires AllDigits(s)
  {
    if s == [] then 0 else Value(s[..|s| - 1]) * 10 + (s[|s| - 1] - ZERO)
  }

  /** One more digit multiplies the value so far by ten and adds the digit. */
  lemma ValueSnoc(s: seq<Codepoint>, c: Codepoint)
    requires AllDigits(s) && IsDigit(c)
    ensures AllDigits(s + [c])
    ensures Value(s + [c]) == Value(s) * 10 + (c - ZERO)
  {
    assert (s + [c])[..|s|] == s;
  }

  /** Decimal representation of a natural number, without leading zeros. */
  function FormatDecimal(n: nat): (r: seq<Codepoint>)
    ensures |r| > 0 && AllDigits(r)
    ensures Value(r) == n
    decreases n
  {
    if n < 10 then [ZERO + n]
    else
      var r := FormatDecimal(n / 10) + [ZERO + n % 10];
      ValueSnoc(FormatDecimal(n / 10), ZERO + n % 10);
      r
  }

  /** `QString::arg(int)`: a minus sign for negative numbers, then the digits. */
  function FormatInt(i: int): (r: seq<Codepoint>)
    ensures |r| > 0
    ensures i >= 0 ==> AllDigits(r) && Value(r) == i
    ensures i < 0 ==> r[0] == 0x2D && AllDigits(r[1..]) && Value(r[1..]) == -i
  {
    if i >= 0 then FormatDecimal(i) else [0x2D] + FormatDecimal(-i)
  }

  /** Result of a Qt string-to-number conversion: the value and the `ok` flag. */
  datatype Conversion = Conversion(value: nat, ok: bool)

  /** `QString::toInt(&ok)` restricted to digit strings: an empty string, a
      non-digit or a value above `INT_MAX` fails with value 0. A reference
      definition: its ensures spell out the documented conversion, and its
      round trip with `FormatDecimal` is `ToIntFormat`. */
  function ToInt(s: seq<Codepoint>): (r: Conversion)
    ensures r.ok <==> s != [] && AllDigits(s) && Value(s) <= INT_MAX
    ensures r.ok ==> r.value == Value(s) && r.value <= INT_MAX
    ensures !r.ok ==> r.value == 0
  {
    if s != [] && AllDigits(s) && Value(s) <= INT_MAX then Conversion(Value(s), true) else Conversion(0, false)
  }

  /** `QString::toULongLong(&ok)`, restricted to digit strings in the same way;
      a reference definition whose round trip is `ToULongLongFormat`. */
  function ToULongLong(s: seq<Codepoint>): (r: Conversion)
    ensures r.ok <==> s != [] && AllDigits(s) && Value(s) <= ULLONG_MAX
    ensures r.ok ==> r.value == Value(s) && r.value <= ULLONG_MAX
    ensures !r.ok ==> r.value == 0
  {
    if s != [] && AllDigits(s) && Value(s) <= ULLONG_MAX then Conversion(Value(s), true) else Conversion(0, false)
  }

  /** Formatting then converting back gives the number (the Qt round trip). */
  lemma ToIntFormat(n: nat)
    requires n <= INT_MAX
    ensures ToInt(FormatDecimal(n)) == Conversion(n, true)
  {
  }

  lemma ToULongLongFormat(n: nat)
    requires n <= ULLONG_MAX
    ensures ToULongLong(FormatDecimal(n)) == Conversion(n, true)
  {
  }
}
