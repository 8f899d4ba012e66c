/**
 * The visibility formatter of src/utils/metersToKilometers.ts: a distance in
 * metres, divided by 1000, rendered with `toFixed(0)` and suffixed with "km".
 *
 * Distances are natural numbers of metres. For safe integers (d <= 2^53 - 1)
 * the floating-point quotient d / 1000 never crosses a rounding boundary, so
 * rounding it to the nearest integer (ties to the larger value, as
 * `Number.prototype.toFixed` does in section 21.1.3.3 of ECMA-262) is the
 * integer (d + 500) / 1000. Larger distances are outside what this module
 * describes faithfully: the quotient loses precision, and from 10^21 upwards
 * `toFixed` switches to exponent notation.
 */
module Distance {

  predicate IsDigit(c: char) {
    '0' <= c <= '9'
  }

  /** A string made of decimal digits only: no sign, no decimal point. */
  predicate IsDecimal(s: string) {
    forall i :: 0 <= i < |s| ==> IsDigit(s[i])
  }

  function DigitChar(n: nat): (c: char)
    requires n < 10
    ensures IsDigit(c) && c as int - '0' as int == n
  {
    (n + '0' as int) as char
  }

  function DigitValue(c: char): nat
    requires IsDigit(c)
  {
    c as int - '0' as int
  }

  /** The value a decimal digit string denotes. */
  function DecimalValue(s: string): nat
    requires IsDecimal(s)
  {
    if s == [] then 0 else 10 * DecimalValue(s[..|s| - 1]) + DigitValue(s[|s| - 1])
  }

  /** A canonical rendering: at least one digit and no leading zero unless it is "0". */
  predicate IsCanonical(s: string) {
    |s| >= 1 && IsDecimal(s) && (s[0] == '0' ==> s == "0")
  }

  /** How JavaScript renders a non-negative integer: shortest decimal form. */
  function NatToDecimal(n: nat): (s: string)
    ensures IsCanonical(s)
    ensures s[0] == '0' <==> n == 0
  {
    if n < 10 then [DigitChar(n)] else NatToDecimal(n / 10) + [DigitChar(n % 10)]
  }

  /** Reading a rendered number back gives the number. */
  lemma {:induction false} DecimalRoundTrip(n: nat)
    ensures DecimalValue(NatToDecimal(n)) == n
  {
    if n >= 10 {
      var s := NatToDecimal(n);
      assert s[..|s| - 1] == NatToDecimal(n / 10);
      DecimalRoundTrip(n / 10);
    }
  }

  lemma {:induction false} LeadingDigitPositive(s: string)
    requires IsDecimal(s) && |s| >= 1 && s[0] != '0'
    ensures DecimalValue(s) > 0
  {
    if |s| > 1 {
      LeadingDigitPositive(s[..|s| - 1]);
    }
  }

  /** Every canonical digit string is the rendering of the number it denotes. */
  lemma {:induction false} DecimalCanonical(s: string)
    requires IsCanonical(s)
    ensures NatToDecimal(DecimalValue(s)) == s
  {
    if |s| > 1 {
      var p := s[..|s| - 1];
      assert p[0] == s[0];
      LeadingDigitPositive(p);
      DecimalCanonical(p);
      assert s == p + [s[|s| - 1]];
    }
  }

  /** `(d / 1000).toFixed(0)` as a number: the nearest whole kilometre, exact halves rounding up. */
  function RoundedKilometers(d: nat): (k: nat)
    ensures 1000 * k <= d + 500 < 1000 * k + 1000
  {
    (d + 500) / 1000
  }

  /** `metersToKilometers(d)`: the rounded kilometre count followed by "km". */
  function MetersToKilometers(d: nat): (r: string)
    ensures |r| >= 3 && r[|r| - 2..] == "km"
    ensures IsCanonical(r[..|r| - 2]) && '.' !in r
    ensures var k := DecimalValue(r[..|r| - 2]); 1000 * k <= d + 500 < 1000 * k + 1000
  {
    var k := RoundedKilometers(d);
    DecimalRoundTrip(k);
    var s := NatToDecimal(k) + "km";
    assert s[..|s| - 2] == NatToDecimal(k);
    s
  }

  /** The kilometre count a rendering shows. */
  function KilometreCount(d: nat): nat {
    var r := MetersToKilometers(d);
    DecimalValue(r[..|r| - 2])
  }

  /** A longer distance never shows fewer kilometres. */
  lemma MetersToKilometersMonotone(d1: nat, d2: nat)
    requires d1 <= d2
    ensures KilometreCount(d1) <= KilometreCount(d2)
  {
  }

  /** Whole kilometres convert exactly. */
  lemma ExactKilometres(k: nat)
    ensures MetersToKilometers(1000 * k) == NatToDecimal(k) + "km"
  {
    var d := 1000 * k;
    assert RoundedKilometers(d) == k;
  }

  /** Anything under half a kilometre shows as "0km". */
  lemma ShortDistanceIsZero(d: nat)
    requires d < 500
    ensures MetersToKilometers(d) == "0km"
  {
    var r := MetersToKilometers(d);
    DecimalCanonical(r[..|r| - 2]);
    assert r == r[..|r| - 2] + "km";
  }

  /** Worked values: halves round up, just under a half rounds down. */
  lemma MetersToKilometersExamples()
    ensures MetersToKilometers(500) == "1km"
    ensures MetersToKilometers(1499) == "1km"
    ensures MetersToKilometers(1500) == "2km"
    ensures MetersToKilometers(10000) == "10km"
  {
    assert NatToDecimal(10) == "10";
  }
}
