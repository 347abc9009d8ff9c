/**
 * JavaScript numbers as the components use them: values parsed from form
 * strings with `parseFloat`/`parseInt`, integers printed with `toString` and
 * `padStart`, `Math.round`, and the arithmetic that can leave the finite range.
 */
module Numbers {
  import opened Wrappers

  /**
   * A JavaScript number: a finite value, or NaN / ±Infinity, which this model
   * does not tell apart. Arithmetic with a `NotFinite` operand gives `NotFinite`,
   * which is exact for NaN, the only non-finite value the parsers below produce.
   */
  datatype Number = Finite(value: real) | NotFinite

  function Add(a: Number, b: Number): Number {
    if a.Finite? && b.Finite? then Finite(a.value + b.value) else NotFinite
  }

  function Sub(a: Number, b: Number): Number {
    if a.Finite? && b.Finite? then Finite(a.value - b.value) else NotFinite
  }

  function Mul(a: Number, b: Number): Number {
    if a.Finite? && b.Finite? then Finite(a.value * b.value) else NotFinite
  }

  /** Division; a zero divisor gives ±Infinity or NaN in JavaScript. */
  function Div(a: Number, b: Number): (r: Number)
    ensures r.Finite? <==> a.Finite? && b.Finite? && b.value != 0.0
  {
    if a.Finite? && b.Finite? && b.value != 0.0 then Finite(a.value / b.value) else NotFinite
  }

  /** `x || 0` on a number: NaN becomes 0. */
  function OrZero(x: Number): real {
    if x.Finite? then x.value else 0.0
  }

  /** Sign rules the solver does not apply on its own to products of variables. */
  lemma NonNegativeProduct(x: real, y: real)
    requires x >= 0.0 && y >= 0.0
    ensures x * y >= 0.0
  {
  }

  lemma PositiveProduct(x: real, y: real)
    requires x > 0.0 && y > 0.0
    ensures x * y > 0.0
  {
  }

  predicate IsDigit(c: char) {
    '0' <= c <= '9'
  }

  predicate AllDigits(s: string) {
    forall i :: 0 <= i < |s| ==> IsDigit(s[i])
  }

  function DigitChar(d: nat): (c: char)
    requires d < 10
    ensures IsDigit(c)
  {
    ('0' as int + d) as char
  }

  function DigitValue(c: char): (d: nat)
    requires IsDigit(c)
    ensures d < 10 && DigitChar(d) == c
  {
    c as int - '0' as int
  }

  /** `n.toString()` for a non-negative integer: decimal, no leading zeros. */
  function NatToString(n: nat): (r: string)
    ensures |r| >= 1 && AllDigits(r)
    ensures n < 10 ==> |r| == 1
  {
    if n < 10 then [DigitChar(n)] else NatToString(n / 10) + [DigitChar(n % 10)]
  }

  /** The value of a string of decimal digits (the empty string has value 0). */
  function DigitsValue(s: string): nat
    requires AllDigits(s)
  {
    if s == [] then 0 else 10 * DigitsValue(s[..|s| - 1]) + DigitValue(s[|s| - 1])
  }

  /** Reading back what `toString` printed gives the number. */
  lemma {:induction false} DigitsValueOfNatToString(n: nat)
    ensures DigitsValue(NatToString(n)) == n
  {
    if n >= 10 {
      var s := NatToString(n);
      assert s[..|s| - 1] == NatToString(n / 10);
      DigitsValueOfNatToString(n / 10);
    }
  }

  function Pow10(k: nat): (r: nat)
    ensures r >= 1
  {
    if k == 0 then 1 else 10 * Pow10(k - 1)
  }

  /** The longest prefix of `s` made of decimal digits. */
  function LeadingDigits(s: string): (r: string)
    ensures AllDigits(r) && |r| <= |s| && r == s[..|r|]
    ensures |r| < |s| ==> !IsDigit(s[|r|])
  {
    if s == [] || !IsDigit(s[0]) then [] else [s[0]] + LeadingDigits(s[1..])
  }

  lemma {:induction false} LeadingDigitsOfDigits(s: string)
    requires AllDigits(s)
    ensures LeadingDigits(s) == s
  {
    if s != [] {
      LeadingDigitsOfDigits(s[1..]);
    }
  }

  /** An optional leading sign, as both `parseInt` and `parseFloat` accept it. */
  function SignSplit(s: string): (bool, string) {
    if |s| > 0 && s[0] == '-' then (true, s[1..])
    else if |s| > 0 && s[0] == '+' then (false, s[1..])
    else (false, s)
  }

  /** `parseInt(s)`: the optionally signed leading digits; None is NaN. */
  function ParseInt(s: string): Option<int> {
    var (negative, rest) := SignSplit(s);
    var digits := LeadingDigits(rest);
    if digits == [] then None
    else Some(if negative then 0 - DigitsValue(digits) as int else DigitsValue(digits))
  }

  /** `parseFloat(s)`: optionally signed digits with an optional fractional part. */
  function ParseFloat(s: string): Number {
    var (negative, rest) := SignSplit(s);
    var whole := LeadingDigits(rest);
    var after := rest[|whole|..];
    var fraction := if |after| > 0 && after[0] == '.' then LeadingDigits(after[1..]) else [];
    if whole == [] && fraction == [] then NotFinite
    else
      var v := DigitsValue(whole) as real + DigitsValue(fraction) as real / Pow10(|fraction|) as real;
      Finite(if negative then -v else v)
  }

  /** What `toString` prints, `parseInt` and `parseFloat` read back exactly. */
  lemma ParseNatToString(n: nat)
    ensures ParseInt(NatToString(n)) == Some(n)
    ensures ParseFloat(NatToString(n)) == Finite(n as real)
  {
    var s := NatToString(n);
    LeadingDigitsOfDigits(s);
    DigitsValueOfNatToString(n);
    assert SignSplit(s) == (false, s);
    assert s[|s|..] == [];
  }

  /** Neither parser finds a number in the empty string. */
  lemma ParseEmpty()
    ensures ParseInt("") == None
    ensures ParseFloat("") == NotFinite
  {
  }

  /** `Math.round(x)`: the nearest integer, halves rounded up. */
  function Round(x: real): (r: int)
    ensures x - 0.5 < r as real <= x + 0.5
  {
    (x + 0.5).Floor
  }

  /** `s.padStart(2, '0')`. */
  function PadStart2(s: string): (r: string)
    ensures |r| == if |s| >= 2 then |s| else 2
    ensures |s| >= 2 ==> r == s
  {
    if |s| >= 2 then s else if |s| == 1 then ['0'] + s else "00"
  }
}
