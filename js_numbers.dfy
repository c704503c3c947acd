/**
 * JavaScript numbers as the application uses them: `parseFloat` on form
 * input, `Number.prototype.toString` when an amount is put back into a
 * form, and division (which yields an infinity or NaN on a zero divisor).
 * Numbers are exact rationals here; binary floating point is not modelled.
 */
module JsNumbers {
  import opened Wrappers
  import opened JsStrings

  /** A JavaScript number: a finite value, or NaN. */
  datatype JsNumber = Finite(value: real) | NaN

  /** The most fraction digits `NumberToString` writes out. */
  const MaxFractionDigits: nat := 20

  function Pow10(n: nat): (r: nat)
    ensures r >= 1
  {
    if n == 0 then 1 else 10 * Pow10(n - 1)
  }

  /** Ten raised to an integer exponent, as a rational. */
  function Scale(e: int): (r: real)
    ensures r > 0.0
  {
    if e >= 0 then Pow10(e) as real else 1.0 / (Pow10(-e) as real)
  }

  predicate AllDigits(s: string) {
    forall i :: 0 <= i < |s| ==> IsDigit(s[i])
  }

  function DigitValue(c: char): nat
    requires IsDigit(c)
  {
    (c as int) - ('0' as int)
  }

  function DigitChar(d: nat): (c: char)
    requires d < 10
    ensures IsDigit(c) && DigitValue(c) == d
  {
    (('0' as int) + d) as char
  }

  /** The value of a decimal digit string, most significant digit first; "" reads as 0. */
  function DigitsValue(ds: string): nat
    requires AllDigits(ds)
  {
    if ds == [] then 0 else 10 * DigitsValue(ds[..|ds| - 1]) + DigitValue(ds[|ds| - 1])
  }

  /** The longest prefix of `s` made of decimal digits. */
  function DigitPrefix(s: string): (r: string)
    ensures |r| <= |s| && r == s[..|r|] && AllDigits(r)
    ensures |r| < |s| ==> !IsDigit(s[|r|])
  {
    if |s| > 0 && IsDigit(s[0]) then [s[0]] + DigitPrefix(s[1..]) else []
  }

  /** The value of the digits after a decimal point. */
  function FractionValue(fp: string): real
    requires AllDigits(fp)
  {
    DigitsValue(fp) as real / Pow10(|fp|) as real
  }

  /**
   * The exponent of `1.5e-3`: an `e` or `E`, an optional sign and at least
   * one digit; anything else contributes exponent 0 and is ignored, as
   * `parseFloat` ignores every character after the longest numeric prefix.
   */
  function ExponentPart(tail: string): int {
    if |tail| > 0 && (tail[0] == 'e' || tail[0] == 'E') then
      var v := tail[1..];
      var negative := |v| > 0 && v[0] == '-';
      var w := if |v| > 0 && (v[0] == '-' || v[0] == '+') then v[1..] else v;
      var ds := DigitPrefix(w);
      if ds == [] then 0 else if negative then -(DigitsValue(ds) as int) else DigitsValue(ds)
    else 0
  }

  /**
   * The unsigned decimal literal at the start of `u` (`12`, `12.`, `12.5`,
   * `.5`, each with an optional exponent), or None when `u` does not start
   * with one.
   */
  function ParseUnsigned(u: string): Option<real> {
    var ip := DigitPrefix(u);
    var rest := u[|ip|..];
    var hasDot := |rest| > 0 && rest[0] == '.';
    var fp := if hasDot then DigitPrefix(rest[1..]) else [];
    if |ip| == 0 && |fp| == 0 then None
    else
      var tail := if hasDot then rest[1 + |fp|..] else rest;
      Some((DigitsValue(ip) as real + FractionValue(fp)) * Scale(ExponentPart(tail)))
  }

  /** `s` without its leading white space and its sign, if any. */
  function Unsigned(s: string): string {
    var t := TrimStart(s);
    if |t| > 0 && (t[0] == '-' || t[0] == '+') then t[1..] else t
  }

  /** Whether the text after white space and sign starts the way a decimal literal must. */
  predicate StartsWithNumber(u: string) {
    |u| > 0 && (IsDigit(u[0]) || (u[0] == '.' && |u| > 1 && IsDigit(u[1])))
  }

  /**
   * `parseFloat(s)`: skip leading white space, read an optional sign and
   * the longest decimal literal, ignore the rest; NaN when there is no
   * literal.
   */
  function ParseFloat(s: string): JsNumber {
    var m := ParseUnsigned(Unsigned(s));
    if m.None? then NaN else Finite(if SignIsMinus(s) then -m.value else m.value)
  }

  /** Whether the first character after the leading white space is a minus sign. */
  predicate SignIsMinus(s: string) {
    var t := TrimStart(s);
    |t| > 0 && t[0] == '-'
  }

  /** `parseFloat` yields a number exactly when a digit (or a point and a digit) follows the white space and sign. */
  lemma ParseFloatDefinedIff(s: string)
    ensures ParseFloat(s).Finite? <==> StartsWithNumber(Unsigned(s))
  {
    var u := Unsigned(s);
    var ip := DigitPrefix(u);
    if |u| > 0 && IsDigit(u[0]) {
      assert |ip| > 0;
    } else if |u| > 1 && u[0] == '.' && IsDigit(u[1]) {
      assert ip == [];
      assert u[|ip|..] == u;
      assert |DigitPrefix(u[1..])| > 0;
    } else if |u| > 0 && u[0] != '.' {
      assert ip == [];
    } else if |u| > 0 {
      assert ip == [];
      assert u[|ip|..] == u;
      assert DigitPrefix(u[1..]) == [];
    }
  }

  /** A string of digits is its own longest digit prefix. */
  lemma {:induction false} DigitPrefixOfDigits(ds: string)
    requires AllDigits(ds)
    ensures DigitPrefix(ds) == ds
    decreases |ds|
  {
    if |ds| > 0 {
      DigitPrefixOfDigits(ds[1..]);
      assert ds == [ds[0]] + ds[1..];
    }
  }

  /** A digit string reads back as its own value. */
  lemma ParseUnsignedOfDigits(ds: string)
    requires |ds| > 0 && AllDigits(ds)
    ensures ParseUnsigned(ds) == Some(DigitsValue(ds) as real)
  {
    DigitPrefixOfDigits(ds);
    assert ds[|ds|..] == [];
    assert FractionValue([]) == 0.0;
    assert Scale(ExponentPart([])) == 1.0;
  }

  /** Decimal digits of a natural number, without leading zeros. */
  function NatToString(n: nat): (r: string)
    ensures |r| > 0 && AllDigits(r) && DigitsValue(r) == n
  {
    if n < 10 then [DigitChar(n)]
    else
      var p := NatToString(n / 10);
      var r := p + [DigitChar(n % 10)];
      assert r[..|r| - 1] == p;
      r
  }

  /** Up to `fuel` decimal digits of a fraction in [0, 1), stopping once nothing is left. */
  function FractionDigits(f: real, fuel: nat): string
    requires 0.0 <= f < 1.0
    decreases fuel
  {
    if fuel == 0 || f == 0.0 then []
    else
      var d := (f * 10.0).Floor;
      [DigitChar(d)] + FractionDigits(f * 10.0 - d as real, fuel - 1)
  }

  /** Positional notation of a non-negative value. */
  function Positional(x: real): string
    requires x >= 0.0
  {
    var i := x.Floor;
    var f := x - i as real;
    if f == 0.0 then NatToString(i) else NatToString(i) + "." + FractionDigits(f, MaxFractionDigits)
  }

  /** `String(n)` / `n.toString()` in positional notation. */
  function NumberToString(n: JsNumber): string {
    match n
    case NaN => "NaN"
    case Finite(x) => if x < 0.0 then "-" + Positional(-x) else Positional(x)
  }

  /** A whole value is written with its digits only. */
  lemma PositionalOfWhole(n: nat)
    ensures Positional(n as real) == NatToString(n)
  {
    assert (n as real).Floor == n;
  }

  /** What `parseFloat` reads once white space and sign are settled. */
  lemma ParseFloatFromUnsigned(s: string, m: real)
    requires ParseUnsigned(Unsigned(s)) == Some(m)
    ensures ParseFloat(s) == Finite(if SignIsMinus(s) then -m else m)
  {
  }

  /** White space and sign handling leave a digit string alone. */
  lemma UnsignedOfDigits(ds: string)
    requires |ds| > 0 && AllDigits(ds)
    ensures Unsigned(ds) == ds && !SignIsMinus(ds)
  {
    assert IsDigit(ds[0]);
    assert TrimStart(ds) == ds;
  }

  /** A minus sign in front of a digit string is read as the sign. */
  lemma UnsignedOfNegatedDigits(ds: string)
    requires |ds| > 0 && AllDigits(ds)
    ensures Unsigned("-" + ds) == ds && SignIsMinus("-" + ds)
  {
    var s := "-" + ds;
    assert s[0] == '-';
    assert TrimStart(s) == s;
    assert s[1..] == ds;
  }

  /** A digit string reads back as its value. */
  lemma ParseFloatOfDigits(ds: string)
    requires |ds| > 0 && AllDigits(ds)
    ensures ParseFloat(ds) == Finite(DigitsValue(ds) as real)
  {
    ParseUnsignedOfDigits(ds);
    UnsignedOfDigits(ds);
    ParseFloatFromUnsigned(ds, DigitsValue(ds) as real);
  }

  /** A minus sign and a digit string read back as the negated value. */
  lemma ParseFloatOfNegatedDigits(ds: string, s: string)
    requires |ds| > 0 && AllDigits(ds) && s == "-" + ds
    ensures ParseFloat(s) == Finite(-(DigitsValue(ds) as real))
  {
    ParseUnsignedOfDigits(ds);
    UnsignedOfNegatedDigits(ds);
    ParseFloatFromUnsigned(s, DigitsValue(ds) as real);
  }

  /**
   * A whole amount survives being rendered with `toString` and read back
   * with `parseFloat`: what the goal form relies on when a saved goal is
   * edited and saved again.
   */
  lemma {:induction false} WholeNumberRoundTrip(k: int)
    ensures ParseFloat(NumberToString(Finite(k as real))) == Finite(k as real)
  {
    if k < 0 {
      var n: nat := -k;
      PositionalOfWhole(n);
      var text := NumberToString(Finite(k as real));
      assert -(k as real) == n as real;
      assert text == "-" + Positional(n as real);
      ParseFloatOfNegatedDigits(NatToString(n), text);
    } else {
      var n: nat := k;
      PositionalOfWhole(n);
      ParseFloatOfDigits(NatToString(n));
      assert NumberToString(Finite(k as real)) == Positional(n as real);
    }
  }

  /** `NaN.toString()` reads back as NaN. */
  lemma NaNRoundTrip()
    ensures ParseFloat(NumberToString(NaN)) == NaN
  {
    var s := NumberToString(NaN);
    assert |s| > 0 && !IsWhiteSpace(s[0]) && s[0] != '-' && s[0] != '+';
    assert Unsigned(s) == s;
    assert !StartsWithNumber(s);
    ParseFloatDefinedIff(s);
  }

  /** The value of `a / b * 100` (or `a / b`): a rational, an infinity, or NaN. */
  datatype Quotient = Ratio(r: real) | PositiveInfinity | NegativeInfinity | NotANumber

  /** JavaScript `a / b` for finite `a`, `b`: the exact quotient, or an infinity or NaN when `b` is 0. */
  function Divide(a: real, b: real): (q: Quotient)
    ensures b != 0.0 ==> q.Ratio? && q.r * b == a
    ensures b == 0.0 ==> (q.NotANumber? <==> a == 0.0) && (q.PositiveInfinity? <==> a > 0.0)
                         && (q.NegativeInfinity? <==> a < 0.0)
  {
    if b != 0.0 then Ratio(a / b)
    else if a > 0.0 then PositiveInfinity
    else if a < 0.0 then NegativeInfinity
    else NotANumber
  }

  /** `q * c` for a positive constant `c`: infinities and NaN stay what they are. */
  function Times(q: Quotient, c: real): (r: Quotient)
    requires c > 0.0
    ensures q.Ratio? <==> r.Ratio?
    ensures q.Ratio? ==> r.r == q.r * c
    ensures !q.Ratio? ==> r == q
  {
    if q.Ratio? then Ratio(q.r * c) else q
  }

  /** JavaScript `a / b * 100`. */
  function Percent(a: real, b: real): (q: Quotient)
    ensures b != 0.0 ==> q.Ratio? && q.r * b == a * 100.0
    ensures b == 0.0 ==> (q.NotANumber? <==> a == 0.0) && (q.PositiveInfinity? <==> a > 0.0)
                         && (q.NegativeInfinity? <==> a < 0.0)
  {
    Times(Divide(a, b), 100.0)
  }

  /** `q < c` with JavaScript's comparison (false whenever NaN is involved). */
  predicate LessThan(q: Quotient, c: real) {
    match q
    case Ratio(r) => r < c
    case NegativeInfinity => true
    case _ => false
  }

  /** `q >= c` with JavaScript's comparison. */
  predicate AtLeast(q: Quotient, c: real) {
    match q
    case Ratio(r) => r >= c
    case PositiveInfinity => true
    case _ => false
  }

  /** `q > c` with JavaScript's comparison. */
  predicate GreaterThan(q: Quotient, c: real) {
    match q
    case Ratio(r) => r > c
    case PositiveInfinity => true
    case _ => false
  }
}
