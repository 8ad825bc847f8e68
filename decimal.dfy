/**
 * Numbers as the two hosts print and read them: Python `%.Nf` / `f"{x:.Nf}"`,
 * JavaScript `toFixed(N)`, Python `float()` on decimal text, and the floor /
 * truncation helpers behind `//`, `%`, `int()` and `Math.floor`.
 * Values are exact reals; binary floating point rounding is not modelled.
 */
module Decimal {
  import opened Strings
  import opened Wrappers

  function Abs(x: real): (r: real)
    ensures r >= 0.0 && (r == x || r == -x)
  {
    if x < 0.0 then -x else x
  }

  /** Python `int(x)` and JavaScript `Math.trunc(x)`: rounding toward zero. */
  function Trunc(x: real): (n: int)
    ensures x >= 0.0 ==> n == x.Floor
    ensures Abs(n as real) <= Abs(x) < Abs(n as real) + 1.0
    ensures (n as real) * x >= 0.0
  {
    if x >= 0.0 then x.Floor else -((-x).Floor)
  }

  /** Python `x % b` for a positive float divisor (the remainder takes the divisor's sign). */
  function PyMod(x: real, b: real): (r: real)
    requires b > 0.0
    ensures 0.0 <= r < b
    ensures x == b * ((x / b).Floor as real) + r
  {
    var f := x / b;
    var q := f.Floor;
    assert x == b * f;
    MulLe(b, q as real, f);
    MulLe(b, f, q as real + 1.0);
    assert b * f != b * (q as real + 1.0);
    assert b * (q as real + 1.0) == b * (q as real) + b;
    assert b * f < b * (q as real) + b;
    assert x - b * (q as real) < b;
    x - b * (q as real)
  }

  lemma MulLe(b: real, u: real, v: real)
    requires b > 0.0 && u <= v
    ensures b * u <= b * v
  {
    assert b * v - b * u == b * (v - u);
  }

  /** JavaScript `x % b` for a positive divisor (the remainder takes the dividend's sign). */
  function JsRem(x: real, b: real): (r: real)
    requires b > 0.0
    ensures Abs(r) < b
    ensures x == b * (Trunc(x / b) as real) + r
    ensures x >= 0.0 ==> r >= 0.0
    ensures x < 0.0 ==> r <= 0.0
  {
    if x >= 0.0 then PyMod(x, b)
    else
      NegativeRem(x, b);
      -PyMod(-x, b)
  }

  /** For a negative dividend the truncated quotient is minus the floored quotient of `-x`. */
  lemma NegativeRem(x: real, b: real)
    requires x < 0.0 && b > 0.0
    ensures x == b * (Trunc(x / b) as real) - PyMod(-x, b)
  {
    var f := ((-x) / b).Floor;
    assert (-x) / b == -(x / b);
    assert Trunc(x / b) == -f;
    assert -x == b * (f as real) + PyMod(-x, b);
    assert b * ((-f) as real) == -(b * (f as real));
  }

  /** Nearest integer, ties to the even one: how Python's `%.Nf` rounds (of an exactly representable value). */
  function RoundHalfEven(x: real): (n: int)
    ensures -0.5 <= (n as real) - x <= 0.5
    ensures x >= 0.0 ==> n >= 0
    ensures (n as real) - x == 0.5 || (n as real) - x == -0.5 ==> n % 2 == 0
  {
    var f := x.Floor;
    var d := x - (f as real);
    if d < 0.5 then f else if d > 0.5 then f + 1 else if f % 2 == 0 then f else f + 1
  }

  /** Nearest integer, ties to the larger one: how JavaScript's `toFixed` rounds a non-negative value. */
  function RoundHalfUp(x: real): (n: int)
    ensures -0.5 < (n as real) - x <= 0.5
    ensures x >= 0.0 ==> n >= 0
  {
    (x + 0.5).Floor
  }

  lemma DivModNat(n: nat, p: nat)
    requires p >= 1
    ensures n / p >= 0 && 0 <= n % p < p && n == (n / p) * p + n % p
  {
  }

  /** `n / 10^places` written with exactly `places` fraction digits. */
  function FixedDigits(n: nat, places: nat): string
  {
    if places == 0 then NatToString(n)
    else
      var p := Pow10(places);
      DivModNat(n, p);
      NatToString(n / p) + "." + ZeroPad(NatToString(n % p), places)
  }

  /** Fixed-point text begins and ends with a digit. */
  lemma FixedDigitsFacts(n: nat, places: nat)
    ensures var r := FixedDigits(n, places); |r| >= 1 && IsDigit(r[0]) && IsDigit(r[|r| - 1])
  {
    var p := Pow10(places);
    DivModNat(n, p);
    var whole := NatToString(n / p);
    NatToStringFacts(n / p);
    NatToStringFacts(n % p);
    if places != 0 {
      var frac := ZeroPad(NatToString(n % p), places);
      ZeroPadFacts(NatToString(n % p), places);
      assert AllDigits(frac) && |frac| >= 1;
      var r := whole + "." + frac;
      assert r[0] == whole[0] && r[|r| - 1] == frac[|frac| - 1];
    }
  }

  /** `|x| * 10^places`, the magnitude counted in units of the last printed digit. */
  function Scaled(x: real, places: nat): (r: real)
    ensures r >= 0.0
  {
    var p := Pow10(places) as real;
    assert Abs(x) * p >= 0.0 by {
      assert Abs(x) * p == Abs(x) * (p - 1.0) + Abs(x);
    }
    Abs(x) * p
  }

  function Sign(x: real): string
  {
    if x < 0.0 then "-" else ""
  }

  /** Python `"%.{places}f" % x` on an exact value: a `-` exactly when `x` is negative, then the rounded magnitude. */
  function PyFixed(x: real, places: nat): (r: string)
  {
    Sign(x) + FixedDigits(EvenUnits(x, places), places)
  }

  /** `|x|` in units of the last of `places` digits, rounded half to even. */
  function EvenUnits(x: real, places: nat): nat
  {
    RoundHalfEven(Scaled(x, places))
  }

  /** JavaScript `x.toFixed(places)` for `|x| < 1e21`: sign, then the magnitude rounded half up. */
  function JsToFixed(x: real, places: nat): (r: string)
  {
    Sign(x) + FixedDigits(RoundHalfUp(Scaled(x, places)), places)
  }

  // ---------------------------------------------------------------- reading decimals

  /** Unsigned decimal text `digits`, `digits.`, `.digits` or `digits.digits`. */
  function ParseUnsignedDecimal(s: string): (r: Option<real>)
    ensures r.Some? ==> r.value >= 0.0
  {
    var parts := SplitOn(s, '.');
    if |parts| == 1 then
      if parts[0] != [] && AllDigits(parts[0]) then Some(DigitsValue(parts[0]) as real) else None
    else if |parts| == 2 && AllDigits(parts[0]) && AllDigits(parts[1]) && (parts[0] != [] || parts[1] != []) then
      Some(DecimalValue(parts[0], parts[1]))
    else None
  }

  /** The value of `whole.frac` for digit strings. */
  function DecimalValue(whole: string, frac: string): (v: real)
    requires AllDigits(whole) && AllDigits(frac)
    ensures v >= 0.0
  {
    var num := DigitsValue(frac) as real;
    var den := Pow10(|frac|) as real;
    assert num / den >= 0.0;
    DigitsValue(whole) as real + num / den
  }

  lemma {:induction false} ParseTwoParts(whole: string, frac: string)
    requires AllDigits(whole) && AllDigits(frac) && whole != []
    ensures ParseUnsignedDecimal(whole + "." + frac) == Some(DecimalValue(whole, frac))
  {
    assert Excludes(whole, '.') && Excludes(frac, '.');
    assert Join([whole, frac], ".") == whole + "." + frac;
    SplitOnJoin([whole, frac], '.');
  }

  /** Python `float(s)` on plain decimal text: surrounding whitespace, an optional sign, then an unsigned decimal. */
  function ParseFloat(s: string): (r: Option<real>)
  {
    var t := PyStrip(s);
    if t == [] then None
    else if t[0] == '-' then Negate(ParseUnsignedDecimal(t[1..]))
    else if t[0] == '+' then ParseUnsignedDecimal(t[1..])
    else ParseUnsignedDecimal(t)
  }

  function Negate(v: Option<real>): Option<real>
  {
    if v.Some? then Some(-v.value) else None
  }

  lemma {:induction false} StripUnchanged(s: string)
    requires s != [] && !IsPySpace(s[0]) && !IsPySpace(s[|s| - 1])
    ensures PyStrip(s) == s
  {
    StripWithUnchanged(s, IsPySpace);
  }

  lemma {:induction false} ParseNatText(n: nat)
    ensures ParseUnsignedDecimal(NatToString(n)) == Some(n as real)
  {
    var s := NatToString(n);
    NatToStringFacts(n);
    assert Excludes(s, '.');
    SplitOnJoin([s], '.');
    DigitsValueOfNatToString(n);
  }

  lemma {:induction false} ParseFixedDigits(n: nat, places: nat)
    ensures ParseUnsignedDecimal(FixedDigits(n, places)) == Some((n as real) / (Pow10(places) as real))
  {
    if places == 0 {
      assert (n as real) / (Pow10(0) as real) == n as real;
      ParseNatText(n);
    } else {
      ParseFixedFraction(n, places);
    }
  }

  lemma {:induction false} ParseFixedFraction(n: nat, places: nat)
    requires places > 0
    ensures ParseUnsignedDecimal(FixedDigits(n, places)) == Some((n as real) / (Pow10(places) as real))
  {
    var p := Pow10(places);
    DivModNat(n, p);
    ParseWholeFrac(n / p, n % p, places);
    DivideOut(n, p);
  }

  /** Whole digits, a point and `m` padded to `places` digits read back as `q + m / 10^places`. */
  lemma ParseWholeFrac(q: nat, m: nat, places: nat)
    requires places > 0 && m < Pow10(places)
    ensures ParseUnsignedDecimal(NatToString(q) + "." + ZeroPad(NatToString(m), places))
         == Some(q as real + (m as real) / (Pow10(places) as real))
  {
    var whole := NatToString(q);
    var frac := ZeroPad(NatToString(m), places);
    DigitsValueOfNatToString(q);
    DigitsValueOfNatToString(m);
    PadWidthExact(m, places);
    ZeroPadFacts(NatToString(m), places);
    assert |frac| == places;
    assert DigitsValue(whole) == q && DigitsValue(frac) == m;
    ParseTwoParts(whole, frac);
    assert DecimalValue(whole, frac) == q as real + (m as real) / (Pow10(places) as real);
  }

  lemma DivideOut(n: nat, p: nat)
    requires p >= 1
    ensures (n / p) as real + ((n % p) as real) / (p as real) == (n as real) / (p as real)
  {
    assert n == (n / p) * p + n % p;
    assert (n as real) == ((n / p) as real) * (p as real) + (n % p) as real;
  }

  /** The value Python's `%.Nf` prints: `x` rounded half to even at `places` fraction digits. */
  function RoundedTo(x: real, places: nat): real
  {
    var v := (EvenUnits(x, places) as real) / (Pow10(places) as real);
    if x < 0.0 then -v else v
  }

  lemma ParseNegativeText(r: string)
    requires |r| >= 2 && r[0] == '-' && IsDigit(r[1]) && IsDigit(r[|r| - 1])
    ensures ParseFloat(r) == Negate(ParseUnsignedDecimal(r[1..]))
  {
    StripUnchanged(r);
  }

  lemma ParsePlainText(r: string)
    requires r != [] && IsDigit(r[0]) && IsDigit(r[|r| - 1])
    ensures ParseFloat(r) == ParseUnsignedDecimal(r)
  {
    StripUnchanged(r);
  }

  lemma ParseNegativeDigits(n: nat, places: nat)
    ensures ParseFloat("-" + FixedDigits(n, places)) == Negate(Some((n as real) / (Pow10(places) as real)))
  {
    var body := FixedDigits(n, places);
    FixedDigitsFacts(n, places);
    var r := "-" + body;
    assert r[1..] == body;
    ParseNegativeText(r);
    ParseFixedDigits(n, places);
  }

  lemma ParsePlainDigits(n: nat, places: nat)
    ensures ParseFloat(FixedDigits(n, places)) == Some((n as real) / (Pow10(places) as real))
  {
    FixedDigitsFacts(n, places);
    ParsePlainText(FixedDigits(n, places));
    ParseFixedDigits(n, places);
  }

  /** Reading back what Python's `%.Nf` printed gives the value rounded to `places` digits. */
  lemma PyFixedRoundTrip(x: real, places: nat)
    ensures ParseFloat(PyFixed(x, places)) == Some(RoundedTo(x, places))
  {
    ParseSignedDigits(x < 0.0, EvenUnits(x, places), places);
  }

  /** A sign, when there is one, and the digits of `n` with `places` decimals read back as `±n / 10^places`. */
  lemma ParseSignedDigits(negative: bool, n: nat, places: nat)
    ensures var v := (n as real) / (Pow10(places) as real);
      ParseFloat((if negative then "-" else "") + FixedDigits(n, places)) == Some(if negative then -v else v)
  {
    if negative {
      ParseNegativeDigits(n, places);
    } else {
      assert "" + FixedDigits(n, places) == FixedDigits(n, places);
      ParsePlainDigits(n, places);
    }
  }
}
