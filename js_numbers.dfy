/**
 * The number-to-text and rounding steps the sources use: `${n}` for a
 * whole number, `x.toFixed(1)` and `Number(x.toFixed(2))`. Values are exact
 * reals; `toFixed` rounds half away from zero on the exact value, which is
 * what JavaScript does when the double holds the value exactly.
 */
module JsNumbers {

  predicate IsDigit(c: char) {
    '0' <= c <= '9'
  }

  function DigitChar(d: nat): (c: char)
    requires d < 10
    ensures IsDigit(c) && c as int - '0' as int == d
  {
    ('0' as int + d) as char
  }

  /** `${n}` for a whole number n >= 0: its decimal digits, no leading zero. */
  function NatToString(n: nat): (s: string)
    ensures |s| >= 1 && forall i | 0 <= i < |s| :: IsDigit(s[i])
    ensures |s| > 1 ==> s[0] != '0'
  {
    if n < 10 then [DigitChar(n)] else NatToString(n / 10) + [DigitChar(n % 10)]
  }

  /** The value a digit character stands for. */
  function DigitValue(c: char): (d: nat)
    requires IsDigit(c)
    ensures d < 10 && DigitChar(d) == c
  {
    (c as int - '0' as int) as nat
  }

  /** The number a string of decimal digits denotes (the reading `Number(s)` gives it). */
  function DigitsValue(s: string): nat
    requires forall i | 0 <= i < |s| :: IsDigit(s[i])
  {
    if s == [] then 0 else DigitsValue(s[..|s| - 1]) * 10 + DigitValue(s[|s| - 1])
  }

  /** Reading back the digits `${n}` writes gives n again. */
  lemma {:induction false} NatToStringRoundTrip(n: nat)
    ensures DigitsValue(NatToString(n)) == n
  {
    var s := NatToString(n);
    if n >= 10 {
      NatToStringRoundTrip(n / 10);
      assert s[..|s| - 1] == NatToString(n / 10);
    }
  }

  /** The whole number nearest to x, halves rounded up. */
  function RoundHalfUp(x: real): (n: nat)
    requires x >= 0.0
    ensures n as real - 0.5 <= x < n as real + 0.5
  {
    (x + 0.5).Floor
  }

  /** `x.toFixed(1)` for x >= 0 below 1e21. */
  function ToFixed1(x: real): (s: string)
    requires x >= 0.0
    ensures |s| >= 3 && s[|s| - 2] == '.' && IsDigit(s[|s| - 1])
  {
    var n := RoundHalfUp(x * 10.0);
    NatToString(n / 10) + "." + [DigitChar(n % 10)]
  }

  /** Digits, a point and one digit: the shape `toFixed(1)` writes. */
  predicate IsFixed1(s: string) {
    |s| >= 3 && s[|s| - 2] == '.' && (forall i | 0 <= i < |s| - 2 :: IsDigit(s[i])) && IsDigit(s[|s| - 1])
  }

  /** The number such a text denotes. */
  function Fixed1Value(s: string): real
    requires IsFixed1(s)
  {
    (DigitsValue(s[..|s| - 2]) * 10 + DigitValue(s[|s| - 1])) as real / 10.0
  }

  /** `x.toFixed(1)` read back lies within half a tenth of x. */
  lemma ToFixed1Close(x: real)
    requires x >= 0.0
    ensures IsFixed1(ToFixed1(x)) && x - 0.05 < Fixed1Value(ToFixed1(x)) <= x + 0.05
  {
    var n := RoundHalfUp(x * 10.0);
    var s := ToFixed1(x);
    assert s[..|s| - 2] == NatToString(n / 10);
    NatToStringRoundTrip(n / 10);
    assert DigitsValue(s[..|s| - 2]) * 10 + DigitValue(s[|s| - 1]) == n;
  }

  /** x.toFixed(2) as a whole number of hundredths. */
  function Cents(x: real): (c: nat)
    requires x >= 0.0
    ensures x - 0.005 < c as real / 100.0 <= x + 0.005
  {
    RoundHalfUp(x * 100.0)
  }

  /** `Number(x.toFixed(2))` for x >= 0: x rounded to hundredths. */
  function Round2(x: real): (r: real)
    requires x >= 0.0
    ensures r >= 0.0
    ensures x - 0.005 < r <= x + 0.005
  {
    Cents(x) as real / 100.0
  }

  /** Rounding to hundredths never reverses an order. */
  lemma Round2Monotone(x: real, y: real)
    requires 0.0 <= x <= y
    ensures Round2(x) <= Round2(y)
  {
    assert x * 100.0 <= y * 100.0;
    assert Cents(x) <= Cents(y) by {
      assert (x * 100.0 + 0.5).Floor <= (y * 100.0 + 0.5).Floor;
    }
  }

  /**
   * `${r}` for r = c / 100, a number `Number(x.toFixed(2))` produced: the
   * whole part, then the hundredths without trailing zeros (none at all when
   * r is whole), as JavaScript's shortest round-trip form writes it.
   */
  function CentsToString(c: nat): string {
    NatToString(c / 100) + (if c % 100 == 0 then "" else "." + CentsFraction(c % 100))
  }

  /** The digits after the point for hundredths 1..99, trailing zero dropped. */
  function CentsFraction(frac: nat): string
    requires 0 < frac < 100
  {
    if frac % 10 == 0 then [DigitChar(frac / 10)] else [DigitChar(frac / 10), DigitChar(frac % 10)]
  }

  /** The fraction digits are one or two digits, end in a non-zero digit, and read back as the hundredths. */
  lemma CentsFractionRoundTrip(frac: nat)
    requires 0 < frac < 100
    ensures var f := CentsFraction(frac);
      1 <= |f| <= 2 && (forall i | 0 <= i < |f| :: IsDigit(f[i])) && f[|f| - 1] != '0' &&
      (if |f| == 1 then DigitsValue(f) * 10 else DigitsValue(f)) == frac
  {
    var f := CentsFraction(frac);
    if |f| == 2 {
      assert f[..1] == [DigitChar(frac / 10)];
      assert DigitsValue(f[..1]) == frac / 10 by {
        assert f[..1][..0] == [];
      }
    } else {
      assert f[..0] == [];
    }
  }
}
