/** Python numeric built-ins the backend uses: `max(0.0, min(1.0, x))`,
    `int(x)` on a float, `str(n)` on an int and `float(s)` on a string.
    Floats are modelled as exact `real`s. */
module PyNum {
  import opened Wrappers
  import PyText

  /** `max(0.0, min(1.0, x))`. */
  function Clamp01(x: real): (r: real)
    ensures 0.0 <= r <= 1.0
    ensures 0.0 <= x <= 1.0 ==> r == x
    ensures x < 0.0 ==> r == 0.0
    ensures x > 1.0 ==> r == 1.0
  {
    if x < 0.0 then 0.0 else if x > 1.0 then 1.0 else x
  }

  /** Clamping twice is clamping once, and clamping keeps order. */
  lemma Clamp01Properties(x: real, y: real)
    ensures Clamp01(Clamp01(x)) == Clamp01(x)
    ensures x <= y ==> Clamp01(x) <= Clamp01(y)
  {
  }

  /** `int(x)`: truncation toward zero (not Dafny's floor). */
  function Trunc(x: real): (r: int)
    ensures x >= 0.0 ==> r as real <= x < r as real + 1.0
    ensures x < 0.0 ==> r as real - 1.0 < x <= r as real
  {
    if x >= 0.0 then x.Floor else -((-x).Floor)
  }

  /** `float(x).is_integer()`. */
  predicate IsIntegral(x: real) {
    x.Floor as real == x
  }

  predicate IsDigit(c: char) {
    '0' <= c <= '9'
  }

  predicate AllDigits(s: string) {
    forall i :: 0 <= i < |s| ==> IsDigit(s[i])
  }

  function DigitChar(d: nat): char
    requires d < 10
  {
    ('0' as int + d) as char
  }

  function DigitValue(c: char): nat
    requires IsDigit(c)
  {
    c as int - '0' as int
  }

  function Pow10(n: nat): (r: nat)
    ensures r >= 1
  {
    if n == 0 then 1 else 10 * Pow10(n - 1)
  }

  /** The number a string of decimal digits denotes, most significant first. */
  function DigitsValue(s: string): nat
    requires AllDigits(s)
  {
    if |s| == 0 then 0 else 10 * DigitsValue(s[..|s| - 1]) + DigitValue(s[|s| - 1])
  }

  /** An n-digit string denotes a number below 10^n. */
  lemma {:induction false} DigitsValueBound(s: string)
    requires AllDigits(s)
    ensures DigitsValue(s) < Pow10(|s|)
    decreases |s|
  {
    if |s| > 0 {
      DigitsValueBound(s[..|s| - 1]);
    }
  }

  /** Moving a factor 10 from a sum onto the leading digit's weight. */
  lemma ShiftDigit(d: int, p: int, rest: int)
    ensures 10 * (d * p + rest) == d * (10 * p) + 10 * rest
  {
  }

  /** The leading digit weighs 10^(n-1) in an n-digit string. */
  lemma {:induction false} DigitsValueFront(s: string)
    requires AllDigits(s) && |s| > 0
    ensures DigitsValue(s) == DigitValue(s[0]) * Pow10(|s| - 1) + DigitsValue(s[1..])
    decreases |s|
  {
    if |s| > 1 {
      var init := s[..|s| - 1];
      DigitsValueFront(init);
      assert s[1..][..|s| - 2] == init[1..];
      var d0, dl, p := DigitValue(s[0]), DigitValue(s[|s| - 1]), Pow10(|s| - 2);
      assert DigitsValue(s[1..]) == 10 * DigitsValue(init[1..]) + dl;
      assert DigitsValue(init) == d0 * p + DigitsValue(init[1..]);
      assert Pow10(|s| - 1) == 10 * p;
      ShiftDigit(d0, p, DigitsValue(init[1..]));
    } else {
      assert s[..0] == [] && s[1..] == [];
    }
  }

  /** `str(n)` for a natural number: its shortest decimal spelling. */
  function NatToString(n: nat): (r: string)
    ensures |r| >= 1 && AllDigits(r)
    ensures |r| > 1 ==> r[0] != '0'
    decreases n
  {
    if n < 10 then [DigitChar(n)] else NatToString(n / 10) + [DigitChar(n % 10)]
  }

  /** `str(n)` for any int. */
  function IntToString(n: int): string {
    if n < 0 then "-" + NatToString(-n) else NatToString(n)
  }

  /** Reading back the digits of `str(n)` gives `n`. */
  lemma {:induction false} NatToStringRoundTrip(n: nat)
    ensures DigitsValue(NatToString(n)) == n
    decreases n
  {
    if n >= 10 {
      var s := NatToString(n);
      assert s[..|s| - 1] == NatToString(n / 10);
      NatToStringRoundTrip(n / 10);
    }
  }

  /** `str` is injective on naturals. */
  lemma NatToStringInjective(m: nat, n: nat)
    requires NatToString(m) == NatToString(n)
    ensures m == n
  {
    NatToStringRoundTrip(m);
    NatToStringRoundTrip(n);
  }

  /** The value of a plain decimal numeral `d+`, `d+.d*` or `.d+`, without sign. */
  function UnsignedDecimal(s: string): Option<real> {
    var dot := PyText.Find(s, '.');
    var whole := if dot < 0 then s else s[..dot];
    var frac := if dot < 0 then "" else s[dot + 1..];
    if AllDigits(whole) && AllDigits(frac) && |whole| + |frac| >= 1 then
      Some(DigitsValue(whole) as real + DigitsValue(frac) as real / Pow10(|frac|) as real)
    else
      None
  }

  /** `float(s)`, for the decimal numerals `[+|-]digits[.digits]` with surrounding
      whitespace; `None` stands for the `ValueError` it raises otherwise. */
  function ParseFloat(s: string): Option<real> {
    var t := PyText.Strip(s);
    if |t| > 0 && (t[0] == '-' || t[0] == '+') then
      match UnsignedDecimal(t[1..])
      case Some(v) => Some(if t[0] == '-' then -v else v)
      case None => None
    else
      UnsignedDecimal(t)
  }

  /** `float(str(n)) == n` for every natural `n`. */
  lemma ParseFloatNat(n: nat)
    ensures ParseFloat(NatToString(n)) == Some(n as real)
  {
    var s := NatToString(n);
    assert IsDigit(s[0]) && IsDigit(s[|s| - 1]);
    PyText.StripTrimmed(s);
    assert PyText.Strip(s) == s;
    assert PyText.Find(s, '.') < 0 by {
      assert forall k :: 0 <= k < |s| ==> s[k] != '.';
    }
    NatToStringRoundTrip(n);
    assert UnsignedDecimal(s) == Some(n as real + 0 as real / 1 as real);
  }

  /** A string that does not start with a sign, a digit or a dot after
      stripping is never a number. */
  lemma ParseFloatRejects(s: string)
    requires var t := PyText.Strip(s); |t| > 0 && !IsDigit(t[0]) && t[0] !in "+-."
    ensures ParseFloat(s) == None
  {
    var t := PyText.Strip(s);
    assert PyText.Find(t, '.') != 0;
  }
}
