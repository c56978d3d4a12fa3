/**
 * Python's `int(s)` and `float(s)` on strings, restricted to plain decimal
 * numerals: an optional sign, then digits, with (for `float`) at most one
 * decimal point and at least one digit on either side of it.
 */
module Numerals {
  import opened Wrappers

  predicate IsDigit(c: char) { '0' <= c <= '9' }

  function DigitValue(c: char): (d: nat)
    requires IsDigit(c)
    ensures d < 10
  {
    (c as int) - ('0' as int)
  }

  predicate AllDigits(s: string) { forall i | 0 <= i < |s| :: IsDigit(s[i]) }

  /** The value of a run of decimal digits, most significant digit first. */
  function DigitsValue(s: string): nat
    requires AllDigits(s)
  {
    if s == [] then 0 else DigitsValue(s[..|s| - 1]) * 10 + DigitValue(s[|s| - 1])
  }

  function Pow10(n: nat): (p: nat)
    ensures p >= 1
  {
    if n == 0 then 1 else 10 * Pow10(n - 1)
  }

  predicate HasSign(s: string) { |s| > 0 && (s[0] == '-' || s[0] == '+') }

  predicate Negative(s: string) { |s| > 0 && s[0] == '-' }

  /** The numeral without its sign. */
  function Unsigned(s: string): string
  {
    if HasSign(s) then s[1..] else s
  }

  function Signed(negative: bool, m: real): real
  {
    if negative then -m else m
  }

  /** The position of the first decimal point. */
  function IndexOfDot(s: string): (k: nat)
    requires '.' in s
    ensures k < |s| && s[k] == '.'
    ensures forall j | 0 <= j < k :: s[j] != '.'
  {
    if s[0] == '.' then 0 else IndexOfDot(s[1..]) + 1
  }

  /** A run of `n` digits is worth less than `10^n`. */
  lemma {:induction false} DigitsValueBelow(s: string)
    requires AllDigits(s)
    ensures DigitsValue(s) < Pow10(|s|)
  {
    if s != [] {
      var init := s[..|s| - 1];
      assert AllDigits(init);
      DigitsValueBelow(init);
    }
  }

  /** A whole part plus a proper fraction has that whole part as its floor. */
  lemma FractionFloor(w: nat, f: nat, p: nat)
    requires f < p
    ensures 0.0 <= w as real + f as real / p as real
    ensures (w as real + f as real / p as real).Floor == w
  {
    var q := f as real / p as real;
    assert q * p as real == f as real;
    assert 0.0 <= q < 1.0;
  }

  /**
   * `int(s)`: None where Python raises ValueError, that is, unless the
   * numeral has digits after its sign and nothing else; the sign decides the
   * sign of the result.
   */
  function ParseInt(s: string): (r: Option<int>)
    ensures r.Some? <==> |Unsigned(s)| > 0 && AllDigits(Unsigned(s))
    ensures r.Some? && r.value < 0 ==> Negative(s)
    ensures r.Some? && Negative(s) ==> r.value <= 0
  {
    var u := Unsigned(s);
    if |u| > 0 && AllDigits(u) then
      var n: int := DigitsValue(u);
      Some(if Negative(s) then -n else n)
    else
      None
  }

  /**
   * The magnitude of an unsigned decimal numeral with an optional fraction:
   * never negative, and its whole part is the digits before the point.
   */
  function ParseMagnitude(u: string): (r: Option<real>)
    ensures r.Some? ==> 0.0 <= r.value
    ensures r.Some? && '.' in u ==>
      AllDigits(u[..IndexOfDot(u)]) && r.value.Floor == DigitsValue(u[..IndexOfDot(u)])
    ensures '.' !in u ==>
      (r.Some? <==> |u| > 0 && AllDigits(u)) &&
      (r.Some? ==> r.value == DigitsValue(u) as real)
  {
    if '.' in u then
      var k := IndexOfDot(u);
      var whole := u[..k];
      var frac := u[k + 1..];
      if AllDigits(whole) && AllDigits(frac) && |whole| + |frac| > 0 then
        DigitsValueBelow(frac);
        FractionFloor(DigitsValue(whole), DigitsValue(frac), Pow10(|frac|));
        Some(DigitsValue(whole) as real + DigitsValue(frac) as real / Pow10(|frac|) as real)
      else
        None
    else if |u| > 0 && AllDigits(u) then
      Some(DigitsValue(u) as real)
    else
      None
  }

  /**
   * `float(s)`: None where Python raises ValueError. It accepts every
   * numeral `int` accepts, with the same value, and the sign decides the
   * sign of the result.
   */
  function ParseFloat(s: string): (r: Option<real>)
    ensures ParseInt(s).Some? ==> r == Some(ParseInt(s).value as real)
    ensures r.Some? && r.value < 0.0 ==> Negative(s)
    ensures r.Some? && Negative(s) ==> r.value <= 0.0
  {
    match ParseMagnitude(Unsigned(s))
    case None => None
    case Some(m) => Some(Signed(Negative(s), m))
  }

  /** `str(n)`: the inverse of the parsers on integers. */
  function DigitChar(d: nat): (c: char)
    requires d < 10
    ensures IsDigit(c) && DigitValue(c) == d
  {
    ('0' as int + d) as char
  }

  function ShowNat(n: nat): (s: string)
    ensures |s| > 0 && AllDigits(s)
    ensures s[0] != '-' && s[0] != '+' && '.' !in s
  {
    if n < 10 then [DigitChar(n)] else ShowNat(n / 10) + [DigitChar(n % 10)]
  }

  function ShowInt(n: int): string
  {
    if n < 0 then "-" + ShowNat(-n) else ShowNat(n)
  }

  lemma {:induction false} DigitsValueOfShowNat(n: nat)
    ensures DigitsValue(ShowNat(n)) == n
  {
    if n >= 10 {
      var s := ShowNat(n);
      assert s[..|s| - 1] == ShowNat(n / 10);
      DigitsValueOfShowNat(n / 10);
    }
  }

  /** `int(str(n)) == n` */
  lemma ParseIntOfShowInt(n: int)
    ensures ParseInt(ShowInt(n)) == Some(n)
  {
    if n < 0 {
      assert Unsigned(ShowInt(n)) == ShowNat(-n);
      DigitsValueOfShowNat(-n);
    } else {
      DigitsValueOfShowNat(n);
    }
  }

  /**
   * Without a decimal point, the restricted `float(s)` succeeds exactly when
   * `int(s)` does, with the same value (Python's own `float` also takes
   * exponents, "inf" and "nan", which this grammar leaves out).
   */
  lemma ParseFloatWithoutDot(s: string)
    requires '.' !in s
    ensures ParseFloat(s).Some? <==> ParseInt(s).Some?
    ensures ParseInt(s).Some? ==> ParseFloat(s).value == ParseInt(s).value as real
  {
  }

  /** `float(str(n)) == n` */
  lemma ParseFloatOfShowInt(n: int)
    ensures ParseFloat(ShowInt(n)) == Some(n as real)
  {
    assert '.' !in ShowInt(n) by {
      if n < 0 {
        var s := ShowNat(-n);
        forall j | 0 <= j < |ShowInt(n)| ensures ShowInt(n)[j] != '.' {
          if j > 0 { assert ShowInt(n)[j] == s[j - 1]; }
        }
      }
    }
    ParseFloatWithoutDot(ShowInt(n));
    ParseIntOfShowInt(n);
  }
}
