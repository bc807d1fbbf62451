/**
 * Decimal numbers as Python's decimal module represents and prints them: a sign, an
 * integer coefficient and an exponent. Equal numbers can have different texts.
 */
module Decimals {
  import opened Wrappers

  function Pow10(n: nat): (p: nat)
    ensures p >= 1
  {
    if n == 0 then 1 else 10 * Pow10(n - 1)
  }

  datatype Decimal = Decimal(negative: bool, coefficient: nat, exponent: int) {
    function Signed(): int {
      var c: int := coefficient;
      if negative then -c else c
    }

    function Value(): real {
      if exponent >= 0 then (Signed() * Pow10(exponent)) as real else Signed() as real / Pow10(-exponent) as real
    }

    /** The integer this number equals, if it equals one. */
    function Integral(): Option<int> {
      if Value().Floor as real == Value() then Some(Value().Floor) else None
    }

    /** Written without sign, point or exponent. */
    predicate Plain() {
      !negative && exponent == 0
    }

    function Str(): string {
      var digits := Digits(coefficient);
      var left := exponent + |digits|;
      var point := if exponent <= 0 && left > -6 then left else 1;
      (if negative then "-" else "")
        + (if point <= 0 then "0." + Zeros(-point) + digits
           else if point >= |digits| then digits + Zeros(point - |digits|)
           else digits[..point] + "." + digits[point..])
        + (if left == point then "" else "E" + SignedDigits(left - point))
    }
  }

  function FromInt(n: int): Decimal {
    Decimal(n < 0, if n < 0 then -n else n, 0)
  }

  function Digit(d: nat): char
    requires d < 10
  {
    "0123456789"[d]
  }

  function Digits(n: nat): (s: string)
    ensures s != []
  {
    if n < 10 then [Digit(n)] else Digits(n / 10) + [Digit(n % 10)]
  }

  function SignedDigits(n: int): string {
    if n < 0 then "-" + Digits(-n) else "+" + Digits(n)
  }

  function Zeros(n: nat): string {
    seq(n, i => '0')
  }

  predicate AllDigits(s: string) {
    forall i :: 0 <= i < |s| ==> '0' <= s[i] <= '9'
  }

  lemma {:induction false} DigitsAreDigits(n: nat)
    ensures AllDigits(Digits(n))
  {
    if n >= 10 {
      DigitsAreDigits(n / 10);
    }
  }

  /** A nonnegative decimal without exponent prints as its digits. */
  lemma PlainText(d: Decimal)
    requires d.Plain()
    ensures d.Str() == Digits(d.coefficient)
  {
  }

  /** Any other decimal prints a sign, a point or an exponent. */
  lemma OtherText(d: Decimal)
    requires !d.Plain()
    ensures !AllDigits(d.Str())
  {
    var digits := Digits(d.coefficient);
    var left := d.exponent + |digits|;
    var point := if d.exponent <= 0 && left > -6 then left else 1;
    if d.negative {
      assert d.Str()[0] == '-';
    } else if left != point {
      assert 'E' in d.Str();
    } else {
      assert '.' in d.Str();
    }
  }

  /**
   * Of the decimals equal to an integer, only the plain one prints as that integer: a
   * trailing ".0", a minus sign before zero or an exponent changes the text.
   */
  lemma PrintsAsIntegerExactly(d: Decimal, n: nat)
    requires d.Integral() == Some(n)
    ensures d.Str() == FromInt(n).Str() <==> d.Plain()
  {
    PlainText(FromInt(n));
    DigitsAreDigits(n);
    if d.Plain() {
      assert Pow10(0) == 1;
      assert d.Value() == d.coefficient as real;
    } else {
      OtherText(d);
    }
  }
}
