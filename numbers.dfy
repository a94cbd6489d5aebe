/** Decimal digits, natural numbers as text, and numbers with one fractional
    digit kept as a count of tenths (the progress percentage, which the server
    reads with `parseFloat` and writes with `JSON.stringify`). */
module Numbers {
  import opened Wrappers

  /** The regular-expression class `\d` without the `u` flag: ASCII digits only. */
  predicate IsDigit(c: char) {
    '0' <= c <= '9'
  }

  predicate AllDigits(s: string) {
    forall i :: 0 <= i < |s| ==> IsDigit(s[i])
  }

  function DigitValue(c: char): (d: nat)
    requires IsDigit(c)
    ensures d < 10
  {
    c as int - '0' as int
  }

  function DigitChar(d: nat): (c: char)
    requires d < 10
    ensures IsDigit(c) && DigitValue(c) == d
  {
    ('0' as int + d) as char
  }

  function Pow10(k: nat): (p: nat)
    ensures p >= 1
  {
    if k == 0 then 1 else 10 * Pow10(k - 1)
  }

  /** The value of a string of decimal digits, most significant first. */
  function DigitsValue(s: string): nat
    requires AllDigits(s)
  {
    if s == [] then 0 else DigitsValue(s[..|s| - 1]) * 10 + DigitValue(s[|s| - 1])
  }

  /** A string of k digits denotes a number below 10^k. */
  lemma {:induction false} DigitsValueBound(s: string)
    requires AllDigits(s)
    ensures DigitsValue(s) < Pow10(|s|)
  {
    if s != [] {
      DigitsValueBound(s[..|s| - 1]);
    }
  }

  /** The shortest decimal text of n, as JavaScript prints an integer. */
  function NatText(n: nat): (s: string)
    ensures |s| >= 1 && AllDigits(s)
    ensures |s| > 1 ==> s[0] != '0'
  {
    if n < 10 then [DigitChar(n)] else NatText(n / 10) + [DigitChar(n % 10)]
  }

  lemma {:induction false} NatTextRoundTrip(n: nat)
    ensures DigitsValue(NatText(n)) == n
  {
    if n >= 10 {
      var s := NatText(n);
      assert s[..|s| - 1] == NatText(n / 10);
      NatTextRoundTrip(n / 10);
    }
  }

  /** `parseFloat` restricted to the two shapes the server ever reads or
      writes: digits, or digits, a point and one digit. The result counts
      tenths. Anything else is rejected. */
  function DecimalTenths(s: string): (r: Option<nat>)
    ensures r.Some? ==> |s| >= 1 && IsDigit(s[0])
  {
    if |s| >= 3 && s[|s| - 2] == '.' && IsDigit(s[|s| - 1]) && AllDigits(s[..|s| - 2]) then
      Some(DigitsValue(s[..|s| - 2]) * 10 + DigitValue(s[|s| - 1]))
    else if |s| >= 1 && AllDigits(s) then
      Some(DigitsValue(s) * 10)
    else
      None
  }

  /** How `JSON.stringify` writes a number that is a whole count of tenths:
      12.5 as "12.5", 12.0 as "12". */
  function TenthsText(t: nat): (s: string)
    ensures |s| >= 1 && IsDigit(s[0])
    ensures forall i :: 0 <= i < |s| ==> IsDigit(s[i]) || s[i] == '.'
  {
    NatText(t / 10) + (if t % 10 == 0 then "" else ['.', DigitChar(t % 10)])
  }

  /** Reading back a printed count of tenths gives the same count. */
  lemma TenthsTextRoundTrip(t: nat)
    ensures DecimalTenths(TenthsText(t)) == Some(t)
  {
    var q := NatText(t / 10);
    NatTextRoundTrip(t / 10);
    var s := TenthsText(t);
    if t % 10 == 0 {
      assert s == q;
      assert |s| >= 2 ==> s[|s| - 2] != '.';
    } else {
      assert s[..|s| - 2] == q;
    }
  }

  /** A number written as one to three digits, a point and one digit is at
      most 999.9. */
  lemma ShortDecimalBound(s: string)
    requires 3 <= |s| <= 5 && DecimalTenths(s).Some? && s[|s| - 2] == '.'
    ensures DecimalTenths(s).value <= 9999
  {
    var d := s[..|s| - 2];
    DigitsValueBound(d);
    assert Pow10(|d|) <= 1000 by {
      assert Pow10(1) == 10 && Pow10(2) == 100 && Pow10(3) == 1000;
    }
  }
}
