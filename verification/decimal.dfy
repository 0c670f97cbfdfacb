/**
 * Decimal rendering of integers, as Python's `str(n)` and `"%0Nd" % n` produce
 * it, together with the parser that inverts it.
 */
module Decimal {
  import opened Wrappers

  predicate IsDigit(c: char) {
    '0' <= c <= '9'
  }

  predicate AllDigits(s: string) {
    forall i :: 0 <= i < |s| ==> IsDigit(s[i])
  }

  function DigitChar(d: nat): (c: char)
    requires d < 10
    ensures IsDigit(c)
  {
    ('0' as int + d) as char
  }

  function DigitValue(c: char): (d: nat)
    requires IsDigit(c)
    ensures d < 10
  {
    c as int - '0' as int
  }

  function Pow10(k: nat): (p: nat)
    ensures p >= 1
  {
    if k == 0 then 1 else 10 * Pow10(k - 1)
  }

  /** The digits of a natural number, most significant first. */
  function NatDigits(n: nat): (s: string)
    ensures 1 <= |s|
    ensures AllDigits(s)
    ensures s[0] == '0' ==> n == 0
    decreases n
  {
    if n < 10 then [DigitChar(n)] else NatDigits(n / 10) + [DigitChar(n % 10)]
  }

  /** `str(n)` for a Python int: a minus sign before the digits of `-n` when `n` is negative. */
  function DecimalString(n: int): string
  {
    if n < 0 then "-" + NatDigits(-n) else NatDigits(n)
  }

  /** `"%0{width}d" % n` for a number that fits in `width` digits. */
  function PaddedDigits(n: nat, width: nat): (s: string)
    requires n < Pow10(width)
    ensures |s| == width
    ensures AllDigits(s)
    decreases width
  {
    if width == 0 then "" else PaddedDigits(n / 10, width - 1) + [DigitChar(n % 10)]
  }

  /** The value of a string of decimal digits; the empty string reads as 0. */
  function ParseNat(s: string): nat
    requires AllDigits(s)
  {
    if |s| == 0 then 0 else 10 * ParseNat(s[..|s| - 1]) + DigitValue(s[|s| - 1])
  }

  /** `int(s)` on the strings `str` can produce: an optional minus sign, then at least one digit. */
  function ParseDecimal(s: string): Option<int>
  {
    if 0 < |s| && s[0] == '-' then
      if 1 < |s| && AllDigits(s[1..]) then Some(0 - ParseNat(s[1..]) as int) else None
    else if 0 < |s| && AllDigits(s) then Some(ParseNat(s))
    else None
  }

  lemma {:induction false} ParseNatDigits(n: nat)
    ensures ParseNat(NatDigits(n)) == n
    decreases n
  {
    if n >= 10 {
      var s := NatDigits(n);
      assert s[..|s| - 1] == NatDigits(n / 10);
      ParseNatDigits(n / 10);
    }
  }

  lemma ParseDecimalOfNat(n: nat)
    ensures ParseDecimal(NatDigits(n)) == Some(n)
  {
    ParseNatDigits(n);
  }

  lemma ParseDecimalOfNegative(m: nat)
    requires m > 0
    ensures ParseDecimal("-" + NatDigits(m)) == Some(-(m as int))
  {
    var s := "-" + NatDigits(m);
    assert s[1..] == NatDigits(m);
    ParseNatDigits(m);
  }

  /** Reading back `str(n)` gives `n`: the rendering loses nothing. */
  lemma DecimalRoundTrip(n: int)
    ensures ParseDecimal(DecimalString(n)) == Some(n)
  {
    if n < 0 {
      ParseDecimalOfNegative(-n);
    } else {
      ParseDecimalOfNat(n);
    }
  }

  /** Distinct integers render as distinct strings. */
  lemma DecimalInjective(a: int, b: int)
    requires DecimalString(a) == DecimalString(b)
    ensures a == b
  {
    DecimalRoundTrip(a);
    DecimalRoundTrip(b);
  }

  lemma {:induction false} ParsePadded(n: nat, width: nat)
    requires n < Pow10(width)
    ensures ParseNat(PaddedDigits(n, width)) == n
    decreases width
  {
    if width > 0 {
      var s := PaddedDigits(n, width);
      assert s[..|s| - 1] == PaddedDigits(n / 10, width - 1);
      ParsePadded(n / 10, width - 1);
    }
  }
}
