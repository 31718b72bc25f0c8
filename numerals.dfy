/** Decimal rendering of integers, as `std::to_string` produces it, and the
    parsers that read such text back. Every sequence builder in the ANSI core
    and `Range::toString` render their numbers through these functions. */
module Numerals {

  predicate IsDigit(c: char) { '0' <= c <= '9' }

  predicate AllDigits(s: string) { forall i :: 0 <= i < |s| ==> IsDigit(s[i]) }

  function DigitValue(c: char): (d: nat)
    requires IsDigit(c)
    ensures d < 10
  {
    c as int - '0' as int
  }

  function DigitChar(d: nat): (c: char)
    requires d < 10
    ensures IsDigit(c) && DigitValue(c) == d
  {
    (d + '0' as int) as char
  }

  /** `std::to_string(n)` for an unsigned `n`: the shortest decimal numeral,
      so no leading zero except for the numeral "0" itself. */
  function Decimal(n: nat): (r: string)
    ensures |r| >= 1 && AllDigits(r)
    ensures r[0] == '0' ==> n == 0 && r == "0"
    decreases n
  {
    if n < 10 then [DigitChar(n)] else Decimal(n / 10) + [DigitChar(n % 10)]
  }

  /** The value of a string of decimal digits (the empty string reads as 0). */
  function ParseDecimal(s: string): nat
    requires AllDigits(s)
  {
    if s == [] then 0 else 10 * ParseDecimal(s[..|s| - 1]) + DigitValue(s[|s| - 1])
  }

  /** Reading a rendered numeral back gives the number that was rendered. */
  lemma {:induction false} ParseDecimalOfDecimal(n: nat)
    ensures ParseDecimal(Decimal(n)) == n
  {
    var r := Decimal(n);
    if n < 10 {
      assert r[..|r| - 1] == [];
    } else {
      ParseDecimalOfDecimal(n / 10);
      assert r[..|r| - 1] == Decimal(n / 10);
    }
  }

  /** Distinct numbers are rendered as distinct numerals. */
  lemma DecimalInjective(m: nat, n: nat)
    requires Decimal(m) == Decimal(n)
    ensures m == n
  {
    ParseDecimalOfDecimal(m);
    ParseDecimalOfDecimal(n);
  }

  /** `std::to_string(x)` for a signed `x`: a minus sign before the numeral of |x|. */
  function IntText(x: int): (r: string)
    ensures |r| >= 1 && r[|r| - 1] != '-'
    ensures forall i :: 0 <= i < |r| ==> IsDigit(r[i]) || (i == 0 && r[i] == '-' && x < 0)
  {
    if x < 0 then "-" + Decimal(-x) else Decimal(x)
  }

  /** A well-formed signed numeral: an optional minus sign, then digits. */
  predicate IsIntText(s: string)
  {
    |s| >= 1 && (if s[0] == '-' then |s| >= 2 && AllDigits(s[1..]) else AllDigits(s))
  }

  function ParseInt(s: string): int
    requires IsIntText(s)
  {
    if s[0] == '-' then -(ParseDecimal(s[1..]) as int) else ParseDecimal(s)
  }

  lemma ParseIntOfIntText(x: int)
    ensures IsIntText(IntText(x)) && ParseInt(IntText(x)) == x
  {
    if x < 0 {
      assert IntText(x)[1..] == Decimal(-x);
      ParseDecimalOfDecimal(-x);
    } else {
      ParseDecimalOfDecimal(x);
    }
  }
}
