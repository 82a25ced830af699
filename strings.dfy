/** Decimal rendering of integers, as Swift string interpolation writes them. */
module Strings {
  function DigitChar(d: nat): (c: char)
    requires d < 10
    ensures '0' <= c <= '9'
    ensures DigitValue(c) == d
  {
    ['0', '1', '2', '3', '4', '5', '6', '7', '8', '9'][d]
  }

  /** The value of one decimal digit. */
  function DigitValue(c: char): int
  {
    c as int - '0' as int
  }

  /** The number a string of decimal digits spells, read most significant first. */
  function Value(s: string): int
  {
    if |s| == 0 then 0 else Value(s[..|s| - 1]) * 10 + DigitValue(s[|s| - 1])
  }

  /** The number an optionally signed string of decimal digits spells. */
  function SignedValue(s: string): int
  {
    if |s| > 0 && s[0] == '-' then -Value(s[1..]) else Value(s)
  }

  /** `"\(n)"` for a non-negative `n`: its decimal digits, most significant first, with no leading zero. */
  function NatToString(n: nat): (s: string)
    ensures |s| > 0
    ensures forall i :: 0 <= i < |s| ==> '0' <= s[i] <= '9'
    ensures s[0] == '0' <==> n == 0
    decreases n
  {
    if n < 10 then [DigitChar(n)] else NatToString(n / 10) + [DigitChar(n % 10)]
  }

  /** `"\(n)"`: a minus sign before the digits of a negative number. */
  function IntToString(n: int): (s: string)
    ensures |s| > 0
    ensures s[0] == '-' <==> n < 0
  {
    if n < 0 then "-" + NatToString(-n) else NatToString(n)
  }

  /** The digits `NatToString` writes spell `n` back. */
  lemma {:induction false} DecimalValue(n: nat)
    ensures Value(NatToString(n)) == n
    decreases n
  {
    var s := NatToString(n);
    if n < 10 {
      assert s[..|s| - 1] == [];
    } else {
      DecimalValue(n / 10);
      assert s[..|s| - 1] == NatToString(n / 10);
    }
  }

  /** The string `IntToString` writes spells `n` back, sign included. */
  lemma IntDecimalValue(n: int)
    ensures SignedValue(IntToString(n)) == n
  {
    if n < 0 {
      DecimalValue(-n);
      assert IntToString(n)[1..] == NatToString(-n);
    } else {
      DecimalValue(n);
    }
  }
}
