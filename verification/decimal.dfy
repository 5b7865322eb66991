/**
 * Java's 64-bit `long`, its truncating division and its decimal rendering
 * (`Long.toString`, which `StringBuilder.append(long)` uses), together with
 * the parser that reads a rendering back.
 */
module Decimal {

  /** The values of a Java `long`. */
  type Long = x: int | -0x8000_0000_0000_0000 <= x < 0x8000_0000_0000_0000

  /** Java's integer `/`: the quotient is rounded toward zero, not down. */
  function TruncDiv(a: int, b: int): (q: int)
    requires b > 0
    ensures a >= 0 ==> 0 <= a - q * b < b
    ensures a < 0 ==> -b < a - q * b <= 0
  {
    if a >= 0 then a / b else -((-a) / b)
  }

  predicate IsDigit(c: char) {
    '0' <= c <= '9'
  }

  predicate AllDigits(s: string) {
    forall i :: 0 <= i < |s| ==> IsDigit(s[i])
  }

  function DigitValue(c: char): (d: nat)
    requires IsDigit(c)
    ensures d < 10
  {
    c as int - '0' as int
  }

  function DigitChar(d: nat): (c: char)
    requires d < 10
    ensures IsDigit(c) && DigitValue(c) == d
  {
    ('0' as int + d) as char
  }

  /** The decimal digits of `n`, most significant first, without leading zeros. */
  function NatToString(n: nat): (s: string)
    ensures |s| >= 1 && AllDigits(s)
    ensures s[0] == '0' <==> n == 0
    ensures s[0] == '0' ==> s == "0"
    decreases n
  {
    if n < 10 then [DigitChar(n)] else NatToString(n / 10) + [DigitChar(n % 10)]
  }

  /** Reads a non-empty run of decimal digits. */
  function ParseNat(s: string): nat
    requires |s| >= 1 && AllDigits(s)
    decreases |s|
  {
    if |s| == 1 then DigitValue(s[0])
    else 10 * ParseNat(s[..|s| - 1]) + DigitValue(s[|s| - 1])
  }

  lemma {:induction false} ParseNatToString(n: nat)
    ensures ParseNat(NatToString(n)) == n
    decreases n
  {
    if n >= 10 {
      var s := NatToString(n);
      assert s[..|s| - 1] == NatToString(n / 10);
      ParseNatToString(n / 10);
    }
  }

  /** A well-formed `long` rendering: optional minus sign, then at least one digit. */
  predicate IsLongText(s: string) {
    if |s| >= 1 && s[0] == '-' then |s| >= 2 && AllDigits(s[1..]) else |s| >= 1 && AllDigits(s)
  }

  /**
   * `Long.toString`: a minus sign for negative values, then the digits of
   * the magnitude, never with a leading zero (so no `-0` and no `007`).
   */
  function LongToString(x: Long): (s: string)
    ensures IsLongText(s)
    ensures s[0] == '-' <==> x < 0
    ensures x >= 0 ==> (s[0] == '0' ==> s == "0")
    ensures x < 0 ==> s[1] != '0'
  {
    if x < 0 then "-" + NatToString(-(x as int)) else NatToString(x)
  }

  function ParseLong(s: string): int
    requires IsLongText(s)
  {
    if s[0] == '-' then -(ParseNat(s[1..]) as int) else ParseNat(s)
  }

  /** A `long` rendering holds nothing but digits and a leading minus sign. */
  lemma {:induction false} LongTextExcludes(s: string, c: char)
    requires IsLongText(s)
    requires !IsDigit(c) && c != '-'
    ensures c !in s
  {
  }

  /** Reading a rendered `long` back gives the original value. */
  lemma {:induction false} LongToStringReadsBack(x: Long)
    ensures ParseLong(LongToString(x)) == x
  {
    if x < 0 {
      assert LongToString(x)[1..] == NatToString(-(x as int));
      ParseNatToString(-(x as int));
    } else {
      ParseNatToString(x);
    }
  }
}
