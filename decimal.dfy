/**
 * Java's rendering of a non-negative `int` inside a string concatenation
 * (`"dff" + (i + 1)`, `CLOCK_TREE_NAME + ClockNetId`), and the parse that
 * inverts it, so that names built from distinct numbers are distinct.
 */
module Decimal {

  predicate IsDigit(c: char) {
    '0' <= c <= '9'
  }

  predicate AllDigits(s: string) {
    forall i :: 0 <= i < |s| ==> IsDigit(s[i])
  }

  function DigitChar(d: nat): (c: char)
    requires d < 10
    ensures IsDigit(c)
  {
    ('0' as int + d) as char
  }

  function DigitValue(c: char): (d: nat)
    requires IsDigit(c)
    ensures d < 10
  {
    c as int - '0' as int
  }

  /** Decimal digits of `n`, most significant first, without leading zeros. */
  function NatToString(n: nat): (s: string)
    ensures 1 <= |s|
    ensures AllDigits(s)
    ensures |s| > 1 ==> s[0] != '0'
  {
    if n < 10 then [DigitChar(n)] else NatToString(n / 10) + [DigitChar(n % 10)]
  }

  function ParseDigits(s: string): (n: nat)
    requires AllDigits(s)
  {
    if s == [] then 0 else ParseDigits(s[..|s| - 1]) * 10 + DigitValue(s[|s| - 1])
  }

  lemma {:induction false} ParseNatToString(n: nat)
    ensures ParseDigits(NatToString(n)) == n
  {
    var s := NatToString(n);
    if n >= 10 {
      assert s[..|s| - 1] == NatToString(n / 10);
      ParseNatToString(n / 10);
    }
  }

  lemma NatToStringInjective(a: nat, b: nat)
    requires NatToString(a) == NatToString(b)
    ensures a == b
  {
    ParseNatToString(a);
    ParseNatToString(b);
  }

  /** The length of the run of digits that ends a string. */
  function TrailingDigits(s: string): (n: nat)
    ensures n <= |s|
  {
    if s == [] || !IsDigit(s[|s| - 1]) then 0 else 1 + TrailingDigits(s[..|s| - 1])
  }

  /** A number appended after text that ends in a non-digit can be read back off the end. */
  lemma {:induction false} TrailingDigitsAfter(h: string, d: string)
    requires |h| >= 1 && !IsDigit(h[|h| - 1]) && AllDigits(d)
    ensures TrailingDigits(h + d) == |d|
  {
    if d == [] {
      assert h + d == h;
    } else {
      assert (h + d)[..|h + d| - 1] == h + d[..|d| - 1];
      TrailingDigitsAfter(h, d[..|d| - 1]);
    }
  }

  /** The two unit numbers of a dual-unit component render as single digits. */
  lemma UnitDigits()
    ensures NatToString(1) == "1" && NatToString(2) == "2"
    ensures NatToString(4) == "4" && NatToString(2) != NatToString(4)
  {
  }
}
