/** Decimal rendering of numbers, as JavaScript's `${n}` and `n.toString()`
    produce it for integers, together with a reader for digit strings that
    inverts it. */
module Decimal {

  predicate IsDigit(c: char)
  {
    '0' <= c <= '9'
  }

  predicate IsDigits(s: string)
  {
    forall k :: 0 <= k < |s| ==> IsDigit(s[k])
  }

  function DigitChar(d: nat): (c: char)
    requires d < 10
    ensures IsDigit(c) && c as int - '0' as int == d
  {
    ('0' as int + d) as char
  }

  /** The shortest decimal numeral of `n`. */
  function NatToString(n: nat): (s: string)
    ensures |s| >= 1 && IsDigits(s)
    ensures (|s| == 1) == (n < 10)
    decreases n
  {
    if n < 10 then [DigitChar(n)] else NatToString(n / 10) + [DigitChar(n % 10)]
  }

  /** A JavaScript integer in a template literal: a leading '-' for negatives. */
  function IntToString(i: int): (s: string)
    ensures i >= 0 ==> s == NatToString(i)
    ensures i < 0 ==> s == "-" + NatToString(-i)
  {
    if i < 0 then "-" + NatToString(-i) else NatToString(i)
  }

  /** The value of a string of decimal digits. */
  function ParseNat(s: string): nat
    requires IsDigits(s)
  {
    if s == [] then 0
    else ParseNat(s[..|s| - 1]) * 10 + (s[|s| - 1] as int - '0' as int)
  }

  /** Reading back a rendered numeral gives the number. */
  lemma {:induction false} ParseNatToString(n: nat)
    ensures ParseNat(NatToString(n)) == n
    decreases n
  {
    var s := NatToString(n);
    if n < 10 {
      assert s[..0] == [];
    } else {
      ParseNatToString(n / 10);
      assert s[..|s| - 1] == NatToString(n / 10);
    }
  }

  /** Distinct numbers have distinct numerals. */
  lemma NatToStringInjective(a: nat, b: nat)
    requires a != b
    ensures NatToString(a) != NatToString(b)
  {
    ParseNatToString(a);
    ParseNatToString(b);
  }

  /** Distinct integers are written differently: a numeral never starts with
      the '-' of a negative number. */
  lemma IntToStringInjective(a: int, c: int)
    requires a != c
    ensures IntToString(a) != IntToString(c)
  {
    if a >= 0 && c >= 0 {
      NatToStringInjective(a, c);
    } else if a < 0 && c < 0 {
      NatToStringInjective(-a, -c);
      assert IntToString(a)[1..] == NatToString(-a);
      assert IntToString(c)[1..] == NatToString(-c);
    } else if a < 0 {
      assert IntToString(a)[0] == '-' && IsDigit(IntToString(c)[0]);
    } else {
      assert IntToString(c)[0] == '-' && IsDigit(IntToString(a)[0]);
    }
  }
}
