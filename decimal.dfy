/** Decimal text of integers: Python's int() on a run of ASCII digits and
    str() / f-string formatting of an int. Both the dataset-ID form (parsing)
    and the task's exit-code marker (formatting) rely on them. */
module Decimal {

  predicate IsDigit(c: char) { '0' <= c <= '9' }

  /** Every character is a digit (the empty string included). */
  predicate Digits(s: string) { forall i :: 0 <= i < |s| ==> IsDigit(s[i]) }

  /** A non-empty run of digits: what `\d+` matches. */
  predicate AllDigits(s: string) { |s| > 0 && Digits(s) }

  function DigitValue(c: char): (d: nat)
    requires IsDigit(c)
    ensures d < 10
  {
    c as int - '0' as int
  }

  function DigitChar(d: nat): (c: char)
    requires d < 10
    ensures IsDigit(c) && DigitValue(c) == d
  {
    ('0' as int + d) as char
  }

  /** int(s) for a string of digits, most significant digit first. */
  function ParseNat(s: string): nat
    requires Digits(s)
  {
    if s == [] then 0 else 10 * ParseNat(s[..|s| - 1]) + DigitValue(s[|s| - 1])
  }

  /** str(n) for a natural number: digits only, and no leading zero except for 0 itself. */
  function NatToDecimal(n: nat): (s: string)
    ensures AllDigits(s)
    ensures s[0] == '0' <==> n == 0
    ensures n < 10 <==> |s| == 1
  {
    if n < 10 then [DigitChar(n)] else NatToDecimal(n / 10) + [DigitChar(n % 10)]
  }

  /** str(i) for any integer: a minus sign in front of negative values. */
  function IntToString(i: int): (s: string)
    ensures |s| > 0
    ensures s[0] == '-' <==> i < 0
  {
    if i < 0 then "-" + NatToDecimal(-i) else NatToDecimal(i)
  }

  /** int(str(n)) == n. */
  lemma {:induction false} ParseNatToDecimal(n: nat)
    ensures ParseNat(NatToDecimal(n)) == n
  {
    var s := NatToDecimal(n);
    if n >= 10 {
      var p := NatToDecimal(n / 10);
      assert s[..|s| - 1] == p;
      ParseNatToDecimal(n / 10);
    } else {
      assert s[..|s| - 1] == [];
    }
  }

  /** Different integers print differently, so a printed exit code can be read back. */
  lemma {:induction false} IntToStringInjective(a: int, b: int)
    requires IntToString(a) == IntToString(b)
    ensures a == b
  {
    if a < 0 && b < 0 {
      var sa, sb := NatToDecimal(-a), NatToDecimal(-b);
      assert sa == IntToString(a)[1..] && sb == IntToString(b)[1..];
      ParseNatToDecimal(-a);
      ParseNatToDecimal(-b);
    } else if a >= 0 && b >= 0 {
      ParseNatToDecimal(a);
      ParseNatToDecimal(b);
    }
  }

  /** int() ignores a leading zero: int("0" + s) == int(s). */
  lemma {:induction false} ParseNatLeadingZero(s: string)
    requires Digits(s)
    ensures Digits("0" + s) && ParseNat("0" + s) == ParseNat(s)
  {
    var z := "0" + s;
    if s != [] {
      assert z[..|z| - 1] == "0" + s[..|s| - 1];
      assert z[|z| - 1] == s[|s| - 1];
      ParseNatLeadingZero(s[..|s| - 1]);
    }
  }
}
