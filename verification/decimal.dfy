/**
 * Decimal rendering of naturals, as Python's f-string interpolation of an int
 * produces it, and the parser that inverts it.
 */
module Decimal {

  predicate IsDigit(c: char) {
    '0' <= c <= '9'
  }

  predicate IsDigits(s: string) {
    forall i :: 0 <= i < |s| ==> IsDigit(s[i])
  }

  function DigitChar(d: nat): (c: char)
    requires d < 10
    ensures IsDigit(c) && c as int - '0' as int == d
  {
    ('0' as int + d) as char
  }

  function DigitValue(c: char): (d: nat)
    requires IsDigit(c)
    ensures d < 10 && DigitChar(d) == c
  {
    c as int - '0' as int
  }

  /** The canonical decimal form of n: non-empty, digits only, no leading zero. */
  function NatToString(n: nat): (s: string)
    ensures |s| > 0 && IsDigits(s)
    ensures s[0] == '0' ==> n == 0
    decreases n
  {
    if n < 10 then [DigitChar(n)] else NatToString(n / 10) + [DigitChar(n % 10)]
  }

  /** The value of a string of decimal digits, most significant first. */
  function ParseNat(s: string): nat
    requires IsDigits(s)
    decreases |s|
  {
    if s == [] then 0 else ParseNat(s[..|s| - 1]) * 10 + DigitValue(s[|s| - 1])
  }

  lemma {:induction false} ParseNatToString(n: nat)
    ensures ParseNat(NatToString(n)) == n
    decreases n
  {
    if n >= 10 {
      var s := NatToString(n);
      assert s[..|s| - 1] == NatToString(n / 10);
      ParseNatToString(n / 10);
    }
  }

  /**
   * A non-empty digit string without a leading zero is the rendering of its
   * own value: such a string is the only one that denotes its number.
   */
  lemma {:induction false} CanonicalDigits(s: string)
    requires |s| > 0 && IsDigits(s) && s[0] != '0'
    ensures NatToString(ParseNat(s)) == s
    decreases |s|
  {
    var c := s[|s| - 1];
    if |s| > 1 {
      var t := s[..|s| - 1];
      CanonicalDigits(t);
      var m := ParseNat(t);
      assert m != 0;
      var n := ParseNat(s);
      assert n / 10 == m && n % 10 == DigitValue(c);
      assert s == t + [c];
    }
  }

  lemma NatToStringInjective(m: nat, n: nat)
    ensures NatToString(m) == NatToString(n) <==> m == n
  {
    ParseNatToString(m);
    ParseNatToString(n);
  }
}
