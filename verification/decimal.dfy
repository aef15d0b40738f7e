/**
 Decimal rendering of integers, as JavaScript's `toString()` produces it for
 an integral Number (chain identifiers) and for a BigInt (transaction values,
 gas figures and gas estimates), together with the canonical parser that
 inverts it.
 */
module Decimal {

  import opened Js

  /** The character for a digit value 0..9. */
  function DigitChar(d: nat): (c: char)
    requires d < 10
    ensures '0' <= c <= '9'
    ensures DigitValue(c) == d
  {
    "0123456789"[d]
  }

  /** The value of a decimal digit character. */
  function DigitValue(c: char): nat
    requires '0' <= c <= '9'
  {
    (c as int) - ('0' as int)
  }

  predicate IsDigit(c: char) {
    '0' <= c <= '9'
  }

  predicate AllDigits(s: string) {
    forall i :: 0 <= i < |s| ==> IsDigit(s[i])
  }

  /** A canonical decimal numeral: non-empty, digits only, no leading zero except "0" itself. */
  predicate Canonical(s: string) {
    |s| > 0 && AllDigits(s) && (|s| == 1 || s[0] != '0')
  }

  /** The value of a string of digits, most significant first. */
  function DigitsValue(s: string): nat
    requires AllDigits(s)
  {
    if |s| == 0 then 0
    else DigitsValue(s[..|s| - 1]) * 10 + DigitValue(s[|s| - 1])
  }

  /** `n.toString()` for a non-negative integer. */
  function NatToString(n: nat): (s: string)
    ensures Canonical(s)
    ensures n < 10 <==> |s| == 1
  {
    if n < 10 then [DigitChar(n)]
    else
      var p := NatToString(n / 10);
      p + [DigitChar(n % 10)]
  }

  /** `n.toString()` for an integer: a minus sign before the magnitude when negative. */
  function IntToString(n: int): (s: string)
    ensures |s| > 0
    ensures n >= 0 ==> Canonical(s)
    ensures n < 0 ==> s[0] == '-' && Canonical(s[1..])
  {
    if n < 0 then "-" + NatToString(-n) else NatToString(n)
  }

  /** Parses a canonical decimal numeral; anything else is rejected. */
  function ParseNat(s: string): (r: Option<nat>)
    ensures r.Some? <==> Canonical(s)
  {
    if Canonical(s) then Some(DigitsValue(s)) else None
  }

  /** Parses the output of `IntToString`: an optional minus sign before a canonical magnitude. */
  function ParseInt(s: string): (r: Option<int>)
  {
    if |s| > 1 && s[0] == '-' && Canonical(s[1..]) && s[1] != '0' then
      var magnitude: int := DigitsValue(s[1..]);
      Some(-magnitude)
    else if Canonical(s) then Some(DigitsValue(s))
    else None
  }

  /** Rendering then parsing gives the number back. */
  lemma {:induction false} NatRoundTrip(n: nat)
    ensures DigitsValue(NatToString(n)) == n
    ensures ParseNat(NatToString(n)) == Some(n)
  {
    if n >= 10 {
      NatRoundTrip(n / 10);
      var p := NatToString(n / 10);
      var s := p + [DigitChar(n % 10)];
      assert s[..|s| - 1] == p;
    }
  }

  /** A string of digits has value zero only if every digit is '0'. */
  lemma {:induction false} ZeroValueAllZeros(s: string)
    requires AllDigits(s)
    requires DigitsValue(s) == 0
    ensures forall i :: 0 <= i < |s| ==> s[i] == '0'
  {
    if |s| > 0 {
      var p := s[..|s| - 1];
      ZeroValueAllZeros(p);
      forall i | 0 <= i < |s|
        ensures s[i] == '0'
      {
        if i < |s| - 1 {
          assert s[i] == p[i];
        }
      }
    }
  }

  /** Parsing then rendering gives the string back: canonical numerals and numbers are in bijection. */
  lemma {:induction false} CanonicalRoundTrip(s: string)
    requires Canonical(s)
    ensures NatToString(DigitsValue(s)) == s
  {
    if |s| > 1 {
      var p := s[..|s| - 1];
      var d := DigitValue(s[|s| - 1]);
      assert Canonical(p);
      if DigitsValue(p) == 0 {
        ZeroValueAllZeros(p);
        assert false;
      }
      CanonicalRoundTrip(p);
      var v := DigitsValue(s);
      assert v == DigitsValue(p) * 10 + d;
      assert v / 10 == DigitsValue(p) && v % 10 == d;
      assert NatToString(v) == p + [DigitChar(d)];
      assert [DigitChar(d)] == [s[|s| - 1]];
      assert s == p + [s[|s| - 1]];
    } else {
      assert s == [DigitChar(DigitValue(s[0]))];
    }
  }

  /** Distinct numbers render as distinct strings. */
  lemma NatToStringInjective(m: nat, n: nat)
    requires NatToString(m) == NatToString(n)
    ensures m == n
  {
    NatRoundTrip(m);
    NatRoundTrip(n);
  }

  /** The rendering of a positive number does not start with '0'. */
  lemma LeadingDigitNonZero(m: nat)
    requires m > 0
    ensures NatToString(m)[0] != '0'
  {
    if m < 10 {
      assert DigitValue(NatToString(m)[0]) == m;
    }
  }

  /** Integer rendering round-trips through `ParseInt`, so it is injective as well. */
  lemma IntRoundTrip(n: int)
    ensures ParseInt(IntToString(n)) == Some(n)
  {
    if n < 0 {
      var m: nat := -n;
      var t := NatToString(m);
      NatRoundTrip(m);
      LeadingDigitNonZero(m);
      var s := IntToString(n);
      assert s == "-" + t;
      assert s[1..] == t;
      assert |s| > 1 && s[0] == '-' && Canonical(s[1..]) && s[1] != '0';
    } else {
      NatRoundTrip(n);
      assert NatToString(n)[0] != '-';
    }
  }

  lemma IntToStringInjective(m: int, n: int)
    requires IntToString(m) == IntToString(n)
    ensures m == n
  {
    IntRoundTrip(m);
    IntRoundTrip(n);
  }
}
