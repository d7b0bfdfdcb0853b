/** Strings of decimal digits and the numbers they denote. */
module Decimal {

  predicate IsDigit(c: char) { '0' <= c <= '9' }

  predicate AllDigits(s: string) { forall c | c in s :: IsDigit(c) }

  predicate AllZeros(s: string) { forall c | c in s :: c == '0' }

  function DigitValue(c: char): (v: nat)
    requires IsDigit(c)
    ensures v <= 9
  {
    c as int - '0' as int
  }

  function Pow10(k: nat): (r: int)
    ensures r >= 1
  {
    if k == 0 then 1 else 10 * Pow10(k - 1)
  }

  /** The number a string of digits denotes. */
  function DigitsValue(s: string): (v: int)
    requires AllDigits(s)
    ensures v >= 0
  {
    if s == "" then 0 else
    assert forall c | c in s[..|s| - 1] :: c in s;
    DigitsValue(s[..|s| - 1]) * 10 + DigitValue(s[|s| - 1])
  }

  /** The text without its leading zeros. */
  function StripZeros(s: string): (r: string)
    ensures |r| <= |s|
    ensures r != "" ==> r[0] != '0'
  {
    if s != "" && s[0] == '0' then StripZeros(s[1..]) else s
  }

  lemma {:induction false} StripSplits(s: string)
    ensures exists k: nat | k <= |s| :: AllZeros(s[..k]) && StripZeros(s) == s[k..]
  {
    if s != "" && s[0] == '0' {
      StripSplits(s[1..]);
      var k: nat :| k <= |s[1..]| && AllZeros(s[1..][..k]) && StripZeros(s[1..]) == s[1..][k..];
      assert s[..k + 1] == [s[0]] + s[1..][..k] && s[k + 1..] == s[1..][k..];
      assert AllZeros(s[..k + 1]);
    } else {
      assert AllZeros(s[..0]) && s[0..] == s;
    }
  }

  function Zeros(n: nat): (r: string)
    ensures |r| == n && AllZeros(r)
  {
    seq(n, i => '0')
  }

  /** JavaScript's comparison of strings by code units. */
  predicate LexicographicallyGreater(a: string, b: string) {
    if a == "" then false
    else if b == "" then true
    else if a[0] != b[0] then a[0] > b[0]
    else LexicographicallyGreater(a[1..], b[1..])
  }

  lemma {:induction false} PowAdd(a: nat, b: nat)
    ensures Pow10(a + b) == Pow10(a) * Pow10(b)
  {
    if a > 0 { PowAdd(a - 1, b); }
  }

  lemma {:induction false} PowMonotone(a: nat, b: nat)
    requires a <= b
    ensures Pow10(a) <= Pow10(b)
    decreases b
  {
    if a < b { PowMonotone(a, b - 1); }
  }

  lemma ShiftOnce(x: int, p: int, y: int)
    ensures (x * p + y) * 10 == x * (10 * p) + y * 10
  {
  }

  lemma {:induction false} ValueAppend(a: string, b: string)
    requires AllDigits(a) && AllDigits(b)
    ensures AllDigits(a + b) && DigitsValue(a + b) == DigitsValue(a) * Pow10(|b|) + DigitsValue(b)
    decreases |b|
  {
    if b == "" {
      assert a + b == a;
    } else {
      var n := |b| - 1;
      assert forall c | c in b[..n] :: c in b;
      ValueAppend(a, b[..n]);
      assert (a + b)[..|a + b| - 1] == a + b[..n];
      ShiftOnce(DigitsValue(a), Pow10(n), DigitsValue(b[..n]));
    }
  }

  lemma {:induction false} ValueBound(s: string)
    requires AllDigits(s)
    ensures DigitsValue(s) < Pow10(|s|)
  {
    if s != "" {
      assert forall c | c in s[..|s| - 1] :: c in s;
      ValueBound(s[..|s| - 1]);
    }
  }

  lemma {:induction false} ZeroValue(s: string)
    requires AllDigits(s)
    ensures DigitsValue(s) == 0 <==> AllZeros(s)
  {
    if s != "" {
      var n := |s| - 1;
      assert s == s[..n] + [s[n]];
      assert forall c | c in s[..n] :: c in s;
      assert s[n] in s;
      ZeroValue(s[..n]);
      assert DigitValue(s[n]) == 0 <==> s[n] == '0';
    }
  }

  lemma StripKeepsValue(s: string)
    requires AllDigits(s)
    ensures AllDigits(StripZeros(s)) && DigitsValue(StripZeros(s)) == DigitsValue(s)
    ensures StripZeros(s) == "" <==> DigitsValue(s) == 0
  {
    StripSplits(s);
    var r := StripZeros(s);
    var k: nat :| k <= |s| && AllZeros(s[..k]) && r == s[k..];
    ZerosInFront(s, k);
    ZeroValue(r);
    if r != "" { assert r[0] in r; }
  }

  lemma ZerosInFront(s: string, k: nat)
    requires AllDigits(s) && k <= |s| && AllZeros(s[..k])
    ensures AllDigits(s[k..]) && DigitsValue(s) == DigitsValue(s[k..])
  {
    var zeros, rest := s[..k], s[k..];
    assert s == zeros + rest;
    assert forall c | c in zeros :: c in s;
    assert forall c | c in rest :: c in s;
    ZeroValue(zeros);
    ValueAppend(zeros, rest);
  }

  /** A numeral without leading zeros is at least the power of ten of its length. */
  lemma LeadingDigit(s: string)
    requires AllDigits(s) && s != "" && s[0] != '0'
    ensures DigitsValue(s) >= Pow10(|s| - 1)
  {
    assert s == s[..1] + s[1..];
    ValueAppend(s[..1], s[1..]);
    assert s[..1][..0] == "" && DigitsValue(s[..1]) == DigitValue(s[0]) >= 1;
    Dominates(DigitsValue(s[..1]), 0, Pow10(|s| - 1));
  }

  /** On numerals of equal length the comparison of strings is the comparison of numbers. */
  lemma {:induction false} LexicographicIsNumeric(a: string, b: string)
    requires AllDigits(a) && AllDigits(b) && |a| == |b|
    ensures LexicographicallyGreater(a, b) <==> DigitsValue(a) > DigitsValue(b)
  {
    if a != "" {
      assert a == a[..1] + a[1..] && b == b[..1] + b[1..];
      ValueAppend(a[..1], a[1..]);
      ValueAppend(b[..1], b[1..]);
      ValueBound(a[1..]);
      ValueBound(b[1..]);
      assert a[..1][..0] == "" && b[..1][..0] == "";
      var x, y, p := DigitValue(a[0]), DigitValue(b[0]), Pow10(|a| - 1);
      if a[0] == b[0] {
        LexicographicIsNumeric(a[1..], b[1..]);
      } else if x > y {
        Dominates(x, y, p);
      } else {
        Dominates(y, x, p);
      }
    }
  }

  lemma {:induction false} Dominates(x: int, y: int, p: int)
    requires x > y && p >= 1
    ensures x * p >= y * p + p
    decreases x - y
  {
    assert x * p == (x - 1) * p + p;
    if x > y + 1 { Dominates(x - 1, y, p); }
  }
}
