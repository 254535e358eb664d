/** Rendering of unsigned integers as a QTextStream does after
    `setIntegerBase(16)`: lower-case digits, no prefix, no leading zeros
    (zero itself is "0"). Its inverse, HexValue, reads such a string back. */
module HexText {

  predicate IsHexDigit(c: char) {
    '0' <= c <= '9' || 'a' <= c <= 'f'
  }

  predicate AllHexDigits(s: string) {
    forall i :: 0 <= i < |s| ==> IsHexDigit(s[i])
  }

  /** The strings QTextStream can produce in base 16: non-empty, digits only,
      and no leading zero unless the string is "0". */
  predicate IsCanonicalHex(s: string) {
    |s| > 0 && AllHexDigits(s) && (|s| > 1 ==> s[0] != '0')
  }

  function DigitValue(c: char): (d: nat)
    requires IsHexDigit(c)
    ensures d < 16
  {
    if c <= '9' then c as int - '0' as int else c as int - 'a' as int + 10
  }

  function DigitChar(d: nat): (c: char)
    requires d < 16
    ensures IsHexDigit(c) && DigitValue(c) == d
    ensures c == '0' <==> d == 0
  {
    if d < 10 then ('0' as int + d) as char else ('a' as int + d - 10) as char
  }

  /** The value of a string of hex digits, most significant digit first. */
  function HexValue(s: string): nat
    requires AllHexDigits(s)
  {
    if s == [] then 0 else 16 * HexValue(s[..|s| - 1]) + DigitValue(s[|s| - 1])
  }

  /** `QTextStream << n` in base 16. */
  function Hex(n: nat): (s: string)
    ensures |s| > 0
  {
    if n < 16 then [DigitChar(n)] else Hex(n / 16) + [DigitChar(n % 16)]
  }

  /** Rendering produces canonical strings; only zero starts with '0'. */
  lemma {:induction false} HexIsCanonical(n: nat)
    ensures IsCanonicalHex(Hex(n))
    ensures Hex(n)[0] == '0' <==> n == 0
  {
    if n >= 16 {
      HexIsCanonical(n / 16);
      var s := Hex(n);
      assert s == Hex(n / 16) + [DigitChar(n % 16)];
      assert s[0] == Hex(n / 16)[0];
    }
  }

  /** Reading a rendered number gives the number back. */
  lemma {:induction false} HexRoundTrip(n: nat)
    ensures AllHexDigits(Hex(n)) && HexValue(Hex(n)) == n
  {
    HexIsCanonical(n);
    if n >= 16 {
      HexRoundTrip(n / 16);
      var s := Hex(n);
      assert s[..|s| - 1] == Hex(n / 16);
    }
  }

  lemma DigitCharOfValue(c: char)
    requires IsHexDigit(c)
    ensures DigitChar(DigitValue(c)) == c
  {
  }

  /** A string whose first digit is not '0' has a positive value. */
  lemma {:induction false} LeadingDigitPositive(s: string)
    requires AllHexDigits(s) && |s| > 0 && s[0] != '0'
    ensures HexValue(s) > 0
  {
    if |s| > 1 {
      var p := s[..|s| - 1];
      assert p[0] == s[0];
      LeadingDigitPositive(p);
    }
  }

  /** The other half of the round trip: every canonical string is the
      rendering of its own value, so rendering is a bijection between the
      naturals and the canonical strings. */
  lemma {:induction false} CanonicalRoundTrip(s: string)
    requires IsCanonicalHex(s)
    ensures Hex(HexValue(s)) == s
  {
    if |s| == 1 {
      DigitCharOfValue(s[0]);
    } else {
      var p := s[..|s| - 1];
      var d := DigitValue(s[|s| - 1]);
      assert p[0] == s[0];
      LeadingDigitPositive(p);
      CanonicalRoundTrip(p);
      HexIsCanonical(HexValue(p));
      var v := HexValue(s);
      assert v == 16 * HexValue(p) + d;
      assert v / 16 == HexValue(p) && v % 16 == d;
      DigitCharOfValue(s[|s| - 1]);
      assert s == p + [s[|s| - 1]];
    }
  }

  lemma HexInjective(m: nat, n: nat)
    requires Hex(m) == Hex(n)
    ensures m == n
  {
    HexRoundTrip(m);
    HexRoundTrip(n);
  }

  /** Length of the run of hex digits at the front of `s`. */
  function HexRun(s: string): (k: nat)
    ensures k <= |s| && AllHexDigits(s[..k])
    ensures k < |s| ==> !IsHexDigit(s[k])
  {
    if s == [] || !IsHexDigit(s[0]) then 0
    else
      var k := 1 + HexRun(s[1..]);
      assert s[..k] == [s[0]] + s[1..][..k - 1];
      k
  }

  /** A rendered number followed by a non-digit is read back whole. */
  lemma {:induction false} HexRunOfDigitsThen(d: string, t: string)
    requires AllHexDigits(d)
    requires t == [] || !IsHexDigit(t[0])
    ensures HexRun(d + t) == |d|
  {
    if d != [] {
      assert (d + t)[1..] == d[1..] + t;
      HexRunOfDigitsThen(d[1..], t);
    } else {
      assert d + t == t;
    }
  }
}
