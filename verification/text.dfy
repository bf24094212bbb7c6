/**
 * String helpers standing in for the JavaScript string operations the
 * generator, the route and the canvas use: decimal rendering of numbers,
 * ASCII upper-casing, `replace` of the first occurrence of a character,
 * and "appears inside" for the fragments a template embeds.
 */
module Text {

  /** The character of decimal digit `d`. */
  function DigitChar(d: nat): (c: char)
    requires d < 10
    ensures '0' <= c <= '9'
    ensures c as int - '0' as int == d
  {
    ('0' as int + d) as char
  }

  predicate IsDigit(c: char) {
    '0' <= c <= '9'
  }

  /** The value of one decimal digit character. */
  function DigitValue(c: char): (d: nat)
    requires IsDigit(c)
    ensures d < 10
  {
    c as int - '0' as int
  }

  /** Decimal digits of `n`, most significant first, without leading zeros. */
  function NatText(n: nat): (s: string)
    ensures |s| >= 1
    ensures forall k :: 0 <= k < |s| ==> IsDigit(s[k])
    ensures s[0] == '0' ==> n == 0
    decreases n
  {
    if n < 10 then [DigitChar(n)] else NatText(n / 10) + [DigitChar(n % 10)]
  }

  /** The value of a string of decimal digits, read most significant first. */
  function DigitsValue(s: string): nat
    requires forall k :: 0 <= k < |s| ==> IsDigit(s[k])
  {
    if |s| == 0 then 0 else DigitsValue(s[..|s| - 1]) * 10 + DigitValue(s[|s| - 1])
  }

  /** Reading the decimal rendering of `n` gives back `n`. */
  lemma {:induction false} NatTextRoundTrip(n: nat)
    ensures DigitsValue(NatText(n)) == n
    decreases n
  {
    if n >= 10 {
      var s := NatText(n);
      NatTextRoundTrip(n / 10);
      assert s[..|s| - 1] == NatText(n / 10);
    }
  }

  /** Distinct numbers render as distinct decimal strings. */
  lemma NatTextInjective(a: nat, b: nat)
    requires NatText(a) == NatText(b)
    ensures a == b
  {
    NatTextRoundTrip(a);
    NatTextRoundTrip(b);
  }

  /** Decimal rendering of an integer, with a leading '-' when negative. */
  function IntText(i: int): (s: string)
    ensures |s| >= 1
    ensures i < 0 <==> s[0] == '-'
  {
    if i < 0 then "-" + NatText(-i) else NatText(i)
  }

  /**
   * Fractional digits of `f` (0 <= f < 1), at most `fuel` of them. The
   * digits stop early only when the expansion ends; when `fuel` runs out
   * first, the last digit kept may be a zero.
   */
  function FractionDigits(f: real, fuel: nat): (s: string)
    requires 0.0 <= f < 1.0
    ensures |s| <= fuel
    ensures forall k :: 0 <= k < |s| ==> IsDigit(s[k])
    decreases fuel
  {
    if f == 0.0 || fuel == 0 then ""
    else
      var d := (f * 10.0).Floor;
      [DigitChar(d)] + FractionDigits(f * 10.0 - d as real, fuel - 1)
  }

  /** The most fractional digits a rendered number carries. */
  const MaxFractionDigits := 20

  /**
   * Positional decimal rendering of a finite number, as JavaScript's
   * `String(x)` prints numbers of moderate size: integers as their digits,
   * other numbers as integer part, '.', and fractional digits.
   */
  function NumberText(x: real): (s: string)
    ensures |s| >= 1
    ensures x == x.Floor as real ==> s == IntText(x.Floor)
    ensures x < 0.0 <==> s[0] == '-'
  {
    if x == x.Floor as real then IntText(x.Floor)
    else
      var m := if x < 0.0 then -x else x;
      var whole := m.Floor;
      (if x < 0.0 then "-" else "") + NatText(whole) + "." + FractionDigits(m - whole as real, MaxFractionDigits)
  }

  /** ASCII upper-casing of one character; every other character is kept. */
  function UpperChar(c: char): char {
    if 'a' <= c <= 'z' then (c as int - 32) as char else c
  }

  /** `toUpperCase` restricted to ASCII letters. */
  function Upper(s: string): (r: string)
    ensures |r| == |s|
    ensures forall k :: 0 <= k < |s| ==> r[k] == UpperChar(s[k])
  {
    seq(|s|, k requires 0 <= k < |s| => UpperChar(s[k]))
  }

  /** Upper-casing leaves no lower-case ASCII letter, so doing it twice changes nothing. */
  lemma UpperIdempotent(s: string)
    ensures forall k :: 0 <= k < |s| ==> !('a' <= Upper(s)[k] <= 'z')
    ensures Upper(Upper(s)) == Upper(s)
  {
    var u := Upper(s);
    forall k | 0 <= k < |s|
      ensures UpperChar(u[k]) == u[k]
    {
      assert u[k] == UpperChar(s[k]);
    }
  }

  /** `s.charAt(0).toUpperCase() + s.slice(1)`. */
  function Capitalize(s: string): (r: string)
    ensures |r| == |s|
    ensures |s| > 0 ==> r[0] == UpperChar(s[0]) && r[1..] == s[1..]
  {
    if |s| == 0 then "" else [UpperChar(s[0])] + s[1..]
  }

  /** `sub` occurs as a contiguous run of `s`. */
  ghost predicate IsInfix(sub: string, s: string) {
    exists k :: InfixAt(sub, s, k)
  }

  /** `sub` occurs in `s` starting at position `k`. */
  predicate InfixAt(sub: string, s: string, k: int) {
    0 <= k && k + |sub| <= |s| && s[k..k + |sub|] == sub
  }

  /** An occurrence inside `s` is still an occurrence once text is appended. */
  lemma InfixExtend(sub: string, s: string, t: string)
    requires IsInfix(sub, s)
    ensures IsInfix(sub, s + t)
  {
    var k :| InfixAt(sub, s, k);
    assert (s + t)[k..k + |sub|] == s[k..k + |sub|];
    assert InfixAt(sub, s + t, k);
  }

  /** A string occurs at the end of any extension of it on the left. */
  lemma InfixAtEnd(s: string, t: string)
    ensures IsInfix(t, s + t)
  {
    assert InfixAt(t, s + t, |s|);
  }

  lemma InfixOfConcat(a: string, b: string, c: string)
    ensures IsInfix(b, a + b + c)
  {
    var s := a + b + c;
    assert s[|a|..|a| + |b|] == b;
    assert InfixAt(b, s, |a|);
  }

  /** Position of the first occurrence of `c` in `s`. */
  function IndexOf(s: string, c: char): (k: nat)
    requires c in s
    ensures k < |s| && s[k] == c
    ensures c !in s[..k]
  {
    if s[0] == c then 0 else 1 + IndexOf(s[1..], c)
  }

  /**
   * JavaScript's `s.replace(c, rep)` with a one-character string pattern:
   * only the first occurrence of `c` is replaced.
   */
  function ReplaceFirst(s: string, c: char, rep: string): (r: string)
    ensures c !in s ==> r == s
    ensures c in s ==> r == s[..IndexOf(s, c)] + rep + s[IndexOf(s, c) + 1..]
  {
    if |s| == 0 then s
    else if s[0] == c then rep + s[1..]
    else [s[0]] + ReplaceFirst(s[1..], c, rep)
  }
}
