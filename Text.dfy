/** String primitives the portal classifiers and the form check are built on:
    Python's substring test `t in s`, `str.upper()`, `str.isdigit()` and
    `str(n)` for integers, the last three over ASCII only. */
module Text {

  /** `t` occurs in `s` starting at index `i`. */
  predicate OccursAt(s: string, t: string, i: int) {
    0 <= i && i + |t| <= |s| && s[i..i + |t|] == t
  }

  /** Python's `t in s`: `t` occurs at some index of `s`; the empty string
      occurs in every string. */
  predicate Contains(s: string, t: string) {
    exists i | 0 <= i <= |s| - |t| :: OccursAt(s, t, i)
  }

  /** An occurrence checked character by character makes `Contains` hold. */
  lemma ContainsAt(s: string, t: string, i: int)
    requires 0 <= i && i + |t| <= |s|
    requires forall k :: 0 <= k < |t| ==> s[i + k] == t[k]
    ensures Contains(s, t)
  {
    assert s[i..i + |t|] == t;
    assert OccursAt(s, t, i);
  }

  /** No character of `s` is `c`. */
  predicate Lacks(s: string, c: char) {
    forall k :: 0 <= k < |s| ==> s[k] != c
  }

  /** A string cannot contain a pattern that has a character the string lacks. */
  lemma MissingCharNotContained(s: string, t: string, c: char)
    requires c in t && Lacks(s, c)
    ensures !Contains(s, t)
  {
    forall i | 0 <= i <= |s| - |t|
      ensures !OccursAt(s, t, i)
    {
      var k :| 0 <= k < |t| && t[k] == c;
      assert s[i..i + |t|][k] == s[i + k] != t[k];
    }
  }

  /** ASCII decimal digit, the part of Python's `str.isdigit()` that is modelled. */
  predicate IsDigit(c: char) {
    '0' <= c <= '9'
  }

  /** Every character of `s` is a digit (true of the empty string). */
  predicate AllDigits(s: string) {
    s == [] || (IsDigit(s[0]) && AllDigits(s[1..]))
  }

  /** Python's `s.isdigit()` over ASCII: non-empty and made of digits only. */
  predicate IsDigitString(s: string) {
    |s| > 0 && AllDigits(s)
  }

  lemma {:induction false} AllDigitsIff(s: string)
    ensures AllDigits(s) <==> forall k :: 0 <= k < |s| ==> IsDigit(s[k])
  {
    if s != [] {
      AllDigitsIff(s[1..]);
      assert forall k :: 1 <= k < |s| ==> s[k] == s[1..][k - 1];
    }
  }

  /** Python's `c.upper()` on a single ASCII character; every other character is left as it is. */
  function UpperChar(c: char): char {
    if 'a' <= c <= 'z' then (c as int - 'a' as int + 'A' as int) as char else c
  }

  const LowerLetters := "abcdefghijklmnopqrstuvwxyz"
  const UpperLetters := "ABCDEFGHIJKLMNOPQRSTUVWXYZ"

  /** `UpperChar` against the alphabet written out: each lower-case letter
      becomes the capital at the same place, and every other character,
      capitals included, is left as it is. */
  lemma UpperCharTable(c: char)
    ensures forall k :: 0 <= k < |LowerLetters| ==> UpperChar(LowerLetters[k]) == UpperLetters[k]
    ensures c !in LowerLetters ==> UpperChar(c) == c
    ensures c in LowerLetters ==> UpperChar(c) in UpperLetters
  {
  }

  /** Python's `s.upper()`, character by character over ASCII. */
  function Upper(s: string): (u: string)
    ensures |u| == |s|
  {
    if s == [] then [] else [UpperChar(s[0])] + Upper(s[1..])
  }

  lemma {:induction false} UpperAt(s: string, k: int)
    requires 0 <= k < |s|
    ensures Upper(s)[k] == UpperChar(s[k])
  {
    if k > 0 {
      UpperAt(s[1..], k - 1);
    }
  }

  /** Upper-casing keeps occurrences: where `w` occurs in `s`, its upper-cased
      form occurs in the upper-cased `s`. */
  lemma UpperKeepsOccurrence(s: string, w: string, i: int)
    requires OccursAt(s, w, i)
    ensures Contains(Upper(s), Upper(w))
  {
    forall k | 0 <= k < |w|
      ensures Upper(s)[i + k] == Upper(w)[k]
    {
      UpperAt(s, i + k);
      UpperAt(w, k);
      assert s[i + k] == s[i..i + |w|][k];
    }
    ContainsAt(Upper(s), Upper(w), i);
  }

  /** The digit character for `d`. */
  function DigitChar(d: int): char
    requires 0 <= d < 10
  {
    ('0' as int + d) as char
  }

  /** `DigitChar` against the ten digits written out. */
  lemma DigitCharTable(d: int)
    requires 0 <= d < 10
    ensures DigitChar(d) == "0123456789"[d]
  {
  }

  /** Python's `str(n)` for a non-negative integer: decimal, no leading zero. */
  function NatToString(n: nat): (r: string)
    ensures |r| > 0
    ensures forall k :: 0 <= k < |r| ==> IsDigit(r[k])
    ensures r[0] == '0' <==> n == 0
    decreases n
  {
    if n < 10 then [DigitChar(n)] else NatToString(n / 10) + [DigitChar(n % 10)]
  }

  /** Ten to the power `d`. */
  function Pow10(d: nat): (p: nat)
    ensures p > 0
  {
    if d == 0 then 1 else 10 * Pow10(d - 1)
  }

  /** A number with `d` digits is written with exactly `d` characters. */
  lemma {:induction false} NatToStringLength(n: nat, d: nat)
    requires d > 0 && Pow10(d - 1) <= n < Pow10(d)
    ensures |NatToString(n)| == d
    decreases d
  {
    if d > 1 {
      assert Pow10(d - 2) <= n / 10 < Pow10(d - 1);
      NatToStringLength(n / 10, d - 1);
    }
  }

  /** Python's `str(n)` for any integer: a minus sign before the digits of a negative one. */
  function IntToString(n: int): (r: string)
    ensures |r| > 0
    ensures forall k :: 0 <= k < |r| ==> r[k] == '-' || IsDigit(r[k])
    ensures r[0] == '-' <==> n < 0
    ensures IsDigit(r[|r| - 1])
  {
    if n < 0 then "-" + NatToString(-n) else NatToString(n)
  }

  /** The value of a string of decimal digits, most significant first. */
  function DigitsValue(s: string): int
    requires forall k :: 0 <= k < |s| ==> IsDigit(s[k])
  {
    if s == [] then 0 else DigitsValue(s[..|s| - 1]) * 10 + (s[|s| - 1] as int - '0' as int)
  }

  /** Text of an optionally negative decimal integer. */
  predicate IsIntText(s: string) {
    (|s| > 0 && forall k :: 0 <= k < |s| ==> IsDigit(s[k]))
    || (|s| > 1 && s[0] == '-' && forall k :: 1 <= k < |s| ==> IsDigit(s[k]))
  }

  /** Reads back what `IntToString` writes (Python's `int(s)` on such text). */
  function ParseInt(s: string): int
    requires IsIntText(s)
  {
    if s[0] == '-' then -DigitsValue(s[1..]) else DigitsValue(s)
  }

  lemma {:induction false} NatToStringValue(n: nat)
    ensures DigitsValue(NatToString(n)) == n
    decreases n
  {
    var r := NatToString(n);
    if n >= 10 {
      NatToStringValue(n / 10);
      assert r[..|r| - 1] == NatToString(n / 10);
    }
  }

  /** `str(n)` loses nothing: the integer can be read back from its text. */
  lemma IntToStringRoundTrip(n: int)
    ensures IsIntText(IntToString(n)) && ParseInt(IntToString(n)) == n
  {
    var r := IntToString(n);
    if n < 0 {
      assert r[1..] == NatToString(-n);
      NatToStringValue(-n);
    } else {
      NatToStringValue(n);
    }
  }
}
