/** Character classes shared by every name transform.

    The repository relies on Python's `str.lower()`, `\w`, `\s`, `\d` and `\b`,
    whose full Unicode meaning is out of reach here. Whitespace follows
    Python's full list. Letters, digits and case follow an explicit
    alphabet: ASCII plus the nine Polish diacritic letters that occur in the
    scraped channel lists. */
module Chars {

  /** `\s`, and what `str.strip()` and `str.split()` remove: Python's
      whitespace characters, the no-break space U+00A0 among them. */
  predicate IsSpace(c: char) {
    c == ' ' || '\t' <= c <= '\r' || '\U{1C}' <= c <= '\U{1F}' || c == '\U{85}' || c == '\U{A0}'
    || c == '\U{1680}' || '\U{2000}' <= c <= '\U{200A}' || c == '\U{2028}' || c == '\U{2029}'
    || c == '\U{202F}' || c == '\U{205F}' || c == '\U{3000}'
  }

  /** `\d`: ASCII digits. */
  predicate IsDigit(c: char) {
    '0' <= c <= '9'
  }

  predicate IsAsciiLower(c: char) {
    'a' <= c <= 'z'
  }

  predicate IsAsciiUpper(c: char) {
    'A' <= c <= 'Z'
  }

  predicate IsPolishLower(c: char) {
    c == 'ą' || c == 'ć' || c == 'ę' || c == 'ł' || c == 'ń' || c == 'ó' || c == 'ś' || c == 'ź' || c == 'ż'
  }

  predicate IsPolishUpper(c: char) {
    c == 'Ą' || c == 'Ć' || c == 'Ę' || c == 'Ł' || c == 'Ń' || c == 'Ó' || c == 'Ś' || c == 'Ź' || c == 'Ż'
  }

  predicate IsLetter(c: char) {
    IsAsciiLower(c) || IsAsciiUpper(c) || IsPolishLower(c) || IsPolishUpper(c)
  }

  /** `\w`: letters, digits and the underscore. */
  predicate IsWordChar(c: char) {
    IsLetter(c) || IsDigit(c) || c == '_'
  }

  /** Upper-case letters of the alphabet, the ones `lower()` changes. */
  predicate IsUpper(c: char) {
    IsAsciiUpper(c) || IsPolishUpper(c)
  }

  function LowerPolish(c: char): (d: char)
    requires IsPolishUpper(c)
    ensures IsPolishLower(d)
  {
    if c == 'Ą' then 'ą' else if c == 'Ć' then 'ć' else if c == 'Ę' then 'ę'
    else if c == 'Ł' then 'ł' else if c == 'Ń' then 'ń' else if c == 'Ó' then 'ó'
    else if c == 'Ś' then 'ś' else if c == 'Ź' then 'ź' else 'ż'
  }

  /** `str.lower()` on one character. */
  function Lower(c: char): (d: char)
    ensures !IsUpper(d)
    ensures !IsUpper(c) ==> d == c
    ensures IsWordChar(d) <==> IsWordChar(c)
    ensures IsSpace(d) <==> IsSpace(c)
    ensures IsDigit(d) <==> IsDigit(c)
    ensures IsAsciiLower(d) <==> IsAsciiLower(c) || IsAsciiUpper(c)
  {
    if IsAsciiUpper(c) then (c as int + 32) as char
    else if IsPolishUpper(c) then LowerPolish(c)
    else c
  }

  /** `str.upper()` on one character of the quality tokens' alphabet. */
  function Upper(c: char): (d: char)
    ensures IsAsciiLower(c) ==> IsAsciiUpper(d) && Lower(d) == c
    ensures !IsAsciiLower(c) ==> d == c
  {
    if IsAsciiLower(c) then (c as int - 32) as char else c
  }

  function LowerStr(s: string): (r: string)
    ensures |r| == |s|
    ensures forall k :: 0 <= k < |s| ==> r[k] == Lower(s[k])
  {
    if s == [] then [] else [Lower(s[0])] + LowerStr(s[1..])
  }

  function UpperStr(s: string): (r: string)
    ensures |r| == |s|
    ensures forall k :: 0 <= k < |s| ==> r[k] == Upper(s[k])
  {
    if s == [] then [] else [Upper(s[0])] + UpperStr(s[1..])
  }

  /** Lower-casing twice is lower-casing once. */
  lemma LowerStrIdempotent(s: string)
    ensures LowerStr(LowerStr(s)) == LowerStr(s)
  {
  }

  /** Lower-casing distributes over concatenation. */
  lemma {:induction false} LowerStrAppend(a: string, b: string)
    ensures LowerStr(a + b) == LowerStr(a) + LowerStr(b)
  {
    if a == [] {
      assert a + b == b;
    } else {
      assert (a + b)[1..] == a[1..] + b;
      LowerStrAppend(a[1..], b);
    }
  }

  /** `str.isdigit()`: non-empty and made of digits only. */
  predicate IsDigitString(s: string) {
    |s| > 0 && forall k :: 0 <= k < |s| ==> IsDigit(s[k])
  }

  /** Substring test, Python's `needle in haystack`. */
  predicate Contains(haystack: string, needle: string)
    decreases |haystack|
  {
    StartsWith(haystack, needle) || (|haystack| > 0 && Contains(haystack[1..], needle))
  }

  predicate StartsWith(s: string, prefix: string) {
    |prefix| <= |s| && s[..|prefix|] == prefix
  }

  predicate EndsWith(s: string, suffix: string) {
    |suffix| <= |s| && s[|s| - |suffix|..] == suffix
  }

  /** `f"{a} {b}"`: the two parts joined by one space. */
  function JoinSpace(a: string, b: string): (r: string)
    ensures |r| == |a| + 1 + |b|
    ensures StartsWith(r, a + " ") && EndsWith(r, " " + b)
    ensures r[|a|] == ' '
    ensures a != "" ==> r[0] == a[0]
    ensures b != "" ==> r[|r| - 1] == b[|b| - 1]
  {
    var r := a + " " + b;
    assert r[..|a + " "|] == a + " ";
    assert r[|r| - |" " + b|..] == " " + b;
    r
  }

  /** Python's `s.replace(old, new)` for a one-character `old`. */
  function ReplaceChar(s: string, from: char, to: string): (r: string)
    ensures from !in to ==> from !in r
    ensures forall c :: c in r ==> c in s || c in to
    ensures from !in s ==> r == s
  {
    if s == [] then []
    else (if s[0] == from then to else [s[0]]) + ReplaceChar(s[1..], from, to)
  }
}
