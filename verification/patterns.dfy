/** The regular expressions of the name transforms, as first-order matchers.

    Python's `re.sub(p, repl, s)` scans `s` left to right; at each position it
    takes the leftmost match (alternatives tried in order, quantifiers greedy,
    backtracking where an assertion fails), writes `repl` for it and resumes
    after it; `\b` and the other look-arounds always see the ORIGINAL string.
    `MatchLen(p, s, i)` is the length of the match of `p` starting at `i` (0 when
    there is none: no pattern here matches the empty string), and `SubFrom` is
    the scanning loop. The end-anchored patterns (`...$`) and the `^`-anchored
    ones get dedicated functions further down. */
module Patterns {
  import opened Chars

  /** `(?:dvb-[st]\d?(?:/\w+)?|db-s\d?/\w+)` (case-insensitive) in three settings. */
  datatype DvbMode =
    | Bare      // the token alone, as `parse_channel_info` searches it
    | Spaced    // `\s*(token)\s*`, as the display-name cleaners remove it
    | Bounded   // `\b(token)\b`, as the comparison key removes it

  datatype Pat =
    | Literals(words: seq<string>, spaced: bool)
      // `\b(w1|w2|...)\b` case-insensitive, words given in lower case;
      // `spaced` adds the `\s*` on both sides
    | Dvb(mode: DvbMode)
    | DvbPrefix      // `DVB-[ST]`, case-insensitive
    | Frequency      // `\d{1,2}[.,]\d{3}`
    | Polarisation   // `\b[VHLR]\b`
    | SymbolRate     // `\b\d{5}\b`
    | Fec            // `\d/\d`
    | ModulationS    // `\bs\d/\w+\b`, case-insensitive
    | SpaceRun       // `\s+`

  /** `s[j]` exists and is a word character. */
  predicate WordAt(s: string, j: int) {
    0 <= j < |s| && IsWordChar(s[j])
  }

  /** `\b` at position `j`: a word character on exactly one side. */
  predicate Boundary(s: string, j: int) {
    WordAt(s, j - 1) != WordAt(s, j)
  }

  predicate DigitAt(s: string, j: int) {
    0 <= j < |s| && IsDigit(s[j])
  }

  /** Length of the run of whitespace starting at `i`. */
  function WsRunLen(s: string, i: nat): (n: nat)
    requires i <= |s|
    ensures i + n <= |s|
    ensures forall k :: i <= k < i + n ==> IsSpace(s[k])
    ensures i + n == |s| || !IsSpace(s[i + n])
    decreases |s| - i
  {
    if i == |s| || !IsSpace(s[i]) then 0 else 1 + WsRunLen(s, i + 1)
  }

  /** Length of the run of digits starting at `i`. */
  function DigitRunLen(s: string, i: nat): (n: nat)
    requires i <= |s|
    ensures i + n <= |s|
    ensures forall k :: i <= k < i + n ==> IsDigit(s[k])
    ensures i + n == |s| || !IsDigit(s[i + n])
    decreases |s| - i
  {
    if i == |s| || !IsDigit(s[i]) then 0 else 1 + DigitRunLen(s, i + 1)
  }

  /** Length of the run of word characters starting at `i`. */
  function WordRunLen(s: string, i: nat): (n: nat)
    requires i <= |s|
    ensures i + n <= |s|
    ensures forall k :: i <= k < i + n ==> IsWordChar(s[k])
    ensures i + n == |s| || !IsWordChar(s[i + n])
    decreases |s| - i
  {
    if i == |s| || !IsWordChar(s[i]) then 0 else 1 + WordRunLen(s, i + 1)
  }

  /** Start of the run of whitespace that ends at `j`. */
  function WsStartBefore(s: string, j: nat): (k: nat)
    requires j <= |s|
    ensures k <= j
    ensures forall m :: k <= m < j ==> IsSpace(s[m])
    ensures k == 0 || !IsSpace(s[k - 1])
  {
    if j == 0 || !IsSpace(s[j - 1]) then j else WsStartBefore(s, j - 1)
  }

  /** Case-insensitive occurrence of the lower-case literal `w` at `i`. */
  predicate LiteralAt(s: string, i: nat, w: string) {
    i + |w| <= |s| && forall k :: 0 <= k < |w| ==> Lower(s[i + k]) == w[k]
  }

  /** `\b(w1|w2|...)\b` at `i`: the length of the first alternative that fits
      (later alternatives are tried when the closing `\b` fails). */
  function FirstLiteral(words: seq<string>, s: string, i: nat): (n: nat)
    ensures n > 0 ==> i + n <= |s| && Boundary(s, i + n)
  {
    if words == [] then 0
    else if |words[0]| > 0 && LiteralAt(s, i, words[0]) && Boundary(s, i + |words[0]|) then |words[0]|
    else FirstLiteral(words[1..], s, i)
  }

  /** What the alternation matches is one of its words. */
  lemma {:induction false} FirstLiteralWord(words: seq<string>, s: string, i: nat)
    requires FirstLiteral(words, s, i) > 0
    ensures exists k :: 0 <= k < |words| && |words[k]| == FirstLiteral(words, s, i) && LiteralAt(s, i, words[k])
  {
    if !(|words[0]| > 0 && LiteralAt(s, i, words[0]) && Boundary(s, i + |words[0]|)) {
      FirstLiteralWord(words[1..], s, i);
      var k :| 0 <= k < |words[1..]| && |words[1..][k]| == FirstLiteral(words, s, i) && LiteralAt(s, i, words[1..][k]);
      assert words[1..][k] == words[k + 1];
    }
  }

  /** `dvb-[st]\d?(?:/\w+)?|db-s\d?/\w+` at `j`, greedy. */
  function DvbTokenLen(s: string, j: nat): (n: nat)
    requires j <= |s|
    ensures j + n <= |s|
    ensures n > 0 ==> n >= 5 && IsWordChar(s[j + n - 1])
  {
    if LiteralAt(s, j, "dvb-") && j + 4 < |s| && (Lower(s[j + 4]) == 's' || Lower(s[j + 4]) == 't') then
      var k := if DigitAt(s, j + 5) then j + 6 else j + 5;
      if k + 1 < |s| && s[k] == '/' && IsWordChar(s[k + 1]) then k + 1 + WordRunLen(s, k + 1) - j
      else k - j
    else if LiteralAt(s, j, "db-s") then
      var k := if DigitAt(s, j + 4) then j + 5 else j + 4;
      if k + 1 < |s| && s[k] == '/' && IsWordChar(s[k + 1]) then k + 1 + WordRunLen(s, k + 1) - j
      else 0
    else 0
  }

  function MatchLen(p: Pat, s: string, i: nat): (n: nat)
    ensures i + n <= |s| || n == 0
  {
    if i >= |s| then 0 else
    match p
    case Literals(words, spaced) =>
      if !spaced then
        (if Boundary(s, i) then FirstLiteral(words, s, i) else 0)
      else
        var j := i + WsRunLen(s, i);
        var w := if Boundary(s, j) then FirstLiteral(words, s, j) else 0;
        if w == 0 then 0 else j + w + WsRunLen(s, j + w) - i
    case Dvb(mode) =>
      (match mode
       case Bare => DvbTokenLen(s, i)
       case Bounded =>
         var n := DvbTokenLen(s, i);
         if n > 0 && Boundary(s, i) && Boundary(s, i + n) then n else 0
       case Spaced =>
         var j := i + WsRunLen(s, i);
         var n := DvbTokenLen(s, j);
         if n == 0 then 0 else j + n + WsRunLen(s, j + n) - i)
    case DvbPrefix =>
      if LiteralAt(s, i, "dvb-") && i + 4 < |s| && (Lower(s[i + 4]) == 's' || Lower(s[i + 4]) == 't') then 5 else 0
    case Frequency =>
      if DigitAt(s, i) && DigitAt(s, i + 1) then
        (if i + 2 < |s| && (s[i + 2] == '.' || s[i + 2] == ',') && DigitAt(s, i + 3) && DigitAt(s, i + 4) && DigitAt(s, i + 5) then 6 else 0)
      else if DigitAt(s, i) && i + 1 < |s| && (s[i + 1] == '.' || s[i + 1] == ',') && DigitAt(s, i + 2) && DigitAt(s, i + 3) && DigitAt(s, i + 4) then 5
      else 0
    case Polarisation =>
      if i < |s| && s[i] in "VHLR" && Boundary(s, i) && Boundary(s, i + 1) then 1 else 0
    case SymbolRate =>
      if DigitAt(s, i) && DigitAt(s, i + 1) && DigitAt(s, i + 2) && DigitAt(s, i + 3) && DigitAt(s, i + 4)
         && Boundary(s, i) && Boundary(s, i + 5) then 5 else 0
    case Fec =>
      if DigitAt(s, i) && i + 1 < |s| && s[i + 1] == '/' && DigitAt(s, i + 2) then 3 else 0
    case ModulationS =>
      if i + 3 < |s| && Boundary(s, i) && Lower(s[i]) == 's' && IsDigit(s[i + 1]) && s[i + 2] == '/' && IsWordChar(s[i + 3])
      then 3 + WordRunLen(s, i + 3) else 0
    case SpaceRun =>
      WsRunLen(s, i)
  }

  /** A matcher reports the length of the match starting at a position (0: none). */
  type Matcher = (string, nat) -> nat

  function MatcherOf(p: Pat): Matcher {
    (s: string, i: nat) => MatchLen(p, s, i)
  }

  /** The match `m` reports at `i`, or 0 when it would run past the end. */
  function MatchAt(m: Matcher, s: string, i: nat): (n: nat)
    requires i <= |s|
    ensures i + n <= |s|
  {
    var n := m(s, i);
    if i + n <= |s| then n else 0
  }

  /** `re.sub(p, repl, s)`, scanning from position `i`. */
  function SubFrom(m: Matcher, s: string, i: nat, repl: string): string
    requires i <= |s|
    decreases |s| - i
  {
    if i == |s| then ""
    else
      var n := MatchAt(m, s, i);
      if n == 0 then [s[i]] + SubFrom(m, s, i + 1, repl)
      else repl + SubFrom(m, s, i + n, repl)
  }

  function Sub(p: Pat, s: string, repl: string): string {
    SubFrom(MatcherOf(p), s, 0, repl)
  }

  /** A substitution writes only characters of its input and of its replacement. */
  lemma {:induction false} SubFromChars(m: Matcher, s: string, i: nat, repl: string)
    requires i <= |s|
    ensures forall c :: c in SubFrom(m, s, i, repl) ==> c in s || c in repl
    decreases |s| - i
  {
    if i < |s| {
      var n := MatchAt(m, s, i);
      var next := if n == 0 then i + 1 else i + n;
      var head := if n == 0 then [s[i]] else repl;
      SubFromChars(m, s, next, repl);
      var rest := SubFrom(m, s, next, repl);
      var r := SubFrom(m, s, i, repl);
      assert r == head + rest;
      forall c | c in r ensures c in s || c in repl {
        if c !in head {
          assert c in rest;
        }
      }
    }
  }

  /** A replacement of at most one character never lengthens the text. */
  lemma {:induction false} SubFromShrinks(m: Matcher, s: string, i: nat, repl: string)
    requires i <= |s| && |repl| <= 1
    ensures |SubFrom(m, s, i, repl)| <= |s| - i
    decreases |s| - i
  {
    if i < |s| {
      var n := MatchAt(m, s, i);
      if n == 0 {
        SubFromShrinks(m, s, i + 1, repl);
      } else {
        SubFromShrinks(m, s, i + n, repl);
      }
    }
  }

  lemma SubShrinks(p: Pat, s: string, repl: string)
    requires |repl| <= 1
    ensures |Sub(p, s, repl)| <= |s|
  {
    SubFromShrinks(MatcherOf(p), s, 0, repl);
  }

  lemma SubChars(p: Pat, s: string, repl: string)
    ensures forall c :: c in Sub(p, s, repl) ==> c in s || c in repl
  {
    SubFromChars(MatcherOf(p), s, 0, repl);
  }

  /** Where the pattern matches nowhere, substitution is the identity. */
  lemma {:induction false} SubFromNoMatch(m: Matcher, s: string, i: nat, repl: string)
    requires i <= |s|
    requires forall j :: i <= j < |s| ==> MatchAt(m, s, j) == 0
    ensures SubFrom(m, s, i, repl) == s[i..]
    decreases |s| - i
  {
    if i < |s| {
      SubFromNoMatch(m, s, i + 1, repl);
      assert s[i..] == [s[i]] + s[i + 1..];
    }
  }

  /** `re.sub` copies a stretch without matches unchanged. */
  lemma {:induction false} SubFromCopies(m: Matcher, s: string, i: nat, k: nat, repl: string)
    requires i <= k <= |s|
    requires forall j :: i <= j < k ==> MatchAt(m, s, j) == 0
    ensures SubFrom(m, s, i, repl) == s[i..k] + SubFrom(m, s, k, repl)
    decreases k - i
  {
    if i < k {
      SubFromCopies(m, s, i + 1, k, repl);
      assert MatchAt(m, s, i) == 0;
      assert SubFrom(m, s, i, repl) == [s[i]] + SubFrom(m, s, i + 1, repl);
      assert s[i..k] == [s[i]] + s[i + 1..k];
    }
  }

  /** A match of `\b(w1|w2|...)\b` is an occurrence of one of the words. */
  lemma LiteralsMatch(words: seq<string>, s: string, i: nat)
    requires i <= |s| && MatchAt(MatcherOf(Literals(words, false)), s, i) > 0
    ensures exists k :: 0 <= k < |words| && |words[k]| == MatchAt(MatcherOf(Literals(words, false)), s, i)
                        && LiteralAt(s, i, words[k])
  {
    assert MatchAt(MatcherOf(Literals(words, false)), s, i) == FirstLiteral(words, s, i);
    FirstLiteralWord(words, s, i);
  }

  /** A pattern that matches at no position leaves the text unchanged. */
  lemma SubNoMatch(p: Pat, s: string, repl: string)
    requires forall j :: 0 <= j < |s| ==> MatchLen(p, s, j) == 0
    ensures Sub(p, s, repl) == s
  {
    SubFromNoMatch(MatcherOf(p), s, 0, repl);
  }

  /** No word starts with the character at `i`, so none of them matches there. */
  lemma NoLiteralStart(words: seq<string>, s: string, i: nat)
    requires i < |s| && forall k :: 0 <= k < |words| && |words[k]| > 0 ==> words[k][0] != Lower(s[i])
    ensures FirstLiteral(words, s, i) == 0
  {
  }

  /** No alternative longer than the text can match in it. */
  lemma {:induction false} LongWordsMiss(words: seq<string>, s: string, i: nat)
    requires forall k :: 0 <= k < |words| ==> |words[k]| > |s|
    ensures FirstLiteral(words, s, i) == 0
    decreases |words|
  {
    if words != [] {
      assert forall k :: 0 <= k < |words[1..]| ==> words[1..][k] == words[k + 1];
      LongWordsMiss(words[1..], s, i);
    }
  }

  /** The satellite-parameter patterns all need a digit, so a text without
      digits passes through them unchanged. */
  lemma NoDigitsNoParameters(p: Pat, s: string, repl: string)
    requires p == Frequency || p == SymbolRate || p == Fec || p == ModulationS
    requires forall k :: 0 <= k < |s| ==> !IsDigit(s[k])
    ensures Sub(p, s, repl) == s
  {
    forall j | 0 <= j < |s| ensures MatchLen(p, s, j) == 0 {
      assert !DigitAt(s, j);
      if j + 1 < |s| {
        assert !DigitAt(s, j + 1) && !IsDigit(s[j + 1]);
      }
    }
    SubNoMatch(p, s, repl);
  }

  /** Both DVB token forms contain a `b`, so a text without one keeps no DVB token. */
  lemma NoBNoDvb(mode: DvbMode, s: string, repl: string)
    requires forall k :: 0 <= k < |s| ==> Lower(s[k]) != 'b'
    ensures Sub(Dvb(mode), s, repl) == s
  {
    forall j | 0 <= j <= |s| ensures DvbTokenLen(s, j) == 0 {
      if j + 2 < |s| { assert Lower(s[j + 2]) != "dvb-"[2]; }
      assert !LiteralAt(s, j, "dvb-");
      if j + 1 < |s| { assert Lower(s[j + 1]) != "db-s"[1]; }
      assert !LiteralAt(s, j, "db-s");
    }
    forall j | 0 <= j < |s| ensures MatchLen(Dvb(mode), s, j) == 0 {
      var w := j + WsRunLen(s, j);
      assert DvbTokenLen(s, w) == 0;
    }
    SubNoMatch(Dvb(mode), s, repl);
  }

  /** The polarisation letter must be one of V, H, L, R. */
  lemma NoPolarisationLetter(s: string, repl: string)
    requires forall k :: 0 <= k < |s| ==> s[k] !in "VHLR"
    ensures Sub(Polarisation, s, repl) == s
  {
    SubNoMatch(Polarisation, s, repl);
  }

  datatype Option<T> = None | Some(value: T)

  /** `re.search(p, s)`: the start of the leftmost match from `i` on. */
  function SearchFrom(m: Matcher, s: string, i: nat): (r: Option<nat>)
    requires i <= |s|
    ensures r.Some? ==> i <= r.value < |s| && MatchAt(m, s, r.value) > 0
    ensures r.Some? ==> forall j :: i <= j < r.value ==> MatchAt(m, s, j) == 0
    ensures r.None? ==> forall j :: i <= j < |s| ==> MatchAt(m, s, j) == 0
    decreases |s| - i
  {
    if i == |s| then None
    else if MatchAt(m, s, i) > 0 then Some(i)
    else SearchFrom(m, s, i + 1)
  }

  function Search(p: Pat, s: string): Option<nat> {
    SearchFrom(MatcherOf(p), s, 0)
  }

  /** The text of the leftmost match, or "" when there is none
      (`m.group(1) if m else ''`). */
  function Found(p: Pat, s: string): (r: string)
    ensures r != "" <==> Search(p, s).Some?
  {
    match Search(p, s)
    case None => ""
    case Some(i) => s[i..i + MatchAt(MatcherOf(p), s, i)]
  }

  /** `f` is the text of the leftmost match of `p` in `s`, the whole match,
      or "" when `p` matches at no position. */
  predicate LeftmostMatchText(p: Pat, s: string, f: string) {
    || (f == "" && forall j :: 0 <= j < |s| ==> MatchAt(MatcherOf(p), s, j) == 0)
    || (exists i :: 0 <= i < |s| && MatchAt(MatcherOf(p), s, i) == |f| > 0 && f == s[i..i + |f|]
                    && forall j :: 0 <= j < i ==> MatchAt(MatcherOf(p), s, j) == 0)
  }

  /** `m.group(1) if m else ''` is the leftmost match's text. */
  lemma FoundLeftmost(p: Pat, s: string)
    ensures LeftmostMatchText(p, s, Found(p, s))
  {
    var m := MatcherOf(p);
    var f := Found(p, s);
    match SearchFrom(m, s, 0)
    case None =>
      assert f == "";
    case Some(i) =>
      var n := MatchAt(m, s, i);
      assert f == s[i..i + n] && |f| == n > 0;
      assert forall j :: 0 <= j < i ==> MatchAt(m, s, j) == 0;
      assert 0 <= i < |s| && MatchAt(m, s, i) == |f| > 0 && f == s[i..i + |f|];
  }

  lemma SearchNoneSubIdentity(p: Pat, s: string, repl: string)
    requires Search(p, s).None?
    ensures Sub(p, s, repl) == s
  {
    SubFromNoMatch(MatcherOf(p), s, 0, repl);
  }

  // ---------------------------------------------------------------------
  // End-anchored passes (`$` is read as the end of the string).

  /** `\s+D\s+D\s*$` removed, for the letter `d`. */
  function TrailDoubleLetter(s: string, d: char): (r: string)
    ensures |r| <= |s| && r == s[..|r|]
  {
    var e := WsStartBefore(s, |s|);
    if e >= 1 && s[e - 1] == d then
      var a := WsStartBefore(s, e - 1);
      if a < e - 1 && a >= 1 && s[a - 1] == d then
        var b := WsStartBefore(s, a - 1);
        if b < a - 1 then s[..b] else s
      else s
    else s
  }

  /** `\s+D\s*$` removed, for the letter `d`. */
  function TrailLetter(s: string, d: char): (r: string)
    ensures |r| <= |s| && r == s[..|r|]
  {
    var e := WsStartBefore(s, |s|);
    if e >= 1 && s[e - 1] == d then
      var a := WsStartBefore(s, e - 1);
      if a < e - 1 then s[..a] else s
    else s
  }

  /** `\s*[signs]\s*$` removed. */
  function TrailSign(s: string, signs: string): (r: string)
    ensures |r| <= |s| && r == s[..|r|]
  {
    var e := WsStartBefore(s, |s|);
    if e >= 1 && s[e - 1] in signs then s[..WsStartBefore(s, e - 1)] else s
  }

  // ---------------------------------------------------------------------
  // Whitespace normalisation: `re.sub(r'\s+', ' ', s).strip()`.

  /** Removing whitespace from both ends (`str.strip()`). */
  function Strip(s: string): (r: string)
    ensures |r| <= |s|
    ensures r != [] ==> !IsSpace(r[0]) && !IsSpace(r[|r| - 1])
    ensures forall c :: c in r ==> c in s
    ensures (forall k :: 0 <= k < |s| ==> IsSpace(s[k])) <==> r == []
  {
    var a := WsRunLen(s, 0);
    if a == |s| then "" else
      var b := WsStartBefore(s, |s|);
      assert !IsSpace(s[a]);
      assert a < b;
      var r := s[a..b];
      assert forall c :: c in r ==> c in s by {
        forall c | c in r ensures c in s {
          var k :| 0 <= k < |r| && r[k] == c;
          assert s[a + k] == c;
        }
      }
      r
  }

  /** Whitespace is single spaces, never doubled, never at either end. */
  predicate Squashed(t: string) {
    && (forall k :: 0 <= k < |t| && IsSpace(t[k]) ==> t[k] == ' ')
    && (forall k :: 0 <= k < |t| - 1 && IsSpace(t[k]) ==> !IsSpace(t[k + 1]))
    && (t != [] ==> !IsSpace(t[0]) && !IsSpace(t[|t| - 1]))
  }

  /** Every whitespace character is a single space not followed by another. */
  predicate Collapsed(t: string) {
    && (forall k :: 0 <= k < |t| && IsSpace(t[k]) ==> t[k] == ' ')
    && (forall k :: 0 <= k < |t| - 1 && IsSpace(t[k]) ==> !IsSpace(t[k + 1]))
  }

  lemma {:induction false} CollapseFrom(s: string, i: nat)
    requires i <= |s|
    ensures Collapsed(SubFrom(MatcherOf(SpaceRun), s, i, " "))
    ensures i < |s| && !IsSpace(s[i]) ==> SubFrom(MatcherOf(SpaceRun), s, i, " ")[0] == s[i]
    decreases |s| - i
  {
    if i < |s| {
      var n := MatchAt(MatcherOf(SpaceRun), s, i);
      if n == 0 {
        CollapseFrom(s, i + 1);
        var rest := SubFrom(MatcherOf(SpaceRun), s, i + 1, " ");
        assert SubFrom(MatcherOf(SpaceRun), s, i, " ") == [s[i]] + rest;
        assert !IsSpace(s[i]);
        CollapsedCons(s[i], rest);
      } else {
        CollapseFrom(s, i + n);
        var rest := SubFrom(MatcherOf(SpaceRun), s, i + n, " ");
        assert SubFrom(MatcherOf(SpaceRun), s, i, " ") == [' '] + rest;
        assert rest != [] ==> !IsSpace(rest[0]) by {
          if rest != [] {
            assert i + n < |s|;
          }
        }
        CollapsedCons(' ', rest);
      }
    }
  }

  /** A character put in front of a collapsed text keeps it collapsed when
      it is not whitespace, or is a single space before a non-space. */
  lemma CollapsedCons(c: char, rest: string)
    requires Collapsed(rest)
    requires IsSpace(c) ==> c == ' ' && (rest != [] ==> !IsSpace(rest[0]))
    ensures Collapsed([c] + rest)
  {
    var t := [c] + rest;
    assert forall k :: 1 <= k < |t| ==> t[k] == rest[k - 1];
  }

  function Squash(s: string): (r: string)
    ensures Squashed(r)
    ensures forall c :: c in r ==> c in s || c == ' '
    ensures |r| <= |s|
  {
    var c := Sub(SpaceRun, s, " ");
    CollapseFrom(s, 0);
    SubChars(SpaceRun, s, " ");
    SubShrinks(SpaceRun, s, " ");
    var r := Strip(c);
    StripCollapsed(c);
    r
  }

  lemma StripCollapsed(c: string)
    requires Collapsed(c)
    ensures Squashed(Strip(c))
  {
    var a := WsRunLen(c, 0);
    if a < |c| {
      var b := WsStartBefore(c, |c|);
      var r := Strip(c);
      assert r == c[a..b];
      assert forall k :: 0 <= k < |r| ==> r[k] == c[a + k];
    }
  }

  /** Collapsing changes nothing where whitespace is already single spaces. */
  lemma {:induction false} CollapsedFixed(s: string, i: nat)
    requires i <= |s| && Collapsed(s)
    ensures SubFrom(MatcherOf(SpaceRun), s, i, " ") == s[i..]
    decreases |s| - i
  {
    if i < |s| {
      var n := MatchAt(MatcherOf(SpaceRun), s, i);
      assert n == WsRunLen(s, i);
      if IsSpace(s[i]) {
        assert i + 1 == |s| || !IsSpace(s[i + 1]);
        assert n == 1;
      } else {
        assert n == 0;
      }
      CollapsedFixed(s, i + 1);
      assert s[i..] == [s[i]] + s[i + 1..];
    }
  }

  /** Squashing is idempotent: a squashed text is its own squash. */
  lemma SquashFixed(s: string)
    requires Squashed(s)
    ensures Squash(s) == s
  {
    CollapsedFixed(s, 0);
    if s != [] {
      assert WsRunLen(s, 0) == 0;
      assert WsStartBefore(s, |s|) == |s|;
    }
  }

  lemma SquashIdempotent(s: string)
    ensures Squash(Squash(s)) == Squash(s)
  {
    SquashFixed(Squash(s));
  }
}
