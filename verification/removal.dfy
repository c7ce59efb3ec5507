/** `re.sub(r'\s*\b(w1|w2|...)\b\s*', ' ', s)` removes every bounded
    occurrence of the words and leaves none behind: each replacement writes
    a space, so the text on either side keeps its word boundaries, and a
    word the scan copies unmatched was not bounded in the input.

    The scan is reasoned about for any matcher with three properties of the
    spaced alternation (`Removes`), which are then shown for it; the
    character classes stay hidden in these proofs, and the two facts about
    them that are needed are lemmas of their own. */
module Removal {
  import opened Chars
  import opened Patterns

  /** Non-empty words made of word characters. */
  predicate TokenWords(words: seq<string>) {
    forall k :: 0 <= k < |words| ==> |words[k]| > 0 && forall j :: 0 <= j < |words[k]| ==> IsWordChar(words[k][j])
  }

  /** Nothing word-like stands just before position `p` of `t`; at the
      start, `lw` says whether a word character precedes `t`. */
  predicate LeftFree(lw: bool, t: string, p: nat)
    requires p <= |t|
  {
    if p == 0 then !lw else !IsWordChar(t[p - 1])
  }

  /** Nothing word-like stands at position `e` of `t`. */
  predicate RightFree(t: string, e: nat) {
    e >= |t| || !IsWordChar(t[e])
  }

  /** `words[k]` occurs at `p` of `t` with free text on both sides. */
  predicate BoundedAt(words: seq<string>, lw: bool, t: string, p: nat, k: nat)
    requires p <= |t| && k < |words|
  {
    LiteralAt(t, p, words[k]) && LeftFree(lw, t, p) && RightFree(t, p + |words[k]|)
  }

  /** No word of `words` occurs bounded in `t`. */
  predicate NoBoundedWord(words: seq<string>, lw: bool, t: string) {
    forall p, k :: 0 <= p < |t| && 0 <= k < |words| ==> !BoundedAt(words, lw, t, p, k)
  }

  lemma WordNotSpace(c: char)
    requires IsWordChar(c)
    ensures !IsSpace(c)
  {
  }

  lemma SpaceNotWord(c: char)
    requires IsSpace(c)
    ensures !IsWordChar(c)
  {
  }

  // ---------------------------------------------------------------------
  // The scan, for any matcher that behaves like the spaced alternation.

  /** A match never starts inside a run of word characters. */
  predicate KeepsRuns(m: Matcher, s: string) {
    forall j :: 0 < j < |s| && IsWordChar(s[j - 1]) && IsWordChar(s[j]) ==> MatchAt(m, s, j) == 0
  }

  /** A match that ends on a word character ends at a word boundary. */
  predicate EndsFree(m: Matcher, s: string) {
    forall i :: 0 <= i < |s| && MatchAt(m, s, i) > 0 && IsWordChar(s[i + MatchAt(m, s, i) - 1]) ==>
      RightFree(s, i + MatchAt(m, s, i))
  }

  /** Every bounded word of the input is the start of a match. */
  predicate CatchesBounded(m: Matcher, words: seq<string>, s: string) {
    forall i, k :: 0 <= i < |s| && 0 <= k < |words| && BoundedAt(words, false, s, i, k) ==> MatchAt(m, s, i) > 0
  }

  predicate Removes(m: Matcher, words: seq<string>, s: string) {
    TokenWords(words) && KeepsRuns(m, s) && EndsFree(m, s) && CatchesBounded(m, words, s)
  }

  /** The first character written from position `j`. */
  lemma SubFromHead(m: Matcher, s: string, j: nat)
    requires j < |s|
    ensures var r := SubFrom(m, s, j, " ");
            r != [] && (r[0] == s[j] || r[0] == ' ')
  {
  }

  /** An unmatched word character starts a copy of its whole run, followed
      by something that is not a word character. */
  lemma LeadingRun(m: Matcher, s: string, i: nat)
    requires KeepsRuns(m, s)
    requires i < |s| && IsWordChar(s[i]) && MatchAt(m, s, i) == 0
    ensures var r := SubFrom(m, s, i, " ");
            var l := WordRunLen(s, i);
            l <= |r| && (forall j :: 0 <= j < l ==> r[j] == s[i + j]) && RightFree(r, l)
  {
    hide IsSpace, IsWordChar;
    var l := WordRunLen(s, i);
    forall j | i <= j < i + l ensures MatchAt(m, s, j) == 0 {
      if j > i {
        assert IsWordChar(s[j - 1]) && IsWordChar(s[j]);
      }
    }
    SubFromCopies(m, s, i, i + l, " ");
    var r := SubFrom(m, s, i, " ");
    var rest := SubFrom(m, s, i + l, " ");
    assert r == s[i..i + l] + rest;
    if i + l < |s| {
      SubFromHead(m, s, i + l);
      assert r[l] == rest[0];
      SpaceNotWord(' ');
    }
  }

  /** A bounded word at the head of an unmatched copy is a bounded word of
      the input at the position the copy starts from. */
  lemma CopiedHeadWord(m: Matcher, words: seq<string>, s: string, i: nat, k: nat)
    requires KeepsRuns(m, s) && TokenWords(words) && k < |words|
    requires i < |s| && MatchAt(m, s, i) == 0
    requires 0 < i && IsWordChar(s[i - 1]) ==> !IsWordChar(s[i])
    requires BoundedAt(words, false, SubFrom(m, s, i, " "), 0, k)
    ensures BoundedAt(words, false, s, i, k)
  {
    hide IsSpace, IsWordChar;
    var r := SubFrom(m, s, i, " ");
    var w := words[k];
    assert r[0] == s[i];
    assert IsWordChar(Lower(r[0])) by { assert Lower(r[0]) == w[0]; }
    LeadingRun(m, s, i);
    WordIsRun(w, r, WordRunLen(s, i));
    assert LiteralAt(s, i, w) by {
      forall j | 0 <= j < |w| ensures Lower(s[i + j]) == w[j] {
        assert r[j] == s[i + j];
      }
    }
  }

  /** A bounded word at the head of an unmatched copy would have been
      matched there. */
  lemma NoWordAtCopiedHead(m: Matcher, words: seq<string>, s: string, i: nat, lw: bool, k: nat)
    requires Removes(m, words, s) && k < |words|
    requires i < |s| && MatchAt(m, s, i) == 0
    requires lw ==> 0 < i && IsWordChar(s[i - 1])
    requires !lw && 0 < i && IsWordChar(s[i - 1]) ==> !IsWordChar(s[i])
    ensures var r := SubFrom(m, s, i, " ");
            |r| > 0 && !BoundedAt(words, lw, r, 0, k)
  {
    hide IsSpace, IsWordChar;
    if !lw && BoundedAt(words, false, SubFrom(m, s, i, " "), 0, k) {
      CopiedHeadWord(m, words, s, i, k);
    }
  }

  /** A word that is free on the right and starts a run of word
      characters is that whole run. */
  lemma WordIsRun(w: string, r: string, l: nat)
    requires l <= |r| && LiteralAt(r, 0, w) && RightFree(r, |w|) && RightFree(r, l)
    requires forall j :: 0 <= j < |w| ==> IsWordChar(w[j])
    requires forall j :: 0 <= j < l ==> IsWordChar(r[j])
    ensures |w| == l
  {
    hide IsSpace, IsWordChar;
    assert l < |w| ==> IsWordChar(Lower(r[l])) by {
      if l < |w| {
        assert Lower(r[l]) == w[l];
      }
    }
  }

  /** A bounded word of `[c] + t` past its head is a bounded word of `t`. */
  lemma ShiftBounded(words: seq<string>, c: char, t: string, lw: bool, p: nat, k: nat)
    requires 1 <= p <= |t| && k < |words|
    requires BoundedAt(words, lw, [c] + t, p, k)
    ensures BoundedAt(words, IsWordChar(c), t, p - 1, k)
  {
    hide IsSpace, IsWordChar;
    var u := [c] + t;
    assert forall j :: 1 <= j < |u| ==> u[j] == t[j - 1];
    var w := words[k];
    forall j | 0 <= j < |w| ensures Lower(t[p - 1 + j]) == w[j] {
      assert u[p + j] == t[p - 1 + j];
    }
  }

  /** The main induction: scanning from `i`, where `lw` says whether the
      text written just before is a word character, no bounded word is
      left in what the substitution writes. */
  lemma {:induction false} NoBoundedWordAfterSub(m: Matcher, words: seq<string>, s: string, i: nat, lw: bool)
    requires Removes(m, words, s) && i <= |s|
    requires lw ==> 0 < i && IsWordChar(s[i - 1])
    requires !lw && 0 < i && IsWordChar(s[i - 1]) ==> i == |s| || !IsWordChar(s[i])
    ensures NoBoundedWord(words, lw, SubFrom(m, s, i, " "))
    decreases |s| - i
  {
    hide IsSpace, IsWordChar;
    var r := SubFrom(m, s, i, " ");
    if i < |s| {
      var n := MatchAt(m, s, i);
      var c := if n == 0 then s[i] else ' ';
      var next := if n == 0 then i + 1 else i + n;
      var rest := SubFrom(m, s, next, " ");
      assert r == [c] + rest;
      if n == 0 {
        NoBoundedWordAfterSub(m, words, s, i + 1, IsWordChar(s[i]));
      } else {
        assert IsWordChar(s[i + n - 1]) ==> RightFree(s, i + n);
        NoBoundedWordAfterSub(m, words, s, i + n, false);
        SpaceNotWord(' ');
      }
      forall p, k | 0 <= p < |r| && 0 <= k < |words| ensures !BoundedAt(words, lw, r, p, k) {
        if p == 0 {
          if n == 0 {
            NoWordAtCopiedHead(m, words, s, i, lw, k);
          } else {
            assert Lower(r[0]) == ' ';
            assert IsWordChar(words[k][0]);
          }
        } else if BoundedAt(words, lw, r, p, k) {
          ShiftBounded(words, c, rest, lw, p, k);
        }
      }
    }
  }

  // ---------------------------------------------------------------------
  // The spaced alternation has the three properties.

  /** The spaced alternation `\s*\b(w1|...)\b\s*` at `i`: the length of its
      match, 0 when there is none. */
  function SpacedLen(words: seq<string>, s: string, i: nat): (n: nat)
    requires i <= |s|
    ensures i + n <= |s|
  {
    if i == |s| then 0 else
    var j := i + WsRunLen(s, i);
    var w := if Boundary(s, j) then FirstLiteral(words, s, j) else 0;
    if w == 0 then 0 else j + w + WsRunLen(s, j + w) - i
  }

  lemma SpacedLenIsMatch(words: seq<string>, s: string, i: nat)
    requires i <= |s|
    ensures MatchAt(MatcherOf(Literals(words, true)), s, i) == SpacedLen(words, s, i)
  {
    assert MatchLen(Literals(words, true), s, i) == SpacedLen(words, s, i);
  }

  /** Some word fits with a boundary after it: the alternation matches. */
  lemma {:induction false} FirstLiteralFits(words: seq<string>, s: string, i: nat, k: nat)
    requires k < |words| && |words[k]| > 0 && LiteralAt(s, i, words[k]) && Boundary(s, i + |words[k]|)
    ensures FirstLiteral(words, s, i) > 0
    decreases k
  {
    if !(|words[0]| > 0 && LiteralAt(s, i, words[0]) && Boundary(s, i + |words[0]|)) {
      assert words[1..][k - 1] == words[k];
      FirstLiteralFits(words[1..], s, i, k - 1);
    }
  }

  lemma SpacedMatchEnd(words: seq<string>, s: string, i: nat)
    requires i < |s| && SpacedLen(words, s, i) > 0
    ensures var e := i + SpacedLen(words, s, i);
            IsWordChar(s[e - 1]) ==> RightFree(s, e)
  {
    hide IsSpace, IsWordChar;
    var j := i + WsRunLen(s, i);
    var w := FirstLiteral(words, s, j);
    var t := WsRunLen(s, j + w);
    if t > 0 {
      SpaceNotWord(s[j + w + t - 1]);
    } else {
      assert Boundary(s, j + w);
    }
  }

  lemma NoMatchInsideRun(words: seq<string>, s: string, j: nat)
    requires 0 < j < |s| && IsWordChar(s[j - 1]) && IsWordChar(s[j])
    ensures SpacedLen(words, s, j) == 0
  {
    hide IsSpace, IsWordChar;
    WordNotSpace(s[j]);
    assert WsRunLen(s, j) == 0;
    assert !Boundary(s, j);
  }

  lemma BoundedWordMatches(words: seq<string>, s: string, i: nat, k: nat)
    requires TokenWords(words) && i < |s| && k < |words| && BoundedAt(words, false, s, i, k)
    ensures SpacedLen(words, s, i) > 0
  {
    hide IsSpace, IsWordChar;
    var w := words[k];
    assert IsWordChar(Lower(s[i + 0])) by { assert Lower(s[i + 0]) == w[0]; }
    assert IsWordChar(Lower(s[i + (|w| - 1)])) by { assert Lower(s[i + (|w| - 1)]) == w[|w| - 1]; }
    WordNotSpace(s[i]);
    assert WsRunLen(s, i) == 0;
    assert Boundary(s, i);
    assert Boundary(s, i + |w|);
    FirstLiteralFits(words, s, i, k);
  }

  /** `\s*\b(w1|...)\b\s*` has the three properties the scan relies on. */
  lemma SpacedRemoves(words: seq<string>, s: string)
    requires TokenWords(words)
    ensures Removes(MatcherOf(Literals(words, true)), words, s)
  {
    var m := MatcherOf(Literals(words, true));
    forall j | 0 < j < |s| && IsWordChar(s[j - 1]) && IsWordChar(s[j]) ensures MatchAt(m, s, j) == 0 {
      SpacedLenIsMatch(words, s, j);
      NoMatchInsideRun(words, s, j);
    }
    forall i | 0 <= i < |s| && MatchAt(m, s, i) > 0 && IsWordChar(s[i + MatchAt(m, s, i) - 1])
      ensures RightFree(s, i + MatchAt(m, s, i))
    {
      SpacedLenIsMatch(words, s, i);
      SpacedMatchEnd(words, s, i);
    }
    forall i, k | 0 <= i < |s| && 0 <= k < |words| && BoundedAt(words, false, s, i, k) ensures MatchAt(m, s, i) > 0 {
      SpacedLenIsMatch(words, s, i);
      BoundedWordMatches(words, s, i, k);
    }
  }

  // ---------------------------------------------------------------------
  // Stripping, and the search afterwards.

  /** Stripping whitespace from the ends keeps a text free of bounded words. */
  lemma StripKeepsNoBoundedWord(words: seq<string>, t: string)
    requires NoBoundedWord(words, false, t)
    ensures NoBoundedWord(words, false, Strip(t))
  {
    hide IsSpace, IsWordChar;
    var a := WsRunLen(t, 0);
    if a < |t| {
      var b := WsStartBefore(t, |t|);
      var u := Strip(t);
      assert u == t[a..b];
      forall p, k | 0 <= p < |u| && 0 <= k < |words| ensures !BoundedAt(words, false, u, p, k) {
        var w := words[k];
        assert LiteralAt(u, p, w) ==> LiteralAt(t, a + p, w) by {
          if LiteralAt(u, p, w) {
            forall j | 0 <= j < |w| ensures Lower(t[a + p + j]) == w[j] {
              assert u[p + j] == t[a + p + j];
            }
          }
        }
        if LiteralAt(u, p, w) {
          assert LeftFree(false, u, p) ==> LeftFree(false, t, a + p) by {
            if p == 0 && a > 0 {
              SpaceNotWord(t[a - 1]);
            }
          }
          assert RightFree(u, p + |w|) ==> RightFree(t, a + p + |w|) by {
            if p + |w| == |u| && b < |t| {
              SpaceNotWord(t[b]);
            } else if p + |w| < |u| {
              assert u[p + |w|] == t[a + p + |w|];
            }
          }
        }
        assert !BoundedAt(words, false, t, a + p, k);
      }
    }
  }

  /** A match of `\b(w1|...)\b` is a bounded word. */
  lemma BoundedMatchIsWord(words: seq<string>, t: string, p: nat)
    requires TokenWords(words) && p < |t|
    requires MatchAt(MatcherOf(Literals(words, false)), t, p) > 0
    ensures exists k :: 0 <= k < |words| && BoundedAt(words, false, t, p, k)
  {
    hide IsSpace, IsWordChar;
    var n := MatchAt(MatcherOf(Literals(words, false)), t, p);
    assert Boundary(t, p) && n == FirstLiteral(words, t, p);
    LiteralsMatch(words, t, p);
    var k :| 0 <= k < |words| && |words[k]| == n && LiteralAt(t, p, words[k]);
    assert IsWordChar(Lower(t[p + 0])) by { assert Lower(t[p + 0]) == words[k][0]; }
    assert IsWordChar(Lower(t[p + (n - 1)])) by { assert Lower(t[p + (n - 1)]) == words[k][n - 1]; }
    assert Boundary(t, p + n);
    assert BoundedAt(words, false, t, p, k);
  }

  /** A text free of bounded words gives `re.search(r'\b(w1|...)\b', t)`
      nothing to find. */
  lemma NoBoundedWordNoMatch(words: seq<string>, t: string)
    requires TokenWords(words) && NoBoundedWord(words, false, t)
    ensures Search(Literals(words, false), t).None?
  {
    var q := MatcherOf(Literals(words, false));
    forall p | 0 <= p < |t| ensures MatchAt(q, t, p) == 0 {
      if MatchAt(q, t, p) > 0 {
        BoundedMatchIsWord(words, t, p);
      }
    }
  }

  /** `re.sub(r'\s*\b(w1|...)\b\s*', ' ', s).strip()` holds no bounded word:
      `re.search(r'\b(w1|...)\b', ...)` finds nothing in it. */
  lemma SubStripNoWord(words: seq<string>, s: string)
    requires TokenWords(words)
    ensures Search(Literals(words, false), Strip(Sub(Literals(words, true), s, " "))).None?
  {
    SpacedRemoves(words, s);
    NoBoundedWordAfterSub(MatcherOf(Literals(words, true)), words, s, 0, false);
    StripKeepsNoBoundedWord(words, Sub(Literals(words, true), s, " "));
    NoBoundedWordNoMatch(words, Strip(Sub(Literals(words, true), s, " ")));
  }
}
