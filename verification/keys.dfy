/** Comparison keys: the three `normalize_channel_name` policies.

    - LettersAndDigits (tvhlst.py): lower-case, keep `a-z0-9`.
    - LettersOnly (tvhlstfta.py): lower-case, keep `a-z`.
    - Fuzzy (tvh_parser_fix.py, tvh-bouquet-fixed.py): lower-case, drop quality
      and DVB tokens and a trailing "d"/"d d", squash whitespace, keep word
      characters, whitespace, `+` and `-`. */
module Keys {
  import opened Chars
  import opened Patterns

  datatype KeyPolicy = LettersAndDigits | LettersOnly | Fuzzy

  /** The characters a letters-only or letters-and-digits key keeps. */
  predicate Kept(c: char, digits: bool) {
    IsAsciiLower(c) || (digits && IsDigit(c))
  }

  /** Dropping every character outside `a-z0-9` (outside `a-z` when digits
      are not kept). */
  function KeepKeyChars(s: string, digits: bool): (r: string)
    ensures |r| <= |s|
    ensures forall c :: c in r ==> Kept(c, digits)
  {
    if s == [] then []
    else (if Kept(s[0], digits) then [s[0]] else []) + KeepKeyChars(s[1..], digits)
  }

  lemma {:induction false} KeepKeyCharsAppend(a: string, b: string, digits: bool)
    ensures KeepKeyChars(a + b, digits) == KeepKeyChars(a, digits) + KeepKeyChars(b, digits)
  {
    if a != [] {
      assert (a + b)[1..] == a[1..] + b;
      KeepKeyCharsAppend(a[1..], b, digits);
    } else {
      assert a + b == b;
    }
  }

  /** Keeping twice is keeping once. */
  lemma {:induction false} KeepKeyCharsIdempotent(s: string, digits: bool)
    ensures KeepKeyChars(KeepKeyChars(s, digits), digits) == KeepKeyChars(s, digits)
  {
    if s != [] {
      KeepKeyCharsIdempotent(s[1..], digits);
      var head := if Kept(s[0], digits) then [s[0]] else [];
      KeepKeyCharsAppend(head, KeepKeyChars(s[1..], digits), digits);
    }
  }

  /** Strings made of kept characters are their own key. */
  lemma {:induction false} KeepKeyCharsFixed(s: string, digits: bool)
    requires forall c :: c in s ==> Kept(c, digits)
    ensures KeepKeyChars(s, digits) == s
  {
    if s != [] {
      assert s[0] in s;
      assert forall c :: c in s[1..] ==> c in s;
      KeepKeyCharsFixed(s[1..], digits);
    }
  }

  /** tvhlst.py `normalize_channel_name` (and `create_mapping_key`, which only calls it). */
  function LettersDigitsKey(name: string): (r: string)
    ensures name == "" ==> r == ""
    ensures forall c :: c in r ==> IsAsciiLower(c) || IsDigit(c)
    ensures |r| <= |name|
  {
    if name == "" then "" else KeepKeyChars(LowerStr(name), true)
  }

  /** tvhlstfta.py `normalize_channel_name` (and `create_mapping_key`). */
  function LettersKey(name: string): (r: string)
    ensures name == "" ==> r == ""
    ensures forall c :: c in r ==> IsAsciiLower(c)
    ensures |r| <= |name|
  {
    if name == "" then "" else KeepKeyChars(LowerStr(name), false)
  }

  /** The letters-only and letters-and-digits keys are determined character by
      character: the key of a concatenation is the concatenation of the keys. */
  lemma KeyOfConcat(a: string, b: string, digits: bool)
    ensures digits ==> LettersDigitsKey(a + b) == LettersDigitsKey(a) + LettersDigitsKey(b)
    ensures !digits ==> LettersKey(a + b) == LettersKey(a) + LettersKey(b)
  {
    LowerStrAppend(a, b);
    KeepKeyCharsAppend(LowerStr(a), LowerStr(b), digits);
    if a == [] { assert a + b == b; }
    if b == [] { assert a + b == a; }
  }

  /** ... and a single character keeps its lower-case form exactly when that
      form is `a-z` (or `0-9` with digits). Together with `KeyOfConcat` this
      determines both keys completely. */
  lemma KeyOfChar(c: char)
    ensures LettersDigitsKey([c]) == if Kept(Lower(c), true) then [Lower(c)] else []
    ensures LettersKey([c]) == if Kept(Lower(c), false) then [Lower(c)] else []
  {
    assert LowerStr([c]) == [Lower(c)];
    assert [Lower(c)][1..] == [];
  }

  /** The letters-only key is idempotent (tvhlstfta.py:151-160). */
  lemma LettersKeyIdempotent(name: string)
    ensures LettersKey(LettersKey(name)) == LettersKey(name)
  {
    var k := LettersKey(name);
    if k != "" {
      LowerFixesKeyChars(k);
      KeepKeyCharsFixed(k, false);
    }
  }

  /** The letters-and-digits key is idempotent too. */
  lemma LettersDigitsKeyIdempotent(name: string)
    ensures LettersDigitsKey(LettersDigitsKey(name)) == LettersDigitsKey(name)
  {
    var k := LettersDigitsKey(name);
    if k != "" {
      LowerFixesKeyChars(k);
      KeepKeyCharsFixed(k, true);
    }
  }

  lemma LowerFixesKeyChars(k: string)
    requires forall c :: c in k ==> IsAsciiLower(c) || IsDigit(c)
    ensures LowerStr(k) == k
  {
    forall j | 0 <= j < |k| ensures LowerStr(k)[j] == k[j] {
      assert k[j] in k;
    }
  }

  /** The letters-only key forgets the digits of the letters-and-digits key:
      it is a coarser key, so every letters-and-digits collision is also a
      letters-only collision. */
  lemma {:induction false} LettersKeyCoarser(name: string)
    ensures LettersKey(name) == KeepKeyChars(LettersDigitsKey(name), false)
  {
    if name != "" {
      CoarserChars(LowerStr(name));
    }
  }

  lemma {:induction false} CoarserChars(s: string)
    ensures KeepKeyChars(s, false) == KeepKeyChars(KeepKeyChars(s, true), false)
  {
    if s != [] {
      CoarserChars(s[1..]);
      var head := if Kept(s[0], true) then [s[0]] else [];
      KeepKeyCharsAppend(head, KeepKeyChars(s[1..], true), false);
    }
  }

  lemma CollisionsPropagate(a: string, b: string)
    requires LettersDigitsKey(a) == LettersDigitsKey(b)
    ensures LettersKey(a) == LettersKey(b)
  {
    LettersKeyCoarser(a);
    LettersKeyCoarser(b);
  }

  // ---------------------------------------------------------------------
  // The fuzzy key.

  const QualityKeyTokens: seq<string> := ["hd", "sd", "uhd", "4k", "ud"]

  /** Dropping every character that is not a word character, whitespace, `+`
      or `-`. */
  function KeepFuzzyChars(s: string): (r: string)
    ensures |r| <= |s|
    ensures forall c :: c in r ==> c in s
    ensures forall c :: c in r ==> IsWordChar(c) || IsSpace(c) || c == '+' || c == '-'
  {
    if s == [] then []
    else
      var c := s[0];
      (if IsWordChar(c) || IsSpace(c) || c == '+' || c == '-' then [c] else []) + KeepFuzzyChars(s[1..])
  }

  /** tvh_parser_fix.py / tvh-bouquet-fixed.py `normalize_channel_name`. */
  function FuzzyKey(name: string): (r: string)
    ensures name == "" ==> r == ""
    ensures forall c :: c in r ==> IsWordChar(c) || IsSpace(c) || c == '+' || c == '-'
    ensures forall c :: c in r ==> !IsUpper(c)
  {
    if name == "" then "" else KeepFuzzyChars(FuzzyPasses(LowerStr(name)))
  }

  /** The removal passes between lower-casing and the final character filter:
      quality tokens, bounded DVB tokens, trailing "d" letters, then the
      whitespace squash. None of them writes an upper-case letter. */
  function FuzzyPasses(lowered: string): (squashed: string)
    requires forall k :: 0 <= k < |lowered| ==> !IsUpper(lowered[k])
    ensures forall c :: c in squashed ==> !IsUpper(c)
  {
    var noQuality := Sub(Literals(QualityKeyTokens, false), lowered, "");
    var noDvb := Sub(Dvb(Bounded), noQuality, "");
    var noTrail := TrailLetter(TrailDoubleLetter(noDvb, 'd'), 'd');
    var squashed := Squash(noTrail);
    FuzzyPassesKeepLower(lowered, noQuality, noDvb, noTrail, squashed);
    squashed
  }

  /** Every pass after lower-casing only deletes characters or writes spaces. */
  lemma FuzzyPassesKeepLower(lowered: string, noQuality: string, noDvb: string, noTrail: string, squashed: string)
    requires forall k :: 0 <= k < |lowered| ==> !IsUpper(lowered[k])
    requires noQuality == Sub(Literals(QualityKeyTokens, false), lowered, "")
    requires noDvb == Sub(Dvb(Bounded), noQuality, "")
    requires |noTrail| <= |noDvb| && noTrail == noDvb[..|noTrail|]
    requires forall c :: c in squashed ==> c in noTrail || c == ' '
    ensures forall c :: c in squashed ==> !IsUpper(c)
  {
    SubChars(Literals(QualityKeyTokens, false), lowered, "");
    SubChars(Dvb(Bounded), noQuality, "");
    forall c | c in squashed ensures !IsUpper(c) {
      if c != ' ' {
        assert c in noDvb;
        var k :| 0 <= k < |lowered| && lowered[k] == c;
      }
    }
  }

  /** The fuzzy key ignores case. */
  lemma FuzzyKeyCaseInsensitive(name: string)
    ensures FuzzyKey(LowerStr(name)) == FuzzyKey(name)
  {
    LowerStrIdempotent(name);
  }

  /** Every policy behind one name. */
  function ComparisonKey(policy: KeyPolicy, name: string): (r: string)
    ensures name == "" ==> r == ""
    ensures policy == LettersOnly ==> forall c :: c in r ==> IsAsciiLower(c)
    ensures policy == LettersAndDigits ==> forall c :: c in r ==> IsAsciiLower(c) || IsDigit(c)
  {
    match policy
    case LettersAndDigits => LettersDigitsKey(name)
    case LettersOnly => LettersKey(name)
    case Fuzzy => FuzzyKey(name)
  }
}
