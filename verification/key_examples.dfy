/** Worked inputs of the two exact-match keys. The documented examples of
    tvhlstfta.py hold for "Canal+ Sport" and "TVN 24", but "Polsat Sport HD"
    keys to "polsatsport" only once its quality token has been cleaned away:
    the key function itself keeps every letter. The module docstring of
    tvhlst.py calls its key letters-only; the code keeps digits as well. */
module KeyExamples {
  import opened Chars
  import opened Keys

  /** Two upper-case ASCII letters key to their lower-case forms. */
  lemma TwoCapitalsKey(x: char, y: char)
    requires IsAsciiUpper(x) && IsAsciiUpper(y)
    ensures LettersKey([x, y]) == [Lower(x), Lower(y)]
  {
    assert [x] + [y] == [x, y];
    KeyOfConcat([x], [y], false);
    KeyOfChar(x);
    KeyOfChar(y);
  }

  /** A name ending in a quality token keeps the token's letters in its key. */
  lemma QualityLettersKept(prefix: string, x: char, y: char)
    requires IsAsciiUpper(x) && IsAsciiUpper(y)
    ensures EndsWith(LettersKey(prefix + [x, y]), [Lower(x), Lower(y)])
  {
    KeyOfConcat(prefix, [x, y], false);
    TwoCapitalsKey(x, y);
  }

  /** A key ending in "hd" is not the docstring's "polsatsport". */
  lemma NotDocstringKey(k: string)
    requires EndsWith(k, "hd")
    ensures k != "polsatsport"
  {
    assert k[|k| - 1] == 'd';
  }

  /** The raw name's key ends in "hd", unlike the docstring's key. */
  lemma RawQualityLettersKept()
    ensures EndsWith(LettersKey("Polsat Sport HD"), "hd")
    ensures LettersKey("Polsat Sport HD") != "polsatsport"
  {
    var name := "Polsat Sport " + ['H', 'D'];
    assert name == "Polsat Sport HD";
    QualityLettersKept("Polsat Sport ", 'H', 'D');
    NotDocstringKey(LettersKey(name));
  }

  /** A run of lower-case ASCII letters is its own key under both policies. */
  lemma LowerWordKey(w: string)
    requires forall k :: 0 <= k < |w| ==> IsAsciiLower(w[k])
    ensures LettersKey(w) == w && LettersDigitsKey(w) == w
  {
    LowerFixesKeyChars(w);
    KeepKeyCharsFixed(w, false);
    KeepKeyCharsFixed(w, true);
  }

  /** Characters that are neither letters nor digits vanish from both keys. */
  lemma {:induction false} SignsKey(s: string)
    requires forall k :: 0 <= k < |s| ==> !IsLetter(s[k]) && !IsDigit(s[k])
    ensures LettersKey(s) == "" && LettersDigitsKey(s) == ""
    decreases |s|
  {
    if s != [] {
      assert s == [s[0]] + s[1..];
      KeyOfConcat([s[0]], s[1..], false);
      KeyOfConcat([s[0]], s[1..], true);
      KeyOfChar(s[0]);
      SignsKey(s[1..]);
    }
  }

  /** Digits survive only in the letters-and-digits key. */
  lemma DigitKey(d: char)
    requires IsDigit(d)
    ensures LettersKey([d]) == "" && LettersDigitsKey([d]) == [d]
  {
    KeyOfChar(d);
  }

  /** Polish letters are dropped by both keys (tvhlstfta.py:155-158). */
  lemma PolishDropped(c: char)
    requires IsPolishLower(c) || IsPolishUpper(c)
    ensures LettersKey([c]) == "" && LettersDigitsKey([c]) == ""
  {
    KeyOfChar(c);
  }

  /** A capital, lower-case letters: the capital is lowered and the rest kept. */
  lemma CapitalWordKey(x: char, w: string)
    requires IsAsciiUpper(x) && forall k :: 0 <= k < |w| ==> IsAsciiLower(w[k])
    ensures LettersKey([x] + w) == [Lower(x)] + w
    ensures LettersDigitsKey([x] + w) == [Lower(x)] + w
  {
    KeyOfConcat([x], w, false);
    KeyOfConcat([x], w, true);
    KeyOfChar(x);
    LowerWordKey(w);
  }

  /** Both keys of a three-part name are the parts' keys in order. */
  lemma KeyOfThree(a: string, b: string, c: string)
    ensures LettersKey(a + b + c) == LettersKey(a) + LettersKey(b) + LettersKey(c)
    ensures LettersDigitsKey(a + b + c) == LettersDigitsKey(a) + LettersDigitsKey(b) + LettersDigitsKey(c)
  {
    KeyOfConcat(a, b, false);
    KeyOfConcat(a, b, true);
    KeyOfConcat(a + b, c, false);
    KeyOfConcat(a + b, c, true);
  }

  /** Three capitals key to their lower-case forms under both policies. */
  lemma ThreeCapitalsKey(x: char, y: char, z: char)
    requires IsAsciiUpper(x) && IsAsciiUpper(y) && IsAsciiUpper(z)
    ensures LettersKey([x, y, z]) == [Lower(x), Lower(y), Lower(z)]
    ensures LettersDigitsKey([x, y, z]) == [Lower(x), Lower(y), Lower(z)]
  {
    assert [x] + [y] + [z] == [x, y, z];
    KeyOfThree([x], [y], [z]);
    KeyOfChar(x);
    KeyOfChar(y);
    KeyOfChar(z);
  }

  /** Two digits vanish without digits and stay with them. */
  lemma TwoDigitsKey(d: char, e: char)
    requires IsDigit(d) && IsDigit(e)
    ensures LettersKey([d, e]) == "" && LettersDigitsKey([d, e]) == [d, e]
  {
    assert [d] + [e] == [d, e];
    KeyOfConcat([d], [e], false);
    KeyOfConcat([d], [e], true);
    DigitKey(d);
    DigitKey(e);
  }

  /** Three capitals, a space and two digits: "TVN 24" and the like. */
  lemma CapitalsThenNumber(x: char, y: char, z: char, d: char, e: char)
    requires IsAsciiUpper(x) && IsAsciiUpper(y) && IsAsciiUpper(z) && IsDigit(d) && IsDigit(e)
    ensures LettersKey([x, y, z] + " " + [d, e]) == [Lower(x), Lower(y), Lower(z)]
    ensures LettersDigitsKey([x, y, z] + " " + [d, e]) == [Lower(x), Lower(y), Lower(z), d, e]
  {
    KeyOfThree([x, y, z], " ", [d, e]);
    ThreeCapitalsKey(x, y, z);
    SignsKey(" ");
    TwoDigitsKey(d, e);
  }

  /** Two capitalised words around signs: "Canal+ Sport" and the like. */
  lemma WordsAroundSigns(x: char, v: string, s: string, y: char, w: string)
    requires IsAsciiUpper(x) && forall k :: 0 <= k < |v| ==> IsAsciiLower(v[k])
    requires IsAsciiUpper(y) && forall k :: 0 <= k < |w| ==> IsAsciiLower(w[k])
    requires forall k :: 0 <= k < |s| ==> !IsLetter(s[k]) && !IsDigit(s[k])
    ensures LettersKey([x] + v + s + ([y] + w)) == [Lower(x)] + v + ([Lower(y)] + w)
  {
    var a, c := [x] + v, [y] + w;
    CapitalWordKey(x, v);
    CapitalWordKey(y, w);
    SignsKey(s);
    KeyOfConcat(a, s, false);
    assert LettersKey(a + s) == LettersKey(a) by {
      assert LettersKey(a) + [] == LettersKey(a);
    }
    KeyOfConcat(a + s, c, false);
  }

  /** tvhlstfta.py:208 and tvhlst.py:166: "TVN 24" keys to "tvn" without
      digits and to "tvn24" with them. */
  lemma TvnExample()
    ensures LettersKey("TVN 24") == "tvn"
    ensures LettersDigitsKey("TVN 24") == "tvn24"
  {
    CapitalsThenNumber('T', 'V', 'N', '2', '4');
    assert ['T', 'V', 'N'] + " " + ['2', '4'] == "TVN 24";
  }

  /** The literal pieces of the "Canal+ Sport" example. */
  lemma CanalPieces()
    ensures ['C'] + "anal" + "+ " + (['S'] + "port") == "Canal+ Sport"
    ensures [Lower('C')] + "anal" + ([Lower('S')] + "port") == "canalsport"
  {
    assert Lower('C') == 'c' && Lower('S') == 's';
  }

  /** tvhlstfta.py:207: "Canal+ Sport" keys to "canalsport". */
  lemma CanalExample()
    ensures LettersKey("Canal+ Sport") == "canalsport"
  {
    WordsAroundSigns('C', "anal", "+ ", 'S', "port");
    CanalPieces();
  }
}
