/** Display-name cleaners (`clean_channel_name`), two families.

    - DropQuality (tvhlst.py, tvhlstfta.py): genre words, DVB tokens, quality
      tokens and satellite parameters are removed, then a trailing "D D"/"D",
      a trailing `-`/`+`, and whitespace is squashed.
    - QualityLast (tvh_parser_fix.py, tvh-bouquet-fixed.py): DVB tokens and the
      trailing debris are removed, whitespace squashed, and the first quality
      token found is moved, upper-cased, to the end.

    Each cleaner is a fixed sequence of rewrite passes; the order matters
    (see `DropQualityNotIdempotent`). */
module Cleaners {
  import opened Chars
  import opened Patterns
  import Removal

  /** Genre words of tvhlstfta.py:173. */
  const GenresFta: seq<string> :=
    ["muzyczny", "informacyjny", "uniwersalny", "filmowy", "sportowy", "religijny", "dokumentalny",
     "rozrywkowy", "dla dzieci", "telezakupowy", "prawniczy", "kulinarny", "motoryzacyjny",
     "erotyczny", "turystyczny", "lifestyle"]

  /** Genre words of tvhlst.py:184: the same list plus "dla młodzieży". */
  const GenresTvhlst: seq<string> := GenresFta + ["dla młodzieży"]

  /** `HD|SD|UHD|4K|UD`, as the dropping cleaners and the fuzzy key see quality. */
  const QualityDropTokens: seq<string> := ["hd", "sd", "uhd", "4k", "ud"]

  /** `HD|SD|UHD|4K`, as the quality-last cleaners see it. */
  const QualityMoveTokens: seq<string> := ["hd", "sd", "uhd", "4k"]

  datatype CleanPolicy = DropQuality(genres: seq<string>) | QualityLast

  /** Every character of `r` comes from `s` or is a space. */
  predicate FromText(r: string, s: string) {
    forall c :: c in r ==> c in s || c == ' '
  }

  lemma FromTextTrans(a: string, b: string, c: string)
    requires FromText(a, b) && FromText(b, c)
    ensures FromText(a, c)
  {
  }

  lemma PrefixFromText(s: string, n: nat)
    requires n <= |s|
    ensures FromText(s[..n], s)
  {
    forall c | c in s[..n] ensures c in s {
      var k :| 0 <= k < n && s[..n][k] == c;
      assert s[k] == c;
    }
  }

  lemma PassFromText(p: Pat, s: string, repl: string)
    requires repl == "" || repl == " "
    ensures FromText(Sub(p, s, repl), s)
    ensures |Sub(p, s, repl)| <= |s|
  {
    SubChars(p, s, repl);
    SubShrinks(p, s, repl);
  }

  /** The satellite parameters: frequency, polarisation, symbol rate, FEC and
      modulation, in that order. */
  function StripParameters(s: string): (r: string)
    ensures FromText(r, s)
    ensures |r| <= |s|
  {
    var d := Sub(Frequency, s, "");
    var e := Sub(Polarisation, d, "");
    var f := Sub(SymbolRate, e, "");
    var g := Sub(Fec, f, "");
    var h := Sub(ModulationS, g, "");
    PassFromText(Frequency, s, "");
    PassFromText(Polarisation, d, "");
    PassFromText(SymbolRate, e, "");
    PassFromText(Fec, f, "");
    PassFromText(ModulationS, g, "");
    FromTextTrans(e, d, s);
    FromTextTrans(f, e, s);
    FromTextTrans(g, f, s);
    FromTextTrans(h, g, s);
    h
  }

  /** The end-anchored removals: "D D", then "D", then one of `signs`. */
  function StripTrail(s: string, signs: string): (r: string)
    ensures |r| <= |s| && r == s[..|r|]
  {
    TrailSign(TrailLetter(TrailDoubleLetter(s, 'D'), 'D'), signs)
  }

  /** Genres, DVB tokens and quality tokens. */
  function StripWords(genres: seq<string>, name: string): (r: string)
    ensures FromText(r, name)
    ensures |r| <= |name|
  {
    var a := Sub(Literals(genres, false), name, "");
    var b := Sub(Dvb(Spaced), a, "");
    var c := Sub(Literals(QualityDropTokens, true), b, " ");
    PassFromText(Literals(genres, false), name, "");
    PassFromText(Dvb(Spaced), a, "");
    PassFromText(Literals(QualityDropTokens, true), b, " ");
    FromTextTrans(b, a, name);
    FromTextTrans(c, b, name);
    c
  }

  /** The part of the dropping cleaner before whitespace is squashed. */
  function DropPasses(genres: seq<string>, name: string): (r: string)
    ensures FromText(r, name)
    ensures |r| <= |name|
  {
    var c := StripWords(genres, name);
    var h := StripParameters(c);
    var k := StripTrail(h, "-+");
    PrefixFromText(h, |k|);
    FromTextTrans(h, c, name);
    FromTextTrans(k, h, name);
    k
  }

  /** tvhlst.py / tvhlstfta.py `clean_channel_name`: the empty name stays
      empty; any other result has no leading, trailing or doubled whitespace,
      never contains a character the name did not have except a space, and is
      never longer than the name. */
  function CleanDropQuality(genres: seq<string>, name: string): (r: string)
    ensures name == "" ==> r == ""
    ensures Squashed(r)
    ensures FromText(r, name)
    ensures |r| <= |name|
  {
    if name == "" then "" else
      var k := DropPasses(genres, name);
      var r := Squash(k);
      FromTextTrans(r, k, name);
      r
  }

  // ---------------------------------------------------------------------
  // Quality moved to the end.

  /** The passes of the quality-last cleaner before the quality token moves. */
  function QualityLastPasses(name: string): (r: string)
    ensures Squashed(r)
    ensures FromText(r, name)
  {
    var a := Sub(Dvb(Spaced), name, "");
    var d := StripTrail(a, "-");
    var e := Squash(d);
    PassFromText(Dvb(Spaced), name, "");
    PrefixFromText(a, |d|);
    FromTextTrans(d, a, name);
    FromTextTrans(e, d, name);
    e
  }

  /** The first quality token of `s` (`re.search(r'\b(HD|SD|UHD|4K)\b', s, re.I)`),
      upper-cased. */
  function FirstQuality(s: string): (q: Option<string>)
    ensures q.Some? ==> q.value in ["HD", "SD", "UHD", "4K"] && QualityWord(q.value)
    ensures q.None? <==> Search(Literals(QualityMoveTokens, false), s).None?
  {
    FirstQualityIn(QualityMoveTokens, s)
  }

  /** The first token of `words` in `s`, upper-cased. */
  function FirstQualityIn(words: seq<string>, s: string): (q: Option<string>)
    requires words == QualityMoveTokens || words == QualityDropTokens
    ensures q.Some? ==> q.value in ["HD", "SD", "UHD", "4K", "UD"] && QualityWord(q.value)
    ensures q.Some? && words == QualityMoveTokens ==> q.value in ["HD", "SD", "UHD", "4K"]
    ensures q.None? <==> Search(Literals(words, false), s).None?
  {
    match Search(Literals(words, false), s)
    case None => None
    case Some(i) =>
      var n := MatchAt(MatcherOf(Literals(words, false)), s, i);
      var t := s[i..i + n];
      QualityTokenUpper(words, s, i, n);
      Some(UpperStr(t))
  }

  /** A quality word is a non-empty run of capitals and digits. */
  predicate QualityWord(q: string) {
    q != "" && forall j :: 0 <= j < |q| ==> IsAsciiUpper(q[j]) || IsDigit(q[j])
  }

  lemma QualityTokenUpper(words: seq<string>, s: string, i: nat, n: nat)
    requires words == QualityMoveTokens || words == QualityDropTokens
    requires i < |s|
    requires n == MatchAt(MatcherOf(Literals(words, false)), s, i) && n > 0
    ensures UpperStr(s[i..i + n]) in ["HD", "SD", "UHD", "4K", "UD"] && QualityWord(UpperStr(s[i..i + n]))
    ensures words == QualityMoveTokens ==> UpperStr(s[i..i + n]) in ["HD", "SD", "UHD", "4K"]
  {
    LiteralsMatch(words, s, i);
    var k :| 0 <= k < |words| && |words[k]| == n && LiteralAt(s, i, words[k]);
    var w := QualityDropTokens[k];
    assert words[k] == w;
    assert k < |words| <= 5;
    QualityTokensUpper(k);
    UpperOfLiteral(s, i, w);
    assert UpperStr(s[i..i + n]) == UpperStr(w);
  }

  /** Upper-casing an occurrence of a lower-case token gives the upper-cased token. */
  lemma UpperOfLiteral(s: string, i: nat, w: string)
    requires LiteralAt(s, i, w)
    requires forall j :: 0 <= j < |w| ==> IsAsciiLower(w[j]) || IsDigit(w[j])
    ensures UpperStr(s[i..i + |w|]) == UpperStr(w)
  {
    var t := s[i..i + |w|];
    forall j | 0 <= j < |w| ensures Upper(t[j]) == Upper(w[j]) {
      assert t[j] == s[i + j];
      UpperOfLower(t[j], w[j]);
    }
    UpperStrPointwise(t, w);
  }

  lemma UpperOfLower(c: char, d: char)
    requires Lower(c) == d && (IsAsciiLower(d) || IsDigit(d))
    ensures Upper(c) == Upper(d)
  {
  }

  lemma UpperStrPointwise(t: string, w: string)
    requires |t| == |w|
    requires forall j :: 0 <= j < |w| ==> Upper(t[j]) == Upper(w[j])
    ensures UpperStr(t) == UpperStr(w)
  {
  }

  lemma QualityTokensUpper(k: nat)
    requires k < |QualityDropTokens|
    ensures forall j :: 0 <= j < |QualityDropTokens[k]| ==> IsAsciiLower(QualityDropTokens[k][j]) || IsDigit(QualityDropTokens[k][j])
    ensures UpperStr(QualityDropTokens[k]) in ["HD", "SD", "UHD", "4K", "UD"]
    ensures k < 4 ==> UpperStr(QualityDropTokens[k]) in ["HD", "SD", "UHD", "4K"]
    ensures QualityWord(UpperStr(QualityDropTokens[k]))
  {
    assert UpperStr("hd") == "HD";
    assert UpperStr("sd") == "SD";
    assert UpperStr("uhd") == "UHD";
    assert UpperStr("4k") == "4K";
    assert UpperStr("ud") == "UD";
  }

  /** The text left once every quality token, with the whitespace around it,
      is replaced by one space and the ends are stripped. */
  function WithoutQuality(e: string): (rest: string)
    ensures rest != "" ==> !IsSpace(rest[0]) && !IsSpace(rest[|rest| - 1])
    ensures Search(Literals(QualityMoveTokens, false), rest).None?
  {
    QualityTokenWords();
    Removal.SubStripNoWord(QualityMoveTokens, e);
    Strip(Sub(Literals(QualityMoveTokens, true), e, " "))
  }

  /** The quality tokens are words: `\b` can stand on both sides of them. */
  lemma QualityTokenWords()
    ensures Removal.TokenWords(QualityMoveTokens)
  {
    forall k, j | 0 <= k < |QualityMoveTokens| && 0 <= j < |QualityMoveTokens[k]|
      ensures IsWordChar(QualityMoveTokens[k][j])
    {
    }
  }

  /** The quality step as written: `f"{cleaned} {quality}"`. */
  function MoveQualityAsWritten(e: string): (r: string)
    ensures FirstQuality(e).Some? ==> EndsWith(r, " " + FirstQuality(e).value)
    ensures FirstQuality(e).Some? ==> StartsWith(r, WithoutQuality(e) + " ")
    ensures FirstQuality(e).Some? ==> Search(Literals(QualityMoveTokens, false), WithoutQuality(e)).None?
    ensures FirstQuality(e).None? ==> r == e
  {
    match FirstQuality(e)
    case None => e
    case Some(q) =>
      JoinSpace(WithoutQuality(e), q)
  }

  /** The quality step with the join corrected: the space is written only
      when some text precedes the token. */
  function MoveQuality(e: string): (r: string)
    ensures FirstQuality(e).Some? ==> r == FirstQuality(e).value || EndsWith(r, " " + FirstQuality(e).value)
    ensures FirstQuality(e).Some? && WithoutQuality(e) != "" ==> StartsWith(r, WithoutQuality(e) + " ")
    ensures FirstQuality(e).Some? ==> Search(Literals(QualityMoveTokens, false), WithoutQuality(e)).None?
    ensures FirstQuality(e).None? ==> r == e
    ensures e != "" && !IsSpace(e[0]) && !IsSpace(e[|e| - 1]) ==>
              r != "" && !IsSpace(r[0]) && !IsSpace(r[|r| - 1])
  {
    match FirstQuality(e)
    case None => e
    case Some(q) => PlaceLast(WithoutQuality(e), q)
  }

  /** The corrected join: `q` alone when nothing precedes it, otherwise the
      rest, one space and `q`. */
  function PlaceLast(rest: string, q: string): (r: string)
    requires QualityWord(q)
    ensures r == q || EndsWith(r, " " + q)
    ensures rest != "" ==> StartsWith(r, rest + " ")
    ensures rest == "" ==> r == q
    ensures rest == "" || (!IsSpace(rest[0]) && !IsSpace(rest[|rest| - 1])) ==>
              r != "" && !IsSpace(r[0]) && !IsSpace(r[|r| - 1])
  {
    if rest == "" then q else JoinSpace(rest, q)
  }

  /** tvh_parser_fix.py / tvh-bouquet-fixed.py `clean_channel_name`, as written:
      the remaining text and the token are joined with a space even when no
      text remains, so a name that is only a quality token gains a leading
      space (`QualityLastLeadingSpace`). */
  function CleanQualityLastAsWritten(name: string): (r: string)
    ensures name == "" ==> r == ""
    ensures name != "" && FirstQuality(QualityLastPasses(name)).Some? ==>
              EndsWith(r, " " + FirstQuality(QualityLastPasses(name)).value)
    ensures name != "" && FirstQuality(QualityLastPasses(name)).Some? ==>
              var rest := WithoutQuality(QualityLastPasses(name));
              StartsWith(r, rest + " ") && Search(Literals(QualityMoveTokens, false), rest).None?
    ensures name != "" && FirstQuality(QualityLastPasses(name)).None? ==>
              Squashed(r) && Search(Literals(QualityMoveTokens, false), r).None?
  {
    if name == "" then "" else MoveQualityAsWritten(QualityLastPasses(name))
  }

  /** The same cleaner with the join corrected. The result never starts or
      ends with whitespace, and a quality token present in the name ends up,
      upper-cased, as its last word. */
  function CleanQualityLast(name: string): (r: string)
    ensures name == "" ==> r == ""
    ensures r != "" ==> !IsSpace(r[0]) && !IsSpace(r[|r| - 1])
    ensures name != "" && FirstQuality(QualityLastPasses(name)).Some? ==>
              var q := FirstQuality(QualityLastPasses(name)).value;
              r == q || EndsWith(r, " " + q)
    ensures name != "" && FirstQuality(QualityLastPasses(name)).Some? ==>
              var rest := WithoutQuality(QualityLastPasses(name));
              (rest == "" ==> r == FirstQuality(QualityLastPasses(name)).value)
              && (rest != "" ==> StartsWith(r, rest + " "))
              && Search(Literals(QualityMoveTokens, false), rest).None?
    ensures name != "" && FirstQuality(QualityLastPasses(name)).None? ==>
              Squashed(r) && Search(Literals(QualityMoveTokens, false), r).None?
  {
    if name == "" then "" else MoveQuality(QualityLastPasses(name))
  }

  /** The two agree except where nothing but the quality token remains. */
  lemma QualityLastAgrees(name: string)
    requires name != "" && WithoutQuality(QualityLastPasses(name)) != ""
    ensures CleanQualityLast(name) == CleanQualityLastAsWritten(name)
  {
  }

  function Clean(policy: CleanPolicy, name: string): (r: string)
    ensures name == "" ==> r == ""
    ensures r != "" ==> !IsSpace(r[0]) && !IsSpace(r[|r| - 1])
  {
    if policy.QualityLast? then CleanQualityLast(name)
    else
      var r := CleanDropQuality(policy.genres, name);
      assert Squashed(r);
      r
  }
}
