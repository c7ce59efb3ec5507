/** Worked inputs of the display-name cleaners. */
module CleanerExamples {
  import opened Chars
  import opened Patterns
  import opened Cleaners

  /** The removal passes that cannot touch a text made of letters other than
      `b`, `V`, `H`, `L`, `R`, spaces and signs. */
  lemma QuietPasses(s: string)
    requires forall k :: 0 <= k < |s| ==> !IsDigit(s[k]) && Lower(s[k]) != 'b' && s[k] !in "VHLR"
    ensures Sub(Dvb(Spaced), s, "") == s
    ensures Sub(Frequency, s, "") == s && Sub(SymbolRate, s, "") == s
    ensures Sub(Fec, s, "") == s && Sub(ModulationS, s, "") == s
    ensures Sub(Polarisation, s, "") == s
  {
    NoBNoDvb(Spaced, s, "");
    NoDigitsNoParameters(Frequency, s, "");
    NoDigitsNoParameters(SymbolRate, s, "");
    NoDigitsNoParameters(Fec, s, "");
    NoDigitsNoParameters(ModulationS, s, "");
    NoPolarisationLetter(s, "");
  }

  lemma GenresMiss(s: string)
    requires s == "A D-" || s == "A D"
    ensures Sub(Literals(GenresTvhlst, false), s, "") == s
  {
    GenresLong();
    forall j | 0 <= j < |s| ensures MatchLen(Literals(GenresTvhlst, false), s, j) == 0 {
      LongWordsMiss(GenresTvhlst, s, j);
    }
    SubNoMatch(Literals(GenresTvhlst, false), s, "");
  }

  /** Every genre word has more than four characters. */
  lemma GenresLong()
    ensures forall k :: 0 <= k < |GenresTvhlst| ==> |GenresTvhlst[k]| > 4
  {
  }

  lemma QualityMiss(s: string)
    requires s == "A D-" || s == "A D"
    ensures Sub(Literals(QualityDropTokens, true), s, " ") == s
  {
    assert WsRunLen(s, 1) == 1;
    NoLiteralStart(QualityDropTokens, s, 2);
    NoLiteralStart(QualityDropTokens, s, 0);
    SubNoMatch(Literals(QualityDropTokens, true), s, " ");
  }

  lemma WordsAndParametersStay(s: string)
    requires s == "A D-" || s == "A D"
    ensures StripParameters(StripWords(GenresTvhlst, s)) == s
  {
    GenresMiss(s);
    QualityMiss(s);
    QuietPasses(s);
    assert StripWords(GenresTvhlst, s) == s;
  }

  lemma TrailOnce()
    ensures StripTrail("A D-", "-+") == "A D"
  {
    assert TrailDoubleLetter("A D-", 'D') == "A D-";
    assert TrailLetter("A D-", 'D') == "A D-";
  }

  lemma TrailTwice()
    ensures StripTrail("A D", "-+") == "A"
  {
    assert TrailDoubleLetter("A D", 'D') == "A D";
    assert WsStartBefore("A D", 2) == 1;
    assert TrailLetter("A D", 'D') == "A";
  }

  lemma DropOnce()
    ensures DropPasses(GenresTvhlst, "A D-") == "A D"
  {
    WordsAndParametersStay("A D-");
    TrailOnce();
  }

  lemma DropTwice()
    ensures DropPasses(GenresTvhlst, "A D") == "A"
  {
    WordsAndParametersStay("A D");
    TrailTwice();
  }

  lemma SquashedAD()
    ensures Squashed("A D")
  {
  }

  /** First cleaning of "A D-": only the trailing sign goes. */
  lemma CleanOnce()
    ensures CleanDropQuality(GenresTvhlst, "A D-") == "A D"
  {
    DropOnce();
    SquashedAD();
    SquashFixed("A D");
  }

  /** Second cleaning: now the "D" is trailing and goes too. */
  lemma SquashedA()
    ensures Squashed("A")
  {
  }

  lemma CleanTwice()
    ensures CleanDropQuality(GenresTvhlst, "A D") == "A"
  {
    DropTwice();
    SquashedA();
    SquashFixed("A");
  }

  /** Cleaning a cleaned name can change it again: the passes run once, in a
      fixed order, and removing a trailing sign can expose a trailing "D". */
  lemma DropQualityNotIdempotent()
    ensures exists name :: CleanDropQuality(GenresTvhlst, CleanDropQuality(GenresTvhlst, name))
                           != CleanDropQuality(GenresTvhlst, name)
  {
    CleanOnce();
    CleanTwice();
    assert CleanDropQuality(GenresTvhlst, CleanDropQuality(GenresTvhlst, "A D-")) != CleanDropQuality(GenresTvhlst, "A D-");
  }

  // "HD": a name that is only a quality token.

  lemma HdTrail()
    ensures StripTrail("HD", "-") == "HD"
  {
    assert WsStartBefore("HD", 1) == 1;
  }

  lemma HdSquashed()
    ensures Squash("HD") == "HD"
  {
    assert Squashed("HD");
    SquashFixed("HD");
  }

  lemma HdPasses()
    ensures QualityLastPasses("HD") == "HD"
  {
    NoBNoDvb(Spaced, "HD", "");
    HdTrail();
    HdSquashed();
  }

  lemma HdQuality()
    ensures FirstQuality("HD") == Some("HD")
  {
    var s := "HD";
    assert LiteralAt(s, 0, QualityMoveTokens[0]);
    assert FirstLiteral(QualityMoveTokens, s, 0) == 2;
    assert MatchAt(MatcherOf(Literals(QualityMoveTokens, false)), s, 0) == 2;
    assert Search(Literals(QualityMoveTokens, false), s) == Some(0);
    assert s[0..2] == s;
    assert UpperStr(s) == s;
  }

  lemma HdWithoutQuality()
    ensures WithoutQuality("HD") == ""
  {
    var s := "HD";
    assert LiteralAt(s, 0, QualityMoveTokens[0]);
    assert FirstLiteral(QualityMoveTokens, s, 0) == 2;
    assert MatchAt(MatcherOf(Literals(QualityMoveTokens, true)), s, 0) == 2;
    assert Sub(Literals(QualityMoveTokens, true), s, " ") == " ";
  }

  lemma HdMovedAsWritten()
    ensures MoveQualityAsWritten("HD") == " HD"
  {
    HdQuality();
    HdWithoutQuality();
    assert MoveQualityAsWritten("HD") == JoinSpace("", "HD");
  }

  /** As written, the quality-last cleaner turns "HD" into " HD". */
  lemma QualityLastLeadingSpace()
    ensures CleanQualityLastAsWritten("HD") == " HD"
  {
    HdPasses();
    HdMovedAsWritten();
  }

  /** The corrected cleaner keeps "HD" as it is. */
  lemma QualityLastKeepsBareToken()
    ensures CleanQualityLast("HD") == "HD"
  {
    HdPasses();
    HdQuality();
    HdWithoutQuality();
  }
}
