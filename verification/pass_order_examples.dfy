/** The pass order of the dropping cleaner (tvhlst.py:188-193) removes the
    spaced DVB token before the symbol-rate pass runs. The removal takes the
    spaces on both sides with it, so a symbol rate written just before the
    token is glued to the FEC that follows; the glued run of six digits has
    no word boundary after its fifth digit, and the rate survives. */
module PassOrderExamples {
  import opened Chars
  import opened Patterns
  import opened Cleaners

  /** A five-digit symbol rate, a space, a `DVB-S` token with its digit, a
      space and a FEC such as `3/4`: the tail of a transponder description. */
  predicate RateThenDvb(s: string) {
    |s| == 16 && (forall k :: 0 <= k < 5 ==> IsDigit(s[k])) && s[5] == ' '
    && Lower(s[6]) == 'd' && Lower(s[7]) == 'v' && Lower(s[8]) == 'b' && s[9] == '-'
    && Lower(s[10]) == 's' && IsDigit(s[11]) && s[12] == ' '
    && IsDigit(s[13]) && s[14] == '/' && IsDigit(s[15])
  }

  /** Six digits, a slash and a digit: the rate glued to the FEC. */
  predicate GluedShape(g: string) {
    |g| == 8 && (forall k :: 0 <= k < 6 ==> IsDigit(g[k])) && g[6] == '/' && IsDigit(g[7])
  }

  /** The spaced DVB pattern cannot start at a character that is neither
      whitespace nor a `d`. */
  lemma NoSpacedDvbAt(s: string, j: nat)
    requires j < |s| && !IsSpace(s[j]) && Lower(s[j]) != 'd'
    ensures MatchAt(MatcherOf(Dvb(Spaced)), s, j) == 0
  {
    assert WsRunLen(s, j) == 0;
    assert Lower(s[j]) != "dvb-"[0] && Lower(s[j]) != "db-s"[0];
    assert !LiteralAt(s, j, "dvb-") && !LiteralAt(s, j, "db-s");
  }

  /** From the space before the token the match runs to the FEC. */
  lemma SpacedDvbSpan(s: string)
    requires RateThenDvb(s)
    ensures MatchAt(MatcherOf(Dvb(Spaced)), s, 5) == 8
  {
    assert WsRunLen(s, 6) == 0;
    assert WsRunLen(s, 5) == 1;
    assert LiteralAt(s, 6, "dvb-");
    assert DvbTokenLen(s, 6) == 6;
    assert WsRunLen(s, 13) == 0;
    assert WsRunLen(s, 12) == 1;
  }

  /** The spaced DVB pass removes the token with both of its spaces. */
  lemma SpacedDvbGlues(s: string)
    requires RateThenDvb(s)
    ensures Sub(Dvb(Spaced), s, "") == s[..5] + s[13..]
    ensures GluedShape(s[..5] + s[13..])
  {
    var m := MatcherOf(Dvb(Spaced));
    forall j | 0 <= j < 5 ensures MatchAt(m, s, j) == 0 {
      NoSpacedDvbAt(s, j);
    }
    forall j | 13 <= j < 16 ensures MatchAt(m, s, j) == 0 {
      NoSpacedDvbAt(s, j);
    }
    SubFromCopies(m, s, 0, 5, "");
    SpacedDvbSpan(s);
    assert SubFrom(m, s, 5, "") == SubFrom(m, s, 13, "");
    SubFromNoMatch(m, s, 13, "");
  }

  /** `\b\d{5}\b` finds nothing in the glued digits. */
  lemma GluedRateMisses(g: string)
    requires GluedShape(g)
    ensures Sub(SymbolRate, g, "") == g
  {
    forall j | 0 <= j < |g| ensures MatchLen(SymbolRate, g, j) == 0 {
      if j == 0 {
        assert !Boundary(g, 5);
      } else if j < 5 {
        assert !Boundary(g, j);
      }
    }
    SubNoMatch(SymbolRate, g, "");
  }

  /** Before the DVB pass the rate still stands alone: `\b\d{5}\b` matches
      it at the start, so the symbol-rate pass would remove it there. */
  lemma SeparateRateMatches(s: string)
    requires RateThenDvb(s)
    ensures MatchAt(MatcherOf(SymbolRate), s, 0) == 5
  {
    assert Boundary(s, 0) && Boundary(s, 5);
  }

  /** `\d/\d` removes the FEC and leaves the first five digits. */
  lemma GluedFecGoes(g: string)
    requires GluedShape(g)
    ensures Sub(Fec, g, "") == g[..5]
  {
    var m := MatcherOf(Fec);
    SubFromCopies(m, g, 0, 5, "");
    assert MatchAt(m, g, 5) == 3;
    assert SubFrom(m, g, 8, "") == "";
  }

  /** The parameter passes on the glued text remove the FEC and nothing else. */
  lemma GluedParameters(g: string)
    requires GluedShape(g)
    ensures StripParameters(g) == g[..5]
  {
    forall j | 0 <= j < |g| ensures MatchLen(Frequency, g, j) == 0 {
    }
    SubNoMatch(Frequency, g, "");
    NoPolarisationLetter(g, "");
    GluedRateMisses(g);
    GluedFecGoes(g);
    var r := g[..5];
    forall j | 0 <= j < |r| ensures MatchLen(ModulationS, r, j) == 0 {
      assert Lower(r[j]) == r[j];
    }
    SubNoMatch(ModulationS, r, "");
  }

  /** The transponder tail of the documented name fits the shape above. */
  lemma TailPieces()
    ensures RateThenDvb("27500 DVB-S2 3/4")
    ensures ("27500 DVB-S2 3/4")[..5] == "27500"
  {
    assert Lower('D') == 'd' && Lower('V') == 'v' && Lower('B') == 'b' && Lower('S') == 's';
  }

  /** Run after the DVB pass, the parameter passes leave the symbol rate of
      "27500 DVB-S2 3/4" behind. */
  lemma GluedRateSurvives()
    ensures StripParameters(Sub(Dvb(Spaced), "27500 DVB-S2 3/4", "")) == "27500"
  {
    var s := "27500 DVB-S2 3/4";
    TailPieces();
    SpacedDvbGlues(s);
    GluedParameters(s[..5] + s[13..]);
    assert (s[..5] + s[13..])[..5] == s[..5];
  }
}
