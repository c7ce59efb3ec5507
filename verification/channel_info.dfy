/** `parse_channel_info`: the ordinal prefix is stripped, then every
    technical field is the first match of its pattern in the text, and the
    display name is the variant's cleaner applied to the whole text. */
module ChannelInfo {
  import opened Chars
  import opened Patterns
  import opened Cleaners

  datatype Info = Info(
    name: string,
    fullText: string,
    quality: string,
    frequency: string,
    polarization: string,
    symbolRate: string,
    fec: string,
    modulation: string)

  /** `re.sub(r'^\d+\.?\s*', '', text)`: a leading number, an optional dot
      after it and the whitespace after that. */
  function StripOrdinal(text: string): (r: string)
    ensures EndsWith(text, r)
    ensures (text == "" || !IsDigit(text[0])) ==> r == text
    ensures text != "" && IsDigit(text[0]) ==>
              |r| < |text| && (r == "" || !IsSpace(r[0]))
              && forall k :: 0 <= k < |text| - |r| ==> IsDigit(text[k]) || text[k] == '.' || IsSpace(text[k])
  {
    if text == "" || !IsDigit(text[0]) then text
    else
      var d := DigitRunLen(text, 0);
      var p := if d < |text| && text[d] == '.' then d + 1 else d;
      var w := p + WsRunLen(text, p);
      assert text[|text| - |text[w..]|..] == text[w..];
      text[w..]
  }

  /** The shape of a frequency match: one or two digits, `.` or `,`, three digits. */
  predicate FrequencyShaped(f: string) {
    (|f| == 5 || |f| == 6)
    && (forall k :: 0 <= k < |f| && k != |f| - 4 ==> IsDigit(f[k]))
    && (f[|f| - 4] == '.' || f[|f| - 4] == ',')
  }

  predicate SymbolRateShaped(r: string) {
    |r| == 5 && forall k :: 0 <= k < 5 ==> IsDigit(r[k])
  }

  predicate FecShaped(f: string) {
    |f| == 3 && IsDigit(f[0]) && f[1] == '/' && IsDigit(f[2])
  }

  lemma FoundFrequency(s: string)
    ensures Found(Frequency, s) == "" || FrequencyShaped(Found(Frequency, s))
  {
    match Search(Frequency, s)
    case None =>
    case Some(i) =>
      var n := MatchAt(MatcherOf(Frequency), s, i);
      assert n == MatchLen(Frequency, s, i);
  }

  lemma FoundPolarisation(s: string)
    ensures Found(Polarisation, s) in ["", "V", "H", "L", "R"]
  {
    match Search(Polarisation, s)
    case None =>
    case Some(i) =>
      var n := MatchAt(MatcherOf(Polarisation), s, i);
      assert n == MatchLen(Polarisation, s, i) == 1;
      assert s[i..i + 1] == [s[i]];
  }

  lemma FoundSymbolRate(s: string)
    ensures Found(SymbolRate, s) == "" || SymbolRateShaped(Found(SymbolRate, s))
  {
    match Search(SymbolRate, s)
    case None =>
    case Some(i) =>
      var n := MatchAt(MatcherOf(SymbolRate), s, i);
      assert n == MatchLen(SymbolRate, s, i) == 5;
  }

  lemma FoundFec(s: string)
    ensures Found(Fec, s) == "" || FecShaped(Found(Fec, s))
  {
    match Search(Fec, s)
    case None =>
    case Some(i) =>
      var n := MatchAt(MatcherOf(Fec), s, i);
      assert n == MatchLen(Fec, s, i) == 3;
  }

  /** The quality field is the leftmost quality token, upper-cased. */
  lemma QualityIsFound(full: string)
    ensures (match FirstQualityIn(QualityDropTokens, full) case None => "" case Some(q) => q)
            == UpperStr(Found(Literals(QualityDropTokens, false), full))
  {
  }

  /** tvhlst.py `parse_channel_info(text, freq_text)`; the other variants take
      no frequency column and behave as if `freqText` were empty. */
  function ParseChannelInfo(policy: CleanPolicy, text: string, freqText: string): (r: Option<Info>)
    ensures r.None? <==> |StripOrdinal(text)| < 2
    ensures r.Some? ==> r.value.fullText == StripOrdinal(text) && EndsWith(text, r.value.fullText)
    ensures r.Some? ==> r.value.name == Clean(policy, r.value.fullText)
    ensures r.Some? ==>
              var source := if freqText != "" then freqText else r.value.fullText;
              (r.value.frequency != "" <==> Search(Frequency, source).Some?)
              && (r.value.frequency == "" || FrequencyShaped(r.value.frequency))
    ensures r.Some? ==> r.value.polarization in ["", "V", "H", "L", "R"]
    ensures r.Some? ==> r.value.symbolRate == "" || SymbolRateShaped(r.value.symbolRate)
    ensures r.Some? ==> r.value.fec == "" || FecShaped(r.value.fec)
    ensures r.Some? ==> r.value.quality in ["", "HD", "SD", "UHD", "4K", "UD"]
    ensures r.Some? ==> (r.value.quality != "" <==> Search(Literals(QualityDropTokens, false), r.value.fullText).Some?)
    ensures r.Some? ==> (r.value.modulation != "" <==> Search(Dvb(Bare), r.value.fullText).Some?)
    ensures r.Some? ==>
              var full := r.value.fullText;
              && LeftmostMatchText(Frequency, if freqText != "" then freqText else full, r.value.frequency)
              && LeftmostMatchText(Polarisation, full, r.value.polarization)
              && LeftmostMatchText(SymbolRate, full, r.value.symbolRate)
              && LeftmostMatchText(Fec, full, r.value.fec)
              && LeftmostMatchText(Dvb(Bare), full, r.value.modulation)
              && r.value.quality == UpperStr(Found(Literals(QualityDropTokens, false), full))
              && LeftmostMatchText(Literals(QualityDropTokens, false), full, Found(Literals(QualityDropTokens, false), full))
  {
    var full := StripOrdinal(text);
    if |full| < 2 then None
    else
      var source := if freqText != "" then freqText else full;
      FoundFrequency(source);
      FoundPolarisation(full);
      FoundSymbolRate(full);
      FoundFec(full);
      FoundLeftmost(Frequency, source);
      FoundLeftmost(Polarisation, full);
      FoundLeftmost(SymbolRate, full);
      FoundLeftmost(Fec, full);
      FoundLeftmost(Dvb(Bare), full);
      FoundLeftmost(Literals(QualityDropTokens, false), full);
      QualityIsFound(full);
      var quality := match FirstQualityIn(QualityDropTokens, full) case None => "" case Some(q) => q;
      Some(Info(
        Clean(policy, full), full, quality, Found(Frequency, source), Found(Polarisation, full),
        Found(SymbolRate, full), Found(Fec, full), Found(Dvb(Bare), full)))
  }
}
