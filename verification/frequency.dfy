/** Frequencies in whole MHz, as both sides of the tvhlst.py pair key see them.

    - The channel list gives a text such as "11,508" or "11508"
      (`get_freq_mhz_from_str`): `,` is read as a decimal point, a value below
      1000 is taken as GHz and scaled by 1000, and anything unreadable is 0.
    - The catalogue gives a multiplex frequency in kHz, divided by 1000 when
      positive and 0 otherwise.

    Python parses the text as a float; here it is an exact decimal, so the
    truncation `int(...)` is the exact floor. */
module Frequency {
  import opened Chars
  import opened Patterns
  import opened ChannelInfo

  predicate AllDigits(s: string) {
    forall k :: 0 <= k < |s| ==> IsDigit(s[k])
  }

  /** The number a string of decimal digits spells. */
  function DigitsValue(s: string): (v: nat)
    requires AllDigits(s)
  {
    if s == [] then 0 else DigitsValue(s[..|s| - 1]) * 10 + (s[|s| - 1] as int - '0' as int)
  }

  function Pow10(k: nat): (p: nat)
    ensures p >= 1
  {
    if k == 0 then 1 else 10 * Pow10(k - 1)
  }

  /** The decimal number whose value is `mantissa` divided by ten to the
      power `scale`. */
  datatype Decimal = Decimal(mantissa: nat, scale: nat)

  /** Position of the first `c` in `s`, or `|s|` when there is none. */
  function FirstIndex(s: string, c: char): (i: nat)
    ensures i <= |s|
    ensures i < |s| ==> s[i] == c
    ensures forall k :: 0 <= k < i ==> s[k] != c
  {
    if s == [] then 0
    else if s[0] == c then 0
    else 1 + FirstIndex(s[1..], c)
  }

  /** An unsigned decimal numeral: digits, optionally one point, and at least
      one digit in all (`11`, `11.508`, `11.`, `.5`). */
  function ParseDecimal(s: string): (d: Option<Decimal>)
    ensures d.Some? ==> s != ""
    ensures AllDigits(s) && s != "" ==> d == Some(Decimal(DigitsValue(s), 0))
  {
    var i := FirstIndex(s, '.');
    if i == |s| then
      (if s != "" && AllDigits(s) then Some(Decimal(DigitsValue(s), 0)) else None)
    else
      var whole := s[..i];
      var fraction := s[i + 1..];
      if AllDigits(whole) && AllDigits(fraction) && |whole| + |fraction| > 0 then
        Some(Decimal(DigitsValue(whole + fraction), |fraction|))
      else None
  }

  /** Reading a frequency column into whole MHz (`get_freq_mhz_from_str`). */
  function FreqMhzFromStr(freq: string): (mhz: nat)
    ensures freq == "" ==> mhz == 0
    ensures ParseDecimal(ReplaceChar(freq, ',', ".")).None? ==> mhz == 0
    ensures ParseDecimal(ReplaceChar(freq, ',', ".")).Some? ==>
              var d := ParseDecimal(ReplaceChar(freq, ',', ".")).value;
              if d.mantissa < 1000 * Pow10(d.scale) then
                mhz * Pow10(d.scale) <= d.mantissa * 1000 < (mhz + 1) * Pow10(d.scale)
              else
                mhz * Pow10(d.scale) <= d.mantissa < (mhz + 1) * Pow10(d.scale)
  {
    if freq == "" then 0
    else
      match ParseDecimal(ReplaceChar(freq, ',', "."))
      case None => 0
      case Some(d) =>
        var p := Pow10(d.scale);
        if d.mantissa < 1000 * p then FloorDiv(d.mantissa * 1000, p) else FloorDiv(d.mantissa, p)
  }

  function FloorDiv(a: nat, b: nat): (q: nat)
    requires b > 0
    ensures q * b <= a < (q + 1) * b
  {
    a / b
  }

  /** `int(freq_khz / 1000) if freq_khz > 0 else 0` for a multiplex. */
  function MuxFreqMhz(freqKhz: int): (mhz: nat)
    ensures freqKhz <= 0 ==> mhz == 0
    ensures freqKhz > 0 ==> mhz * 1000 <= freqKhz < (mhz + 1) * 1000
  {
    if freqKhz > 0 then FloorDiv(freqKhz, 1000) else 0
  }

  // ---------------------------------------------------------------------
  // Properties.

  /** The digits of a frequency-shaped text, separator left out. */
  function ShapedDigits(f: string): (v: nat)
    requires FrequencyShaped(f)
  {
    var whole := f[..|f| - 4];
    var fraction := f[|f| - 3..];
    assert AllDigits(whole + fraction) by {
      forall k | 0 <= k < |whole + fraction| ensures IsDigit((whole + fraction)[k]) {
        if k < |whole| { assert (whole + fraction)[k] == f[k]; }
        else { assert (whole + fraction)[k] == f[k + 1]; }
      }
    }
    DigitsValue(whole + fraction)
  }

  lemma {:induction false} DigitsValueBound(s: string)
    requires AllDigits(s)
    ensures DigitsValue(s) < Pow10(|s|)
  {
    if s != [] {
      DigitsValueBound(s[..|s| - 1]);
    }
  }

  lemma {:induction false} NoPointNoComma(s: string)
    requires forall k :: 0 <= k < |s| ==> s[k] != ','
    ensures ReplaceChar(s, ',', ".") == s
  {
    if s != [] {
      NoPointNoComma(s[1..]);
    }
  }

  lemma {:induction false} ReplaceCharLength(s: string, from: char, to: char)
    ensures |ReplaceChar(s, from, [to])| == |s|
    ensures forall k :: 0 <= k < |s| ==> ReplaceChar(s, from, [to])[k] == if s[k] == from then to else s[k]
  {
    if s != [] {
      ReplaceCharLength(s[1..], from, to);
    }
  }

  /** A frequency as the channel-list pattern captures it ("11,508", "11.508",
      "9,750") is read as GHz: its MHz are its digits, separator removed. */
  lemma ShapedFrequencyMhz(f: string)
    requires FrequencyShaped(f)
    ensures FreqMhzFromStr(f) == ShapedDigits(f)
  {
    ShapedParses(f);
    ShapedDigitsBound(f);
    assert Pow10(3) == 1000;
  }

  /** The separator becomes the decimal point and three digits follow it. */
  lemma ShapedParses(f: string)
    requires FrequencyShaped(f)
    ensures ParseDecimal(ReplaceChar(f, ',', ".")) == Some(Decimal(ShapedDigits(f), 3))
  {
    var g := ReplaceChar(f, ',', ".");
    ReplaceCharLength(f, ',', '.');
    var i := |f| - 4;
    assert g[i] == '.';
    assert FirstIndex(g, '.') == i by {
      forall k | 0 <= k < i ensures g[k] != '.' {
        assert IsDigit(f[k]);
      }
      FirstIndexIs(g, '.', i);
    }
    var whole := f[..i];
    var fraction := f[i + 1..];
    assert g[..i] == whole;
    assert g[i + 1..] == fraction;
    assert AllDigits(whole) by {
      forall k | 0 <= k < |whole| ensures IsDigit(whole[k]) { assert whole[k] == f[k]; }
    }
    assert AllDigits(fraction) by {
      forall k | 0 <= k < |fraction| ensures IsDigit(fraction[k]) { assert fraction[k] == f[i + 1 + k]; }
    }
  }

  /** A shaped frequency has at most five digits. */
  lemma ShapedDigitsBound(f: string)
    requires FrequencyShaped(f)
    ensures ShapedDigits(f) < 100000
  {
    var whole := f[..|f| - 4];
    var fraction := f[|f| - 3..];
    DigitsValueBound(whole + fraction);
    assert |whole + fraction| <= 5;
    Pow10Monotone(|whole + fraction|, 5);
  }

  lemma FirstIndexIs(s: string, c: char, i: nat)
    requires i < |s| && s[i] == c && forall k :: 0 <= k < i ==> s[k] != c
    ensures FirstIndex(s, c) == i
  {
  }

  lemma {:induction false} Pow10Monotone(a: nat, b: nat)
    requires a <= b
    ensures Pow10(a) <= Pow10(b)
    decreases b - a
  {
    if a < b {
      Pow10Monotone(a, b - 1);
    }
  }

  /** A whole number of at least 1000 is already in MHz; a smaller one is GHz. */
  lemma WholeNumberMhz(s: string)
    requires s != "" && AllDigits(s)
    ensures DigitsValue(s) >= 1000 ==> FreqMhzFromStr(s) == DigitsValue(s)
    ensures DigitsValue(s) < 1000 ==> FreqMhzFromStr(s) == DigitsValue(s) * 1000
  {
    NoPointNoComma(s);
    assert Pow10(0) == 1;
  }

  /** A comma and a point are the same separator. */
  lemma CommaIsPoint(s: string)
    ensures FreqMhzFromStr(ReplaceChar(s, ',', ".")) == FreqMhzFromStr(s)
  {
    var g := ReplaceChar(s, ',', ".");
    assert ',' !in g;
    NoPointNoComma(g);
    if s != "" {
      ReplaceCharLength(s, ',', '.');
    }
  }

  /** A list frequency and a multiplex frequency meet in the pair key exactly
      when the multiplex lies in the same whole MHz. */
  lemma ShapedMeetsMux(f: string, freqKhz: int)
    requires FrequencyShaped(f) && ShapedDigits(f) > 0
    ensures (FreqMhzFromStr(f) == MuxFreqMhz(freqKhz))
            <==> (ShapedDigits(f) * 1000 <= freqKhz < (ShapedDigits(f) + 1) * 1000)
  {
    ShapedFrequencyMhz(f);
  }

  lemma CommaFrequencyExample()
    ensures FreqMhzFromStr("11,508") == 11508
  {
    var f: string := "11,508";
    Shaped11508();
    ShapedFrequencyMhz(f);
    Digits11508();
  }

  lemma Shaped11508()
    ensures FrequencyShaped("11,508") && ShapedDigits("11,508") == DigitsValue("11508")
  {
    var f: string := "11,508";
    assert f[..2] + f[3..] == "11508";
  }

  lemma Digits11508()
    ensures AllDigits("11508") && DigitsValue("11508") == 11508
  {
    assert "11508"[..4] == "1150";
    assert "1150"[..3] == "115";
    assert "115"[..2] == "11";
    assert "11"[..1] == "1";
    assert "1"[..0] == "";
  }

  lemma WholeFrequencyExample()
    ensures FreqMhzFromStr("11508") == 11508
  {
    Digits11508();
    WholeNumberMhz("11508");
  }

  lemma UnreadableFrequencyExample()
    ensures FreqMhzFromStr("abc") == 0
  {
    NoPointNoComma("abc");
    assert FirstIndex("abc", '.') == 3;
  }

  /** "11,508" and "11508" name the same transponder, in MHz. */
  lemma CommaAndWholeAgree()
    ensures FreqMhzFromStr("11,508") == FreqMhzFromStr("11508") == 11508
  {
    CommaFrequencyExample();
    WholeFrequencyExample();
  }
}
