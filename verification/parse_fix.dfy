/** The row loop of tvh_parser_fix.py `parse_satkurier`: every row's joined
    text is either a category header, recognised by `is_category_header`,
    or a channel, numbered by one counter over the whole page. */
module FixParser {
  import opened Chars
  import opened Patterns
  import opened Cleaners
  import opened ChannelInfo
  import opened Table
  import opened Bouquets

  const HeaderClasses: seq<string> := ["header", "category", "group", "title"]

  const CategoryKeywords: seq<string> :=
    ["pakiet", "kanały", "kanaly", "sport", "filmowe", "informacyjne", "muzyczne", "dziecięce",
     "lifestyle", "dokumentalne", "premium", "podstawowe", "rozszerzone", "dodatkowe", "hd", "sd", "ultra"]

  /** Length of the run of non-whitespace starting at `i`. */
  function NonSpaceRunLen(s: string, i: nat): (n: nat)
    requires i <= |s|
    ensures i + n <= |s|
    ensures i < |s| && !IsSpace(s[i]) ==> n > 0
    decreases |s| - i
  {
    if i == |s| || IsSpace(s[i]) then 0 else 1 + NonSpaceRunLen(s, i + 1)
  }

  /** `len(text.split())`: the number of whitespace-separated words. */
  function WordCount(s: string): (n: nat)
    ensures n <= |s|
    ensures n == 0 <==> forall k :: 0 <= k < |s| ==> IsSpace(s[k])
    decreases |s|
  {
    if s == [] then 0
    else if IsSpace(s[0]) then WordCount(s[1..])
    else 1 + WordCount(s[NonSpaceRunLen(s, 0)..])
  }

  /** `re.match(r'^\d+\.?\s+', text)`: a leading number, perhaps a dot, then
      whitespace. */
  predicate OrdinalSpaced(text: string) {
    var d := DigitRunLen(text, 0);
    d > 0 && d < |text|
    && (IsSpace(text[d]) || (text[d] == '.' && d + 1 < |text| && IsSpace(text[d + 1])))
  }

  /** The markup tells: a spanning single cell, a `th`, a header-like class,
      or a bold part making up at least 80% of the text (`len(strong) >=
      len(text) * 0.8`, compared exactly). */
  predicate MarkedHeader(cells: Row, text: string)
    requires |cells| > 0
  {
    SpanningCell(cells)
    || cells[0].isTh
    || (exists k :: 0 <= k < |cells[0].classes| && cells[0].classes[k] in HeaderClasses)
    || (cells[0].firstBold.Some? && 5 * |cells[0].firstBold.value| >= 4 * |text|)
  }

  /** A frequency, a symbol rate, a polarisation letter or `DVB-S`/`DVB-T`. */
  predicate Technical(text: string) {
    Search(Frequency, text).Some? || Search(SymbolRate, text).Some?
    || Search(Polarisation, text).Some? || Search(DvbPrefix, text).Some?
  }

  /** The text alone suggests a title: a category keyword, or a short text
      (at most five words, under fifty characters) not starting with an
      ordinal. */
  predicate TitleLike(text: string) {
    AnyKeyword(CategoryKeywords, LowerStr(text))
    || (WordCount(text) <= 5 && |text| < 50 && !OrdinalSpaced(text))
  }

  /** `is_category_header(cells, text)`: the checks in their order. A text
      under three characters is never a header; otherwise the markup
      decides when it can, and the text heuristics are consulted only for a
      text without technical parameters. */
  function IsCategoryHeader(cells: Row, text: string): (r: bool)
    requires |text| >= 3 ==> |cells| > 0
    ensures |text| < 3 ==> !r
    ensures |text| >= 3 ==> (r <==> MarkedHeader(cells, text) || (!Technical(text) && TitleLike(text)))
  {
    if |text| < 3 then false
    else if SpanningCell(cells) then true
    else if cells[0].isTh then true
    else if exists k :: 0 <= k < |cells[0].classes| && cells[0].classes[k] in HeaderClasses then true
    else if cells[0].firstBold.Some? && 5 * |cells[0].firstBold.value| >= 4 * |text| then true
    else if !Technical(text) then
      if AnyKeyword(CategoryKeywords, LowerStr(text)) then true
      else WordCount(text) <= 5 && |text| < 50 && !OrdinalSpaced(text)
    else false
  }

  // ---------------------------------------------------------------------
  // The loop.

  datatype FixState = FixState(category: string, number: int, bouquets: Bouquets)

  /** One row: the joined text is a header (it becomes the category), a
      bare number (skipped), or a channel filed under the next number. */
  function FixRow(st: FixState, cells: Row): (r: FixState)
    requires GloballyNumbered(st.bouquets, st.number)
    ensures GloballyNumbered(r.bouquets, r.number)
    ensures cells != [] && RowText(cells) != "" && IsCategoryHeader(cells, RowText(cells)) ==>
              r.category == RowText(cells) && HasCategory(r.bouquets, r.category) && r.number == st.number
    ensures r.category == st.category || (cells != [] && r.category == RowText(cells))
    ensures r.number == st.number || r.number == st.number + 1
    ensures r.number == st.number + 1 ==>
              cells != [] && !IsCategoryHeader(cells, RowText(cells)) && !IsDigitString(RowText(cells))
              && (exists info: Info :: info.name != "" && info.name == Clean(QualityLast, info.fullText)
                    && r.bouquets == AppendEntry(st.bouquets, st.category, Entry(info, st.category, st.number)))
  {
    if cells == [] then st
    else
      var full := RowText(cells);
      if full == "" then st
      else if IsCategoryHeader(cells, full) then
        EnsureKeepsNumbering(st.bouquets, st.number, full);
        st.(category := full, bouquets := EnsureCategory(st.bouquets, full))
      else if IsDigitString(full) then st
      else
        match ParseChannelInfo(QualityLast, full, "")
        case None => st
        case Some(info) =>
          if info.name == "" then st
          else
            var e := Entry(info, st.category, st.number);
            FileNext(st.bouquets, st.number, e);
            st.(bouquets := AppendEntry(st.bouquets, st.category, e), number := st.number + 1)
  }

  function FixRows(st: FixState, rows: seq<Row>): (r: FixState)
    requires GloballyNumbered(st.bouquets, st.number)
    ensures GloballyNumbered(r.bouquets, r.number)
    decreases |rows|
  {
    if rows == [] then st else FixRows(FixRow(st, rows[0]), rows[1..])
  }

  function FixTables(st: FixState, page: Page): (r: FixState)
    requires GloballyNumbered(st.bouquets, st.number)
    ensures GloballyNumbered(r.bouquets, r.number)
    decreases |page|
  {
    if page == [] then st else FixTables(FixRows(st, page[0]), page[1..])
  }

  /** tvh_parser_fix.py `parse_satkurier` on one page: the channels are
      numbered 1..N over the whole page, increasing within each category. */
  function ParseFix(page: Page): (r: Bouquets)
    ensures WellFormed(r)
    ensures Numbers(r) == Interval(Total(r))
    ensures IncreasingNumbers(r)
  {
    FixTables(FixState(NoCategory, 1, []), page).bouquets
  }
}
