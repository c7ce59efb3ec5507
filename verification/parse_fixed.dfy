/** The row loop of tvh-bouquet-fixed.py `parse_satkurier`: only a spanning
    single cell with a title longer than two characters opens a category;
    every other row's joined text may become a channel, numbered by one
    counter over the whole page. */
module FixedParser {
  import opened Chars
  import opened Patterns
  import opened Cleaners
  import opened ChannelInfo
  import opened Table
  import opened Bouquets

  datatype FixedState = FixedState(category: string, number: int, bouquets: Bouquets)

  /** A spanning single cell with a title longer than two characters. */
  predicate CategoryRow(cells: Row) {
    SpanningCell(cells) && |CellText(cells[0])| > 2
  }

  /** The channel a row's joined text describes, if it parses to a
      non-empty cleaned name. */
  function RowInfo(full: string): (r: Option<Info>)
    ensures r.Some? <==> |StripOrdinal(full)| >= 2 && Clean(QualityLast, StripOrdinal(full)) != ""
    ensures r.Some? ==> r.value.fullText == StripOrdinal(full) && r.value.name == Clean(QualityLast, r.value.fullText)
  {
    match ParseChannelInfo(QualityLast, full, "")
    case None => None
    case Some(info) => if info.name == "" then None else Some(info)
  }

  /** A row that is not a spanning cell: its joined text becomes the next
      channel unless it is empty, all digits, or yields no name. */
  function FixedListing(st: FixedState, full: string): (r: FixedState)
    requires GloballyNumbered(st.bouquets, st.number)
    ensures GloballyNumbered(r.bouquets, r.number) && r.category == st.category
    ensures r.number == st.number || r.number == st.number + 1
    ensures r.number == st.number + 1 ==>
              !IsDigitString(full)
              && (exists info: Info :: info.name != "" && info.name == Clean(QualityLast, info.fullText)
                    && r.bouquets == AppendEntry(st.bouquets, st.category, Entry(info, st.category, st.number)))
    ensures r.number == st.number ==> r.bouquets == st.bouquets
  {
    if full == "" || IsDigitString(full) then st
    else
      match RowInfo(full)
      case None => st
      case Some(info) => FileChannel(st, info)
  }

  /** Files a channel under the current category with the next number. */
  function FileChannel(st: FixedState, info: Info): (r: FixedState)
    requires GloballyNumbered(st.bouquets, st.number)
    ensures GloballyNumbered(r.bouquets, r.number)
    ensures r.category == st.category && r.number == st.number + 1
    ensures Total(r.bouquets) == Total(st.bouquets) + 1
    ensures r.bouquets == AppendEntry(st.bouquets, st.category, Entry(info, st.category, st.number))
  {
    var e := Entry(info, st.category, st.number);
    FileNext(st.bouquets, st.number, e);
    st.(bouquets := AppendEntry(st.bouquets, st.category, e), number := st.number + 1)
  }

  /** One row. */
  function FixedRow(st: FixedState, cells: Row): (r: FixedState)
    requires GloballyNumbered(st.bouquets, st.number)
    ensures GloballyNumbered(r.bouquets, r.number)
    ensures CategoryRow(cells) ==>
              r.category == CellText(cells[0]) && HasCategory(r.bouquets, r.category)
              && r.number == st.number && Total(r.bouquets) == Total(st.bouquets)
    ensures !CategoryRow(cells) ==> r.category == st.category
    ensures SpanningCell(cells) && !CategoryRow(cells) ==> r == st
    ensures r.number == st.number || r.number == st.number + 1
    ensures r.number == st.number + 1 ==>
              !SpanningCell(cells) && !IsDigitString(RowText(cells))
              && (exists info: Info :: info.name != "" && info.name == Clean(QualityLast, info.fullText)
                    && r.bouquets == AppendEntry(st.bouquets, st.category, Entry(info, st.category, st.number)))
    ensures r.number == st.number && !CategoryRow(cells) ==> r.bouquets == st.bouquets
  {
    if cells == [] then st
    else if SpanningCell(cells) then
      var title := CellText(cells[0]);
      if |title| > 2 then
        EnsureKeepsNumbering(st.bouquets, st.number, title);
        st.(category := title, bouquets := EnsureCategory(st.bouquets, title))
      else st
    else FixedListing(st, RowText(cells))
  }

  function FixedRows(st: FixedState, rows: seq<Row>): (r: FixedState)
    requires GloballyNumbered(st.bouquets, st.number)
    ensures GloballyNumbered(r.bouquets, r.number)
    decreases |rows|
  {
    if rows == [] then st else FixedRows(FixedRow(st, rows[0]), rows[1..])
  }

  function FixedTables(st: FixedState, page: Page): (r: FixedState)
    requires GloballyNumbered(st.bouquets, st.number)
    ensures GloballyNumbered(r.bouquets, r.number)
    decreases |page|
  {
    if page == [] then st else FixedTables(FixedRows(st, page[0]), page[1..])
  }

  /** tvh-bouquet-fixed.py `parse_satkurier` on one page: numbered 1..N over
      the whole page, increasing within each category. */
  function ParseFixed(page: Page): (r: Bouquets)
    ensures WellFormed(r)
    ensures Numbers(r) == Interval(Total(r))
    ensures IncreasingNumbers(r)
  {
    FixedTables(FixedState(NoCategory, 1, []), page).bouquets
  }

  // ---------------------------------------------------------------------
  // Without category rows everything is "Bez kategorii".

  /** No row of the table is a category row. */
  predicate NoCategoryRows(rows: seq<Row>) {
    forall k :: 0 <= k < |rows| ==> !CategoryRow(rows[k])
  }

  /** The bouquets hold at most the one group `cat`. */
  predicate OnlyCategory(b: Bouquets, cat: string) {
    forall i :: 0 <= i < |b| ==> b[i].category == cat
  }

  lemma {:induction false} FixedRowsOneCategory(st: FixedState, rows: seq<Row>)
    requires GloballyNumbered(st.bouquets, st.number)
    requires NoCategoryRows(rows) && OnlyCategory(st.bouquets, st.category)
    ensures FixedRows(st, rows).category == st.category
    ensures OnlyCategory(FixedRows(st, rows).bouquets, st.category)
    decreases |rows|
  {
    if rows != [] {
      var st1 := FixedRow(st, rows[0]);
      if st1.number != st.number {
        var info: Info :| st1.bouquets == AppendEntry(st.bouquets, st.category, Entry(info, st.category, st.number));
        AppendOnlyCategory(st.bouquets, st.category, Entry(info, st.category, st.number));
      }
      FixedRowsOneCategory(st1, rows[1..]);
    }
  }

  lemma AppendOnlyCategory(b: Bouquets, cat: string, e: Entry)
    requires OnlyCategory(b, cat)
    ensures OnlyCategory(AppendEntry(b, cat, e), cat)
  {
  }

  lemma {:induction false} FixedTablesOneCategory(st: FixedState, page: Page)
    requires GloballyNumbered(st.bouquets, st.number)
    requires (forall t :: 0 <= t < |page| ==> NoCategoryRows(page[t])) && OnlyCategory(st.bouquets, st.category)
    ensures OnlyCategory(FixedTables(st, page).bouquets, st.category)
    decreases |page|
  {
    if page != [] {
      FixedRowsOneCategory(st, page[0]);
      FixedTablesOneCategory(FixedRows(st, page[0]), page[1..]);
    }
  }

  /** A page without a category row files every channel under "Bez
      kategorii": the result is empty or that one group. */
  lemma NoTitlesOneGroup(page: Page)
    requires forall t :: 0 <= t < |page| ==> NoCategoryRows(page[t])
    ensures |ParseFixed(page)| <= 1
    ensures forall i :: 0 <= i < |ParseFixed(page)| ==> ParseFixed(page)[i].category == NoCategory
  {
    FixedTablesOneCategory(FixedState(NoCategory, 1, []), page);
    AtMostOneGroup(ParseFixed(page), NoCategory);
  }

  /** Distinct categories, all equal to `cat`: at most one group. */
  lemma AtMostOneGroup(b: Bouquets, cat: string)
    requires DistinctCategories(b) && OnlyCategory(b, cat)
    ensures |b| <= 1
  {
    if |b| > 1 {
      FirstTwoDiffer(b);
      assert false;
    }
  }

  lemma FirstTwoDiffer(b: Bouquets)
    requires DistinctCategories(b) && |b| > 1
    ensures b[0].category != b[1].category
  {
  }
}
