/** The row loop of tvhlst.py `parse_satkurier`: each page is read table by
    table; a header row (two or more keywords) records the name and
    frequency columns for the rest of its table, a spanning row names the
    category for the rest of the page, and every other row of two or more
    cells may become a channel. The pages' channels are then merged and
    numbered per category. */
module TvhlstParser {
  import opened Chars
  import opened Patterns
  import opened Cleaners
  import opened ChannelInfo
  import opened Table
  import opened Bouquets

  const HeaderKeywords: seq<string> :=
    ["nazwa", "name", "częstotliwość", "freq", "transponder", "tp", "pol", "sr",
     "dostawca", "nr", "rozdzielczość", "parametry"]

  /** Rows whose joined text holds one of these are skipped. */
  const HeaderPhrases: seq<string> := ["nr nazwa", "rozdzielczość parametry", "parametry techniczne"]

  const Policy: CleanPolicy := DropQuality(GenresTvhlst)

  /** The scanning state: the columns of the current table, the category of
      the page, the channels found so far (numbered later). */
  datatype ListingState = ListingState(nameCol: Option<nat>, freqCol: Option<nat>, category: string, found: seq<Entry>)

  /** The row's lower-cased cell texts joined by spaces, for the header
      tests. */
  function HeaderText(cells: Row): string {
    Join(" ", LowerTexts(cells))
  }

  predicate IsHeaderRow(cells: Row) {
    KeywordCount(HeaderKeywords, HeaderText(cells)) >= 2
  }

  predicate NameHeading(t: string) {
    Contains(t, "nazwa") && !Contains(t, "pakiet") && !Contains(t, "gatunek")
  }

  predicate FreqHeading(t: string) {
    Contains(t, "freq") || Contains(t, "częstotliwość")
  }

  /** The columns a header row records: the last qualifying column of each
      kind, the earlier value when none qualifies. */
  function HeaderColumns(st: ListingState, cells: Row): (r: ListingState)
    ensures r.category == st.category && r.found == st.found
    ensures r.nameCol == st.nameCol || (r.nameCol.Some? && r.nameCol.value < |cells| && NameHeading(LowerTexts(cells)[r.nameCol.value]))
    ensures r.freqCol == st.freqCol || (r.freqCol.Some? && r.freqCol.value < |cells| && FreqHeading(LowerTexts(cells)[r.freqCol.value]))
    ensures (exists k :: 0 <= k < |cells| && NameHeading(LowerTexts(cells)[k])) ==>
              r.nameCol.Some? && forall k :: r.nameCol.value < k < |cells| ==> !NameHeading(LowerTexts(cells)[k])
  {
    var texts := LowerTexts(cells);
    var name := LastWhere(texts, NameHeading);
    var freq := LastWhere(texts, FreqHeading);
    st.(nameCol := if name.Some? then name else st.nameCol,
        freqCol := if freq.Some? then freq else st.freqCol)
  }

  /** The channel text of a row: the name column while it fits the row,
      otherwise all the cells. */
  function RawName(nameCol: Option<nat>, cells: Row): string {
    if ColumnFits(nameCol, cells) then CellTextSpaced(cells[nameCol.value])
    else Join(" ", CellTextsSpaced(cells))
  }

  function RawFrequency(freqCol: Option<nat>, cells: Row): string {
    if ColumnFits(freqCol, cells) then CellTextSpaced(cells[freqCol.value]) else ""
  }

  /** A raw name worth parsing: present, not a bare number, not a line of
      dashes, at least three characters. */
  predicate Admissible(raw: string) {
    raw != "" && !IsDigitString(raw) && !Junk(raw, "-_=") && |raw| >= 3
  }

  /** The channel a row yields, if any. */
  function RowChannel(st: ListingState, cells: Row): (r: Option<Entry>)
    ensures r.Some? ==> r.value.category == st.category && r.value.info.name != ""
    ensures r.Some? ==> Admissible(RawName(st.nameCol, cells))
    ensures r.Some? ==> !AnyKeyword(HeaderPhrases, HeaderText(cells))
    ensures r.Some? ==> r.value.info.name == Clean(Policy, r.value.info.fullText)
    ensures r.Some? ==> r.value.info.fullText == StripOrdinal(RawName(st.nameCol, cells))
  {
    var raw := RawName(st.nameCol, cells);
    if !Admissible(raw) || AnyKeyword(HeaderPhrases, HeaderText(cells)) then None
    else
      match ParseChannelInfo(Policy, raw, RawFrequency(st.freqCol, cells))
      case None => None
      case Some(info) => if info.name == "" then None else Some(Entry(info, st.category, 0))
  }

  /** One row of the loop. */
  function ListingRow(st: ListingState, cells: Row): (r: ListingState)
    ensures IsHeaderRow(cells) ==> r.found == st.found && r.category == st.category
    ensures !IsHeaderRow(cells) ==> r.nameCol == st.nameCol && r.freqCol == st.freqCol
    ensures r.category == st.category
            || (SpanningCell(cells) && !IsHeaderRow(cells) && r.category == CellText(cells[0]) && |r.category| > 2)
    ensures r.found == st.found
            || (|cells| >= 2 && !IsHeaderRow(cells)
                && exists e :: RowChannel(st, cells) == Some(e) && r.found == st.found + [e])
  {
    if cells == [] then st
    else if IsHeaderRow(cells) then HeaderColumns(st, cells)
    else if SpanningCell(cells) then
      var title := CellText(cells[0]);
      if |title| > 2 then st.(category := title) else st
    else if |cells| < 2 then st
    else
      match RowChannel(st, cells)
      case None => st
      case Some(e) => st.(found := st.found + [e])
  }

  /** The rows of one table, from a given state. */
  function ListingRows(st: ListingState, rows: seq<Row>): (r: ListingState)
    decreases |rows|
  {
    if rows == [] then st else ListingRows(ListingRow(st, rows[0]), rows[1..])
  }

  /** Every channel found in a table is filed under the category in force
      before it or under the title of one of its spanning rows, and carries
      a name; the table yields at most one channel per row. */
  lemma {:induction false} ListingRowsSpec(st: ListingState, rows: seq<Row>)
    ensures var r := ListingRows(st, rows);
            && |st.found| <= |r.found| <= |st.found| + |rows|
            && r.found[..|st.found|] == st.found
            && (r.category == st.category || r.category in Titles(rows))
            && forall k :: |st.found| <= k < |r.found| ==>
                 r.found[k].info.name != "" && (r.found[k].category == st.category || r.found[k].category in Titles(rows))
    decreases |rows|
  {
    if rows != [] {
      var st1 := ListingRow(st, rows[0]);
      ListingRowsSpec(st1, rows[1..]);
      var r := ListingRows(st1, rows[1..]);
      assert r.found[..|st1.found|] == st1.found;
      assert r.found[..|st.found|] == st.found by {
        assert st1.found[..|st.found|] == st.found;
      }
      forall k | |st.found| <= k < |r.found|
        ensures r.found[k].info.name != "" && (r.found[k].category == st.category || r.found[k].category in Titles(rows))
      {
        if k < |st1.found| {
          assert r.found[k] == st1.found[k];
        }
      }
    }
  }

  /** The tables of one page: the columns start unknown in every table, the
      category carries over from table to table. */
  function ListingTables(category: string, found: seq<Entry>, page: Page): (r: ListingState)
    decreases |page|
  {
    if page == [] then ListingState(None, None, category, found)
    else
      var st := ListingRows(ListingState(None, None, category, found), page[0]);
      ListingTables(st.category, st.found, page[1..])
  }

  /** The channels of a page, in document order. */
  function ListingPage(page: Page): seq<Entry> {
    ListingTables(NoCategory, [], page).found
  }

  lemma {:induction false} ListingTablesSpec(category: string, found: seq<Entry>, page: Page)
    ensures var r := ListingTables(category, found, page);
            && |found| <= |r.found|
            && r.found[..|found|] == found
            && forall k :: |found| <= k < |r.found| ==>
                 r.found[k].info.name != "" && (r.found[k].category == category || r.found[k].category in PageTitles(page))
    decreases |page|
  {
    if page != [] {
      var st := ListingRows(ListingState(None, None, category, found), page[0]);
      ListingRowsSpec(ListingState(None, None, category, found), page[0]);
      ListingTablesSpec(st.category, st.found, page[1..]);
      var r := ListingTables(st.category, st.found, page[1..]);
      assert r.found[..|found|] == found by {
        assert r.found[..|st.found|] == st.found;
        assert st.found[..|found|] == found;
      }
      forall k | |found| <= k < |r.found|
        ensures r.found[k].info.name != "" && (r.found[k].category == category || r.found[k].category in PageTitles(page))
      {
        if k < |st.found| {
          assert r.found[k] == st.found[k];
        }
      }
    }
  }

  /** A page's channels all have names and sit under "Bez kategorii" or
      under the title of a spanning row of the page. */
  lemma ListingPageSpec(page: Page)
    ensures forall e :: e in ListingPage(page) ==>
              e.info.name != "" && (e.category == NoCategory || e.category in PageTitles(page))
  {
    ListingTablesSpec(NoCategory, [], page);
  }

  /** The whole parse: the pages in the order they are fetched, a failed
      fetch (None) contributing nothing, then merged and renumbered per
      category. */
  function ParseListing(pages: seq<Option<Page>>): (r: Bouquets)
    ensures WellFormed(r)
    ensures forall i, k :: 0 <= i < |r| && 0 <= k < |r[i].entries| ==> r[i].entries[k].number == k + 1
    ensures forall c :: EntriesOf(r, c) == NumberFrom(FetchedOfCategory(pages, c), 1)
    ensures forall i :: 0 <= i < |r| ==> r[i].entries != []
  {
    var r := MergePages(PagesChannels(pages));
    assert forall c :: EntriesOf(r, c) == NumberFrom(FetchedOfCategory(pages, c), 1) by {
      forall c ensures EntriesOf(r, c) == NumberFrom(FetchedOfCategory(pages, c), 1) {
        FetchedIsMerged(pages, c);
      }
    }
    r
  }

  /** The channels of category `c` over the fetched pages, in the order the
      pages come and, within a page, in document order. */
  function FetchedOfCategory(pages: seq<Option<Page>>, c: string): seq<Entry> {
    if pages == [] then []
    else
      (match pages[0] case None => [] case Some(p) => OfCategory(ListingPage(p), c))
      + FetchedOfCategory(pages[1..], c)
  }

  lemma {:induction false} FetchedIsMerged(pages: seq<Option<Page>>, c: string)
    ensures OfCategoryInPages(PagesChannels(pages), c) == FetchedOfCategory(pages, c)
    decreases |pages|
  {
    if pages != [] {
      FetchedIsMerged(pages[1..], c);
      assert PagesChannels(pages)[1..] == PagesChannels(pages[1..]);
      if pages[0].None? {
        assert OfCategory([], c) == [];
      }
    }
  }

  function PagesChannels(pages: seq<Option<Page>>): (r: seq<seq<Entry>>)
    ensures |r| == |pages|
    ensures forall i :: 0 <= i < |pages| ==> r[i] == if pages[i].Some? then ListingPage(pages[i].value) else []
  {
    if pages == [] then []
    else [if pages[0].Some? then ListingPage(pages[0].value) else []] + PagesChannels(pages[1..])
  }
}
