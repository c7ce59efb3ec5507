/** The row loop of tvhlstfta.py `parse_satkurier`: a header row records the
    first "nazwa" column for the rest of its table, a spanning row opens a
    category and restarts the numbering at 1, and every other row may
    become a channel, numbered by a counter that runs across tables. */
module FtaParser {
  import opened Chars
  import opened Patterns
  import opened Cleaners
  import opened ChannelInfo
  import opened Table
  import opened Bouquets

  const Policy: CleanPolicy := DropQuality(GenresFta)

  /** The scanning state: the name column of the current table, the current
      category, the next number, the bouquets so far. */
  datatype FtaState = FtaState(nameCol: Option<nat>, category: string, number: int, bouquets: Bouquets)

  /** The row's cell texts joined by spaces and lower-cased, for the header
      tests. */
  function HeaderText(cells: Row): string {
    LowerStr(RowText(cells))
  }

  predicate IsHeaderRow(cells: Row) {
    var h := HeaderText(cells);
    Contains(h, "nazwa") && (Contains(h, "tp") || Contains(h, "freq"))
  }

  predicate NameHeading(t: string) {
    Contains(LowerStr(t), "nazwa")
  }

  /** The channel text of a row: the name column while it fits the row,
      otherwise every cell. */
  function FullText(nameCol: Option<nat>, cells: Row): string {
    if ColumnFits(nameCol, cells) then CellText(cells[nameCol.value]) else RowText(cells)
  }

  predicate Admissible(t: string) {
    t != "" && !IsDigitString(t) && !Junk(t, "-_")
  }

  /** The parsed channel of a row, if any (its number and category are set
      when it is filed). */
  function RowInfo(nameCol: Option<nat>, cells: Row): (r: Option<Info>)
    ensures r.Some? ==> r.value.name != "" && Admissible(FullText(nameCol, cells))
    ensures r.Some? ==> r.value.name == Clean(Policy, r.value.fullText)
  {
    var t := FullText(nameCol, cells);
    if !Admissible(t) then None
    else
      match ParseChannelInfo(Policy, t, "")
      case None => None
      case Some(info) => if info.name == "" then None else Some(info)
  }

  /** One row of the loop. A header row only records the column; a spanning
      row with a title longer than two characters opens its category and
      restarts the numbering; a channel takes the current number, and the
      number moves on by one. */
  function FtaRow(st: FtaState, cells: Row): (r: FtaState)
    requires WellFormed(st.bouquets)
    ensures WellFormed(r.bouquets)
    ensures cells != [] && IsHeaderRow(cells) ==>
              r.bouquets == st.bouquets && r.number == st.number && r.category == st.category
              && (r.nameCol == st.nameCol
                  || (r.nameCol.Some? && r.nameCol.value < |cells| && NameHeading(CellTexts(cells)[r.nameCol.value])
                      && forall k :: 0 <= k < r.nameCol.value ==> !NameHeading(CellTexts(cells)[k])))
    ensures !(cells != [] && IsHeaderRow(cells)) ==> r.nameCol == st.nameCol
    ensures cells != [] && !IsHeaderRow(cells) && SpanningCell(cells) ==>
              if |CellText(cells[0])| > 2 then
                r.category == CellText(cells[0]) && r.number == 1
                && HasCategory(r.bouquets, r.category) && Total(r.bouquets) == Total(st.bouquets)
              else r == st
    ensures r.category == st.category || r.number == 1
    ensures (r.bouquets == st.bouquets && r.number == st.number)
            || (r.number == 1 && Total(r.bouquets) == Total(st.bouquets))
            || (exists info :: r.bouquets == AppendEntry(st.bouquets, st.category, Entry(info, st.category, st.number))
                               && info.name != "" && r.number == st.number + 1 && r.category == st.category)
  {
    if cells == [] then st
    else if IsHeaderRow(cells) then
      var col := FirstWhere(CellTexts(cells), NameHeading);
      st.(nameCol := if col.Some? then col else st.nameCol)
    else if SpanningCell(cells) then
      var title := CellText(cells[0]);
      if |title| > 2 then st.(category := title, bouquets := EnsureCategory(st.bouquets, title), number := 1)
      else st
    else
      match RowInfo(st.nameCol, cells)
      case None => st
      case Some(info) =>
        var e := Entry(info, st.category, st.number);
        AppendWellFormed(st.bouquets, st.category, e);
        st.(bouquets := AppendEntry(st.bouquets, st.category, e), number := st.number + 1)
  }

  function FtaRows(st: FtaState, rows: seq<Row>): (r: FtaState)
    requires WellFormed(st.bouquets)
    ensures WellFormed(r.bouquets)
    decreases |rows|
  {
    if rows == [] then st else FtaRows(FtaRow(st, rows[0]), rows[1..])
  }

  /** The tables of the page: the name column is forgotten at each table,
      the category and the counter are not. */
  function FtaTables(st: FtaState, page: Page): (r: FtaState)
    requires WellFormed(st.bouquets)
    ensures WellFormed(r.bouquets)
    decreases |page|
  {
    if page == [] then st
    else FtaTables(FtaRows(st.(nameCol := None), page[0]), page[1..])
  }

  /** tvhlstfta.py `parse_satkurier` on one page. */
  function ParseFta(page: Page): (r: Bouquets)
    ensures WellFormed(r)
  {
    FtaTables(FtaState(None, NoCategory, 1, []), page).bouquets
  }

  // ---------------------------------------------------------------------
  // Numbering.

  /** Since the last category row the channels were numbered 1, 2, 3, ...:
      the last `number - 1` entries of the current category carry the
      numbers 1 .. number - 1, in order. */
  predicate RunNumbered(st: FtaState) {
    st.number >= 1
    && (st.number > 1 ==>
          var es := EntriesOf(st.bouquets, st.category);
          && st.number - 1 <= |es|
          && forall j :: |es| - (st.number - 1) <= j < |es| ==> es[j].number == j - |es| + st.number)
  }

  /** Every row keeps the numbering of the current run. */
  lemma FtaRowNumbering(st: FtaState, cells: Row)
    requires WellFormed(st.bouquets) && RunNumbered(st)
    ensures RunNumbered(FtaRow(st, cells))
  {
    var r := FtaRow(st, cells);
    if r.number != 1 && !(r.bouquets == st.bouquets && r.number == st.number && r.category == st.category) {
      var info :| r.bouquets == AppendEntry(st.bouquets, st.category, Entry(info, st.category, st.number))
                  && r.number == st.number + 1 && r.category == st.category;
      AppendNumbering(st, info, r);
    }
  }

  /** A channel filed with the current number extends the run by one. */
  lemma AppendNumbering(st: FtaState, info: Info, r: FtaState)
    requires WellFormed(st.bouquets) && RunNumbered(st)
    requires r.bouquets == AppendEntry(st.bouquets, st.category, Entry(info, st.category, st.number))
    requires r.number == st.number + 1 && r.category == st.category
    ensures RunNumbered(r)
  {
    var e := Entry(info, st.category, st.number);
    EntriesOfAppend(st.bouquets, st.category, e, st.category);
    var es := EntriesOf(st.bouquets, st.category);
    var es' := EntriesOf(r.bouquets, r.category);
    assert es' == es + [e];
    forall j | |es'| - (r.number - 1) <= j < |es'| ensures es'[j].number == j - |es'| + r.number {
      if j < |es| {
        assert es'[j] == es[j];
      }
    }
  }

  lemma {:induction false} FtaRowsNumbering(st: FtaState, rows: seq<Row>)
    requires WellFormed(st.bouquets) && RunNumbered(st)
    ensures RunNumbered(FtaRows(st, rows))
    decreases |rows|
  {
    if rows != [] {
      FtaRowNumbering(st, rows[0]);
      FtaRowsNumbering(FtaRow(st, rows[0]), rows[1..]);
    }
  }

  lemma {:induction false} FtaTablesNumbering(st: FtaState, page: Page)
    requires WellFormed(st.bouquets) && RunNumbered(st)
    ensures RunNumbered(FtaTables(st, page))
    decreases |page|
  {
    if page != [] {
      FtaRowsNumbering(st.(nameCol := None), page[0]);
      FtaTablesNumbering(FtaRows(st.(nameCol := None), page[0]), page[1..]);
    }
  }

  /** At the end of the page the current category ends with a run numbered
      1, 2, 3, ... */
  lemma ParseFtaNumbering(page: Page)
    ensures RunNumbered(FtaTables(FtaState(None, NoCategory, 1, []), page))
  {
    FtaTablesNumbering(FtaState(None, NoCategory, 1, []), page);
  }
}
