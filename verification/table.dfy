/** The scraped page, abstracted: a page is a list of tables, a table a list
    of rows, a row a list of cells. A cell keeps what the parsers look at:
    its text nodes, whether it is a `th`, whether it carries a (non-empty)
    `colspan` attribute, its classes, and the text of its first `strong`/`b`
    element if it has one. */
module Table {
  import opened Chars
  import opened Patterns

  datatype Cell = Cell(
    texts: seq<string>,
    isTh: bool,
    colspan: bool,
    classes: seq<string>,
    firstBold: Option<string>)

  type Row = seq<Cell>
  type Table = seq<Row>
  type Page = seq<Table>

  /** `sep.join(parts)`. */
  function Join(sep: string, parts: seq<string>): (r: string)
    ensures parts == [] ==> r == ""
    ensures |parts| == 1 ==> r == parts[0]
    ensures forall c :: c in r ==> c in sep || exists k :: 0 <= k < |parts| && c in parts[k]
  {
    if parts == [] then ""
    else if |parts| == 1 then parts[0]
    else
      var rest := Join(sep, parts[1..]);
      assert forall c :: c in rest ==> c in sep || exists k :: 0 <= k < |parts| && c in parts[k] by {
        forall c | c in rest && c !in sep ensures exists k :: 0 <= k < |parts| && c in parts[k] {
          var j :| 0 <= j < |parts[1..]| && c in parts[1..][j];
          assert c in parts[j + 1];
        }
      }
      parts[0] + sep + rest
  }

  /** The text nodes stripped, the empty ones dropped. */
  function StrippedNodes(texts: seq<string>): (r: seq<string>)
    ensures |r| <= |texts|
    ensures forall k :: 0 <= k < |r| ==> r[k] != "" && !IsSpace(r[k][0]) && !IsSpace(r[k][|r[k]| - 1])
  {
    if texts == [] then []
    else
      var t := Strip(texts[0]);
      (if t == "" then [] else [t]) + StrippedNodes(texts[1..])
  }

  /** `cell.get_text(strip=True)`: the stripped nodes glued together. */
  function CellText(c: Cell): (r: string)
    ensures r == "" <==> StrippedNodes(c.texts) == []
  {
    Concat(StrippedNodes(c.texts))
  }

  /** A cell's stripped, non-blank text nodes joined by single spaces. */
  function CellTextSpaced(c: Cell): (r: string)
    ensures r == "" <==> StrippedNodes(c.texts) == []
  {
    var parts := StrippedNodes(c.texts);
    JoinNonEmpty(" ", parts);
    Join(" ", parts)
  }

  lemma JoinNonEmpty(sep: string, parts: seq<string>)
    requires forall k :: 0 <= k < |parts| ==> parts[k] != ""
    ensures Join(sep, parts) == "" <==> parts == []
  {
    if |parts| > 1 {
      assert |Join(sep, parts)| >= |parts[0]|;
    }
  }

  function Concat(parts: seq<string>): (r: string)
    ensures (forall k :: 0 <= k < |parts| ==> parts[k] != "") ==> (r == "" <==> parts == [])
  {
    if parts == [] then "" else parts[0] + Concat(parts[1..])
  }

  /** The cells' texts, each as `get_text(strip=True)` gives it. */
  function CellTexts(cells: Row): (r: seq<string>)
    ensures |r| == |cells|
    ensures forall k :: 0 <= k < |cells| ==> r[k] == CellText(cells[k])
  {
    if cells == [] then [] else [CellText(cells[0])] + CellTexts(cells[1..])
  }

  /** The cells' texts with a space between nodes. */
  function CellTextsSpaced(cells: Row): (r: seq<string>)
    ensures |r| == |cells|
    ensures forall k :: 0 <= k < |cells| ==> r[k] == CellTextSpaced(cells[k])
  {
    if cells == [] then [] else [CellTextSpaced(cells[0])] + CellTextsSpaced(cells[1..])
  }

  /** A row's cell texts joined by single spaces. */
  function RowText(cells: Row): string {
    Join(" ", CellTexts(cells))
  }

  /** A category row: one cell, with a colspan. */
  predicate SpanningCell(cells: Row) {
    |cells| == 1 && cells[0].colspan
  }

  // ---------------------------------------------------------------------
  // Row helpers shared by the parsers.

  /** The cells' texts, lower-cased (`cell.get_text(strip=True).lower()`). */
  function LowerTexts(cells: Row): (r: seq<string>)
    ensures |r| == |cells|
    ensures forall k :: 0 <= k < |cells| ==> r[k] == LowerStr(CellText(cells[k]))
  {
    if cells == [] then [] else [LowerStr(CellText(cells[0]))] + LowerTexts(cells[1..])
  }

  /** How many of `words` occur in `text` (`sum(1 for kw in words if kw in text)`). */
  function KeywordCount(words: seq<string>, text: string): (n: nat)
    ensures n <= |words|
    ensures n == 0 <==> forall k :: 0 <= k < |words| ==> !Contains(text, words[k])
  {
    if words == [] then 0
    else (if Contains(text, words[0]) then 1 else 0) + KeywordCount(words[1..], text)
  }

  /** `any(kw in text for kw in words)`. */
  predicate AnyKeyword(words: seq<string>, text: string) {
    exists k :: 0 <= k < |words| && Contains(text, words[k])
  }

  /** `re.match(r'^[\s<signs>]+$', s)`: non-empty, whitespace and the given
      signs only. */
  predicate Junk(s: string, signs: string) {
    |s| > 0 && forall k :: 0 <= k < |s| ==> IsSpace(s[k]) || s[k] in signs
  }

  /** The position of the last text satisfying `p`, if any. */
  function LastWhere(texts: seq<string>, p: string -> bool): (r: Option<nat>)
    ensures r.Some? ==> r.value < |texts| && p(texts[r.value])
    ensures r.Some? ==> forall k :: r.value < k < |texts| ==> !p(texts[k])
    ensures r.None? <==> forall k :: 0 <= k < |texts| ==> !p(texts[k])
  {
    if texts == [] then None
    else if p(texts[|texts| - 1]) then Some(|texts| - 1)
    else LastWhere(texts[..|texts| - 1], p)
  }

  /** The position of the first text satisfying `p`, if any. */
  function FirstWhere(texts: seq<string>, p: string -> bool): (r: Option<nat>)
    ensures r.Some? ==> r.value < |texts| && p(texts[r.value])
    ensures r.Some? ==> forall k :: 0 <= k < r.value ==> !p(texts[k])
    ensures r.None? <==> forall k :: 0 <= k < |texts| ==> !p(texts[k])
  {
    if texts == [] then None
    else if p(texts[0]) then Some(0)
    else
      var r := FirstWhere(texts[1..], p);
      if r.None? then None else Some(r.value + 1)
  }

  /** A column index recorded from a header row, used while it fits the row. */
  predicate ColumnFits(col: Option<nat>, cells: Row) {
    col.Some? && col.value < |cells|
  }

  /** The titles of the category rows among `rows`: a single cell with a
      colspan whose text is longer than two characters. */
  function Titles(rows: seq<Row>): (ts: set<string>)
    ensures forall t :: t in ts ==> |t| > 2
  {
    if rows == [] then {}
    else
      var cells := rows[0];
      (if SpanningCell(cells) && |CellText(cells[0])| > 2 then {CellText(cells[0])} else {})
      + Titles(rows[1..])
  }

  /** The titles of every table of a page. */
  function PageTitles(page: Page): (ts: set<string>)
    ensures forall t :: t in ts ==> |t| > 2
  {
    if page == [] then {} else Titles(page[0]) + PageTitles(page[1..])
  }
}
