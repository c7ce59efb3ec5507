/** Bouquets: the parsers' result, a Python dict from category to the list
    of its entries. Dict order is insertion order, so it is an ordered list
    of groups with distinct categories. */
module Bouquets {
  import opened ChannelInfo

  /** A channel-list entry: the parsed fields, its category, its number. */
  datatype Entry = Entry(info: Info, category: string, number: int)

  datatype Group = Group(category: string, entries: seq<Entry>)

  type Bouquets = seq<Group>

  const NoCategory: string := "Bez kategorii"

  predicate DistinctCategories(b: Bouquets) {
    forall i, j :: 0 <= i < j < |b| ==> b[i].category != b[j].category
  }

  /** Every entry sits in the group of its own category. */
  predicate EntriesFiled(b: Bouquets) {
    forall i, k :: 0 <= i < |b| && 0 <= k < |b[i].entries| ==> b[i].entries[k].category == b[i].category
  }

  predicate WellFormed(b: Bouquets) {
    DistinctCategories(b) && EntriesFiled(b)
  }

  /** Position of the group of `cat`, or `|b|` when there is none. */
  function GroupIndex(b: Bouquets, cat: string): (i: nat)
    ensures i <= |b|
    ensures i < |b| ==> b[i].category == cat
    ensures forall j :: 0 <= j < i ==> b[j].category != cat
  {
    if b == [] then 0
    else if b[0].category == cat then 0
    else 1 + GroupIndex(b[1..], cat)
  }

  predicate HasCategory(b: Bouquets, cat: string) {
    GroupIndex(b, cat) < |b|
  }

  /** Opening a category: a missing category is added, empty, at the end;
      an existing one is left as it is. */
  function EnsureCategory(b: Bouquets, cat: string): (r: Bouquets)
    ensures HasCategory(r, cat)
    ensures HasCategory(b, cat) ==> r == b
    ensures !HasCategory(b, cat) ==> r == b + [Group(cat, [])]
    ensures DistinctCategories(b) ==> DistinctCategories(r)
    ensures EntriesFiled(b) ==> EntriesFiled(r)
    ensures Total(r) == Total(b)
  {
    if HasCategory(b, cat) then b
    else
      var r := b + [Group(cat, [])];
      assert GroupIndex(r, cat) == |b| by { GroupIndexAt(r, cat, |b|); }
      TotalAppendGroup(b, Group(cat, []));
      r
  }

  lemma GroupIndexAt(b: Bouquets, cat: string, i: nat)
    requires i < |b| && b[i].category == cat
    requires forall j :: 0 <= j < i ==> b[j].category != cat
    ensures GroupIndex(b, cat) == i
  {
  }

  /** `bouquets[cat].append(e)`, creating the category first when absent: the
      entry goes last in the group of `cat`, every other group is unchanged. */
  function AppendEntry(b: Bouquets, cat: string, e: Entry): (r: Bouquets)
    ensures HasCategory(b, cat) ==>
              var i := GroupIndex(b, cat);
              r == b[i := Group(cat, b[i].entries + [e])]
    ensures !HasCategory(b, cat) ==> r == b + [Group(cat, [e])]
    ensures Total(r) == Total(b) + 1
  {
    var b1 := EnsureCategory(b, cat);
    var i := GroupIndex(b1, cat);
    TotalUpdate(b1, i, Group(cat, b1[i].entries + [e]));
    var r := b1[i := Group(cat, b1[i].entries + [e])];
    assert !HasCategory(b, cat) ==> r == b + [Group(cat, [e])] by {
      if !HasCategory(b, cat) {
        assert b1 == b + [Group(cat, [])];
        GroupIndexAt(b1, cat, |b|);
        assert i == |b|;
        assert b1[i].entries == [];
        assert r == b + [Group(cat, [] + [e])];
        assert [] + [e] == [e];
      }
    }
    r
  }

  /** Appending keeps the categories distinct and every entry in its own
      category's group. */
  lemma AppendWellFormed(b: Bouquets, cat: string, e: Entry)
    requires WellFormed(b) && e.category == cat
    ensures WellFormed(AppendEntry(b, cat, e))
    ensures HasCategory(AppendEntry(b, cat, e), cat)
  {
    var r := AppendEntry(b, cat, e);
    if HasCategory(b, cat) {
      GroupIndexAt(r, cat, GroupIndex(b, cat));
    } else {
      GroupIndexAt(r, cat, |b|);
    }
  }

  function Total(b: Bouquets): (n: nat) {
    if b == [] then 0 else |b[0].entries| + Total(b[1..])
  }

  lemma {:induction false} TotalAppendGroup(b: Bouquets, g: Group)
    ensures Total(b + [g]) == Total(b) + |g.entries|
  {
    if b != [] {
      assert (b + [g])[1..] == b[1..] + [g];
      TotalAppendGroup(b[1..], g);
    }
  }

  lemma {:induction false} TotalUpdate(b: Bouquets, i: nat, g: Group)
    requires i < |b|
    ensures Total(b[i := g]) == Total(b) - |b[i].entries| + |g.entries|
  {
    if i > 0 {
      assert b[i := g][1..] == b[1..][i - 1 := g];
      TotalUpdate(b[1..], i - 1, g);
    }
  }

  // ---------------------------------------------------------------------
  // Numbering.

  /** The numbers of a list of entries. */
  function NumbersOf(es: seq<Entry>): (s: set<int>)
    ensures forall k :: 0 <= k < |es| ==> es[k].number in s
    ensures forall n :: n in s ==> exists k :: 0 <= k < |es| && es[k].number == n
  {
    if es == [] then {}
    else
      var rest := NumbersOf(es[1..]);
      assert forall n :: n in rest ==> exists k :: 0 <= k < |es| && es[k].number == n by {
        forall n | n in rest ensures exists k :: 0 <= k < |es| && es[k].number == n {
          var k :| 0 <= k < |es[1..]| && es[1..][k].number == n;
          assert es[k + 1].number == n;
        }
      }
      {es[0].number} + rest
  }

  /** Every number any entry of the bouquets carries. */
  function Numbers(b: Bouquets): set<int> {
    if b == [] then {} else NumbersOf(b[0].entries) + Numbers(b[1..])
  }

  /** `{1, ..., n}`. */
  function Interval(n: nat): (s: set<int>)
    ensures forall k :: k in s <==> 1 <= k <= n
  {
    if n == 0 then {} else Interval(n - 1) + {n}
  }

  /** Within each group the numbers strictly increase. */
  predicate IncreasingNumbers(b: Bouquets) {
    forall i, k, m :: 0 <= i < |b| && 0 <= k < m < |b[i].entries| ==>
      b[i].entries[k].number < b[i].entries[m].number
  }

  /** Global numbering: the numbers are exactly 1..N for N entries, so each
      number is used once. */
  predicate NumberedOneToN(b: Bouquets) {
    Numbers(b) == Interval(Total(b))
  }

  lemma {:induction false} NumbersAppendAt(b: Bouquets, i: nat, e: Entry)
    requires i < |b|
    ensures Numbers(b[i := Group(b[i].category, b[i].entries + [e])]) == Numbers(b) + {e.number}
  {
    var g := Group(b[i].category, b[i].entries + [e]);
    if i == 0 {
      assert b[i := g][1..] == b[1..];
      NumbersOfAppend(b[0].entries, e);
    } else {
      assert b[i := g][1..] == b[1..][i - 1 := g];
      NumbersAppendAt(b[1..], i - 1, e);
    }
  }

  lemma {:induction false} NumbersOfAppend(es: seq<Entry>, e: Entry)
    ensures NumbersOf(es + [e]) == NumbersOf(es) + {e.number}
  {
    if es != [] {
      assert (es + [e])[1..] == es[1..] + [e];
      NumbersOfAppend(es[1..], e);
    } else {
      assert [e][1..] == [];
    }
  }

  lemma {:induction false} NumbersAddGroup(b: Bouquets, g: Group)
    requires g.entries == []
    ensures Numbers(b + [g]) == Numbers(b)
  {
    if b != [] {
      assert (b + [g])[1..] == b[1..] + [g];
      NumbersAddGroup(b[1..], g);
    } else {
      assert [g][1..] == [];
    }
  }

  /** Appending the next number keeps the global numbering. */
  lemma AppendKeepsNumbering(b: Bouquets, cat: string, e: Entry)
    requires NumberedOneToN(b)
    requires e.number == Total(b) + 1
    ensures NumberedOneToN(AppendEntry(b, cat, e))
  {
    var r := AppendEntry(b, cat, e);
    if HasCategory(b, cat) {
      var i := GroupIndex(b, cat);
      NumbersAppendAt(b, i, e);
    } else {
      NumbersAddGroup(b, Group(cat, []));
      var b1 := b + [Group(cat, [])];
      assert r == b1[|b| := Group(cat, b1[|b|].entries + [e])];
      NumbersAppendAt(b1, |b|, e);
    }
  }

  /** ... and the numbers keep increasing within each group. */
  lemma AppendKeepsIncreasing(b: Bouquets, cat: string, e: Entry)
    requires IncreasingNumbers(b)
    requires forall n :: n in Numbers(b) ==> n < e.number
    ensures IncreasingNumbers(AppendEntry(b, cat, e))
  {
    var r := AppendEntry(b, cat, e);
    if HasCategory(b, cat) {
      var i := GroupIndex(b, cat);
      forall k | 0 <= k < |b[i].entries| ensures b[i].entries[k].number < e.number {
        NumbersMember(b, i, k);
      }
      assert r[i].entries == b[i].entries + [e];
    }
  }

  lemma NumbersMember(b: Bouquets, i: nat, k: nat)
    requires i < |b| && k < |b[i].entries|
    ensures b[i].entries[k].number in Numbers(b)
  {
    if i > 0 {
      NumbersMember(b[1..], i - 1, k);
    }
  }

  // ---------------------------------------------------------------------
  // Renumbering per category (tvhlst.py, after merging pages).

  /** Each entry's number replaced by its 1-based position. */
  function NumberFrom(es: seq<Entry>, first: int): (r: seq<Entry>)
    ensures |r| == |es|
    ensures forall k :: 0 <= k < |es| ==> r[k] == es[k].(number := first + k)
  {
    if es == [] then [] else [es[0].(number := first)] + NumberFrom(es[1..], first + 1)
  }

  /** Renumbering: each category's entries keep their order and are numbered
      1, 2, 3, ... again, as tvhlst.py does after merging pages. */
  function Renumber(b: Bouquets): (r: Bouquets)
    ensures |r| == |b|
    ensures forall i :: 0 <= i < |b| ==> r[i].category == b[i].category && |r[i].entries| == |b[i].entries|
    ensures forall i, k :: 0 <= i < |b| && 0 <= k < |b[i].entries| ==>
              r[i].entries[k] == b[i].entries[k].(number := k + 1)
  {
    if b == [] then [] else [Group(b[0].category, NumberFrom(b[0].entries, 1))] + Renumber(b[1..])
  }

  /** Merging pages: every page's entries appended, page by page, to the
      group of their category; then each group renumbered from 1. */
  function MergePages(pages: seq<seq<Entry>>): (r: Bouquets)
    ensures WellFormed(r)
    ensures forall i, k :: 0 <= i < |r| && 0 <= k < |r[i].entries| ==> r[i].entries[k].number == k + 1
    ensures Total(r) == TotalEntries(pages)
    ensures forall c :: EntriesOf(r, c) == NumberFrom(OfCategoryInPages(pages, c), 1)
    ensures forall i :: 0 <= i < |r| ==> r[i].entries != []
  {
    var merged := MergeFrom([], pages);
    var r := Renumber(merged);
    RenumberKeepsShape(merged);
    assert forall c :: EntriesOf(r, c) == NumberFrom(OfCategoryInPages(pages, c), 1) by {
      forall c ensures EntriesOf(r, c) == NumberFrom(OfCategoryInPages(pages, c), 1) {
        MergeRenumbered(pages, c);
      }
    }
    MergeRenumbered(pages, "");
    r
  }

  function TotalEntries(pages: seq<seq<Entry>>): nat {
    if pages == [] then 0 else |pages[0]| + TotalEntries(pages[1..])
  }

  function MergeFrom(b: Bouquets, pages: seq<seq<Entry>>): (r: Bouquets)
    requires WellFormed(b)
    ensures WellFormed(r)
    ensures Total(r) == Total(b) + TotalEntries(pages)
    decreases |pages|
  {
    if pages == [] then b else MergeFrom(FileAll(b, pages[0]), pages[1..])
  }

  /** One page: each entry filed under its own category. */
  function FileAll(b: Bouquets, es: seq<Entry>): (r: Bouquets)
    requires WellFormed(b)
    ensures WellFormed(r)
    ensures Total(r) == Total(b) + |es|
    decreases |es|
  {
    if es == [] then b
    else
      AppendWellFormed(b, es[0].category, es[0]);
      FileAll(AppendEntry(b, es[0].category, es[0]), es[1..])
  }

  lemma {:induction false} RenumberKeepsShape(b: Bouquets)
    requires WellFormed(b)
    ensures WellFormed(Renumber(b))
    ensures Total(Renumber(b)) == Total(b)
  {
    if b != [] {
      RenumberKeepsShape(b[1..]);
      assert Renumber(b)[1..] == Renumber(b[1..]);
    }
  }

  // ---------------------------------------------------------------------
  // The entries of one category.

  /** The entries of `cat` in `b`, or none. */
  function EntriesOf(b: Bouquets, cat: string): seq<Entry> {
    if HasCategory(b, cat) then b[GroupIndex(b, cat)].entries else []
  }

  /** Appending to `cat` extends the entries of `cat` by one and leaves
      every other category's entries alone. */
  lemma EntriesOfAppend(b: Bouquets, cat: string, e: Entry, c: string)
    requires DistinctCategories(b)
    ensures EntriesOf(AppendEntry(b, cat, e), c) == EntriesOf(b, c) + (if c == cat then [e] else [])
  {
    var r := AppendEntry(b, cat, e);
    if HasCategory(b, cat) {
      var i := GroupIndex(b, cat);
      if c == cat {
        GroupIndexAt(r, c, i);
      } else if HasCategory(b, c) {
        GroupIndexAt(r, c, GroupIndex(b, c));
      } else {
        assert GroupIndex(r, c) == |r|;
      }
    } else {
      if c == cat {
        GroupIndexAt(r, c, |b|);
      } else if HasCategory(b, c) {
        GroupIndexAt(r, c, GroupIndex(b, c));
      } else {
        assert GroupIndex(r, c) == |r|;
      }
    }
  }

  /** The entries of `es` with category `cat`, in order. */
  function OfCategory(es: seq<Entry>, cat: string): (r: seq<Entry>)
    ensures |r| <= |es|
  {
    if es == [] then []
    else (if es[0].category == cat then [es[0]] else []) + OfCategory(es[1..], cat)
  }

  /** Filing keeps each category's entries in their original order, after
      the ones already there, and never leaves a group empty. */
  lemma {:induction false} FileAllOrder(b: Bouquets, es: seq<Entry>, c: string)
    requires WellFormed(b)
    ensures EntriesOf(FileAll(b, es), c) == EntriesOf(b, c) + OfCategory(es, c)
    decreases |es|
  {
    if es == [] {
      assert OfCategory(es, c) == [];
    } else {
      var b1 := FileStep(b, es);
      var head := FiledEntriesStep(b, es, c);
      FileAllOrder(b1, es[1..], c);
      AppendAssoc(EntriesOf(b, c), head, OfCategory(es[1..], c));
    }
  }

  /** What one filing step adds to the entries of `c`, and to the entries of
      `c` among the input. */
  lemma FiledEntriesStep(b: Bouquets, es: seq<Entry>, c: string) returns (head: seq<Entry>)
    requires WellFormed(b) && es != []
    ensures EntriesOf(AppendEntry(b, es[0].category, es[0]), c) == EntriesOf(b, c) + head
    ensures OfCategory(es, c) == head + OfCategory(es[1..], c)
  {
    head := if es[0].category == c then [es[0]] else [];
    EntriesOfAppend(b, es[0].category, es[0], c);
  }

  lemma AppendAssoc(x: seq<Entry>, y: seq<Entry>, z: seq<Entry>)
    ensures (x + y) + z == x + (y + z)
  {
  }

  /** One filing step, named: the first entry appended, the rest still to go. */
  lemma FileStep(b: Bouquets, es: seq<Entry>) returns (b1: Bouquets)
    requires WellFormed(b) && es != []
    ensures b1 == AppendEntry(b, es[0].category, es[0]) && WellFormed(b1)
    ensures FileAll(b, es) == FileAll(b1, es[1..])
    ensures OfCategory(es, es[0].category) == [es[0]] + OfCategory(es[1..], es[0].category)
    ensures forall c :: c != es[0].category ==> OfCategory(es, c) == OfCategory(es[1..], c)
  {
    AppendWellFormed(b, es[0].category, es[0]);
    b1 := AppendEntry(b, es[0].category, es[0]);
  }

  lemma {:induction false} FileAllNonEmpty(b: Bouquets, es: seq<Entry>)
    requires WellFormed(b)
    requires forall i :: 0 <= i < |b| ==> b[i].entries != []
    ensures forall i :: 0 <= i < |FileAll(b, es)| ==> FileAll(b, es)[i].entries != []
    decreases |es|
  {
    if es != [] {
      var e := es[0];
      AppendWellFormed(b, e.category, e);
      FileAllNonEmpty(AppendEntry(b, e.category, e), es[1..]);
    }
  }

  // ---------------------------------------------------------------------
  // Merging pages (tvhlst.py).

  /** The entries of `cat` over the pages, page by page, each page in order. */
  function OfCategoryInPages(pages: seq<seq<Entry>>, cat: string): (r: seq<Entry>)
    ensures |r| <= TotalEntries(pages)
  {
    if pages == [] then [] else OfCategory(pages[0], cat) + OfCategoryInPages(pages[1..], cat)
  }

  /** Merging files each page after what is already there. */
  lemma {:induction false} MergeFromOrder(b: Bouquets, pages: seq<seq<Entry>>, c: string)
    requires WellFormed(b)
    ensures EntriesOf(MergeFrom(b, pages), c) == EntriesOf(b, c) + OfCategoryInPages(pages, c)
    decreases |pages|
  {
    if pages != [] {
      var b1 := FileAll(b, pages[0]);
      FileAllOrder(b, pages[0], c);
      MergeFromOrder(b1, pages[1..], c);
      AppendAssoc(EntriesOf(b, c), OfCategory(pages[0], c), OfCategoryInPages(pages[1..], c));
    }
  }

  lemma {:induction false} MergeFromNonEmpty(b: Bouquets, pages: seq<seq<Entry>>)
    requires WellFormed(b)
    requires forall i :: 0 <= i < |b| ==> b[i].entries != []
    ensures forall i :: 0 <= i < |MergeFrom(b, pages)| ==> MergeFrom(b, pages)[i].entries != []
    decreases |pages|
  {
    if pages != [] {
      FileAllNonEmpty(b, pages[0]);
      MergeFromNonEmpty(FileAll(b, pages[0]), pages[1..]);
    }
  }

  /** Renumbering keeps each category where it is and numbers its entries
      from 1. */
  lemma RenumberEntriesOf(b: Bouquets, c: string)
    ensures EntriesOf(Renumber(b), c) == NumberFrom(EntriesOf(b, c), 1)
  {
    var r := Renumber(b);
    if HasCategory(b, c) {
      GroupIndexAt(r, c, GroupIndex(b, c));
    } else {
      assert forall j :: 0 <= j < |r| ==> r[j].category != c;
      assert GroupIndex(r, c) == |r|;
    }
  }

  /** The merged and renumbered pages hold, for each category, exactly the
      entries of that category from every page, numbered from 1; no group
      is empty. */
  lemma MergeRenumbered(pages: seq<seq<Entry>>, c: string)
    ensures EntriesOf(Renumber(MergeFrom([], pages)), c) == NumberFrom(OfCategoryInPages(pages, c), 1)
    ensures forall i :: 0 <= i < |Renumber(MergeFrom([], pages))| ==> Renumber(MergeFrom([], pages))[i].entries != []
  {
    var merged := MergeFrom([], pages);
    MergeFromOrder([], pages, c);
    MergeFromNonEmpty([], pages);
    RenumberEntriesOf(merged, c);
    var r := Renumber(merged);
    assert forall i :: 0 <= i < |r| ==> |r[i].entries| == |merged[i].entries|;
  }

  // ---------------------------------------------------------------------
  // Global numbering (tvh_parser_fix.py, tvh-bouquet-fixed.py).

  /** The bouquets are numbered 1..N over all categories, increasing within
      each category, and `next` is the number the next channel gets. */
  predicate GloballyNumbered(b: Bouquets, next: int) {
    WellFormed(b) && NumberedOneToN(b) && IncreasingNumbers(b) && next == Total(b) + 1
  }

  /** Filing a channel under the next number keeps the numbering global. */
  lemma FileNext(b: Bouquets, next: int, e: Entry)
    requires GloballyNumbered(b, next)
    requires e.number == next
    ensures GloballyNumbered(AppendEntry(b, e.category, e), next + 1)
  {
    AppendWellFormed(b, e.category, e);
    AppendKeepsNumbering(b, e.category, e);
    AppendKeepsIncreasing(b, e.category, e);
  }

  /** Opening a category files nothing and keeps the numbering. */
  lemma EnsureKeepsNumbering(b: Bouquets, next: int, cat: string)
    requires GloballyNumbered(b, next)
    ensures GloballyNumbered(EnsureCategory(b, cat), next)
  {
    if !HasCategory(b, cat) {
      NumbersAddGroup(b, Group(cat, []));
    }
  }
}
