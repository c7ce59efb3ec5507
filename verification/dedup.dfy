/** The global deduplication of tvh-bouquet-fixed.py before the import: the
    bouquets are read in order, an entry whose comparison key is empty or
    already seen is dropped, the survivors are numbered 1, 2, 3, ... in that
    order, and then filed again under their categories. */
module Dedup {
  import opened Bouquets

  /** The comparison key used for deduplication (the fuzzy key there). */
  type KeyFn = string -> string

  function KeyOf(key: KeyFn, e: Entry): string {
    key(e.info.name)
  }

  /** The entries in dict order, each marked with its group's category
      (`ch2['category'] = cat`). */
  function Flatten(b: Bouquets): (r: seq<Entry>)
    ensures |r| == Total(b)
  {
    if b == [] then []
    else Tag(b[0].entries, b[0].category) + Flatten(b[1..])
  }

  function Tag(es: seq<Entry>, cat: string): (r: seq<Entry>)
    ensures |r| == |es|
    ensures forall k :: 0 <= k < |es| ==> r[k] == es[k].(category := cat)
  {
    if es == [] then [] else [es[0].(category := cat)] + Tag(es[1..], cat)
  }

  // ---------------------------------------------------------------------
  // Reference definition: keep exactly the first occurrence of each key.

  /** `flat[i]` has a key and no earlier entry has the same key. */
  predicate FirstOccurrence(key: KeyFn, flat: seq<Entry>, i: nat)
    requires i < |flat|
  {
    KeyOf(key, flat[i]) != "" && forall j :: 0 <= j < i ==> KeyOf(key, flat[j]) != KeyOf(key, flat[i])
  }

  /** The positions of the first occurrences among `flat[..n]`, ascending. */
  function FirstIndices(key: KeyFn, flat: seq<Entry>, n: nat): (r: seq<nat>)
    requires n <= |flat|
    ensures |r| <= n
    ensures forall k :: 0 <= k < |r| ==> r[k] < n && FirstOccurrence(key, flat, r[k])
    ensures forall i, j :: 0 <= i < j < |r| ==> r[i] < r[j]
  {
    if n == 0 then []
    else FirstIndices(key, flat, n - 1) + (if FirstOccurrence(key, flat, n - 1) then [n - 1] else [])
  }

  /** The entries at the given positions. */
  function Pick(flat: seq<Entry>, idx: seq<nat>): (r: seq<Entry>)
    requires forall k :: 0 <= k < |idx| ==> idx[k] < |flat|
    ensures |r| == |idx|
    ensures forall k :: 0 <= k < |idx| ==> r[k] == flat[idx[k]]
  {
    seq(|idx|, k requires 0 <= k < |idx| => flat[idx[k]])
  }

  /** The first occurrences among `flat[..n]`, in order. */
  function Survivors(key: KeyFn, flat: seq<Entry>, n: nat): (r: seq<Entry>)
    requires n <= |flat|
    ensures |r| <= n
  {
    Pick(flat, FirstIndices(key, flat, n))
  }

  /** The set of non-empty keys among `flat[..n]`. */
  function KeysUpTo(key: KeyFn, flat: seq<Entry>, n: nat): (s: set<string>)
    requires n <= |flat|
    ensures forall j :: 0 <= j < n && KeyOf(key, flat[j]) != "" ==> KeyOf(key, flat[j]) in s
  {
    if n == 0 then {}
    else
      var k := KeyOf(key, flat[n - 1]);
      KeysUpTo(key, flat, n - 1) + (if k != "" then {k} else {})
  }

  /** A position is a first occurrence exactly when its key is non-empty and
      not among the keys before it: the test the loop performs. */
  lemma FirstOccurrenceIffUnseen(key: KeyFn, flat: seq<Entry>, i: nat)
    requires i < |flat|
    ensures FirstOccurrence(key, flat, i) <==> KeyOf(key, flat[i]) != "" && KeyOf(key, flat[i]) !in KeysUpTo(key, flat, i)
  {
    var k := KeyOf(key, flat[i]);
    if k != "" && k in KeysUpTo(key, flat, i) {
      var j := KeysUpToWitness(key, flat, i, k);
    }
  }

  /** Every key in `KeysUpTo` comes from some position before `n`. */
  lemma {:induction false} KeysUpToWitness(key: KeyFn, flat: seq<Entry>, n: nat, k: string) returns (j: nat)
    requires n <= |flat| && k in KeysUpTo(key, flat, n)
    ensures j < n && KeyOf(key, flat[j]) == k
  {
    if KeyOf(key, flat[n - 1]) == k {
      j := n - 1;
    } else {
      j := KeysUpToWitness(key, flat, n - 1, k);
    }
  }

  /** The survivors carry keys, and no two share one. */
  lemma SurvivorsDistinct(key: KeyFn, flat: seq<Entry>, n: nat)
    requires n <= |flat|
    ensures var r := Survivors(key, flat, n);
            && (forall k :: 0 <= k < |r| ==> KeyOf(key, r[k]) != "")
            && (forall i, j :: 0 <= i < j < |r| ==> KeyOf(key, r[i]) != KeyOf(key, r[j]))
  {
    var idx := FirstIndices(key, flat, n);
    var r := Survivors(key, flat, n);
    forall i, j | 0 <= i < j < |r| ensures KeyOf(key, r[i]) != KeyOf(key, r[j]) {
      assert idx[i] < idx[j] && FirstOccurrence(key, flat, idx[j]);
    }
  }

  /** Every key of `flat[..n]` is carried by a survivor: the one at `k`. */
  lemma {:induction false} SurvivorsComplete(key: KeyFn, flat: seq<Entry>, n: nat, j: nat) returns (k: nat)
    requires j < n <= |flat|
    requires KeyOf(key, flat[j]) != ""
    ensures k < |Survivors(key, flat, n)| && KeyOf(key, Survivors(key, flat, n)[k]) == KeyOf(key, flat[j])
  {
    var prev := Survivors(key, flat, n - 1);
    SurvivorsGrow(key, flat, n);
    if j < n - 1 {
      k := SurvivorsComplete(key, flat, n - 1, j);
    } else if FirstOccurrence(key, flat, n - 1) {
      k := |prev|;
    } else {
      var i :| 0 <= i < n - 1 && KeyOf(key, flat[i]) == KeyOf(key, flat[j]);
      k := SurvivorsComplete(key, flat, n - 1, i);
    }
  }

  /** Looking one position further only ever adds that position. */
  lemma SurvivorsGrow(key: KeyFn, flat: seq<Entry>, n: nat)
    requires 0 < n <= |flat|
    ensures var r := Survivors(key, flat, n);
            var prev := Survivors(key, flat, n - 1);
            && |prev| <= |r|
            && (forall k :: 0 <= k < |prev| ==> r[k] == prev[k])
            && (FirstOccurrence(key, flat, n - 1) ==> |r| == |prev| + 1 && r[|prev|] == flat[n - 1])
  {
    var idx := FirstIndices(key, flat, n);
    var pidx := FirstIndices(key, flat, n - 1);
    if FirstOccurrence(key, flat, n - 1) {
      assert idx == pidx + [n - 1];
    } else {
      assert idx == pidx;
    }
  }

  // ---------------------------------------------------------------------
  // The loop as written.

  /** One pass over `flat` from position `i`, with the keys seen so far and
      the survivors so far, each numbered as it is kept. */
  function DedupFrom(key: KeyFn, flat: seq<Entry>, i: nat, seen: set<string>, kept: seq<Entry>): (r: seq<Entry>)
    requires i <= |flat|
    decreases |flat| - i
  {
    if i == |flat| then kept
    else
      var e := flat[i];
      var k := KeyOf(key, e);
      if k != "" && k !in seen then
        DedupFrom(key, flat, i + 1, seen + {k}, kept + [e.(number := |kept| + 1)])
      else
        DedupFrom(key, flat, i + 1, seen, kept)
  }

  /** tvh-bouquet-fixed.py: `unique_channels` with its global numbering. */
  function Deduplicate(key: KeyFn, b: Bouquets): (r: seq<Entry>)
    ensures r == NumberFrom(Survivors(key, Flatten(b), |Flatten(b)|), 1)
  {
    var flat := Flatten(b);
    DedupLoopIsReference(key, flat, 0, {}, []);
    DedupFrom(key, flat, 0, {}, [])
  }

  /** The loop keeps `seen` equal to the keys of the prefix and `kept` equal
      to the numbered survivors of the prefix; at the end it has computed
      the reference. */
  lemma {:induction false} DedupLoopIsReference(key: KeyFn, flat: seq<Entry>, i: nat, seen: set<string>, kept: seq<Entry>)
    requires i <= |flat|
    requires seen == KeysUpTo(key, flat, i)
    requires kept == NumberFrom(Survivors(key, flat, i), 1)
    ensures DedupFrom(key, flat, i, seen, kept) == NumberFrom(Survivors(key, flat, |flat|), 1)
    decreases |flat| - i
  {
    if i < |flat| {
      var seen', kept' := DedupStep(key, flat, i, seen, kept);
      DedupLoopIsReference(key, flat, i + 1, seen', kept');
    }
  }

  /** One iteration of the loop re-establishes its invariant one position on. */
  lemma DedupStep(key: KeyFn, flat: seq<Entry>, i: nat, seen: set<string>, kept: seq<Entry>)
      returns (seen': set<string>, kept': seq<Entry>)
    requires i < |flat|
    requires seen == KeysUpTo(key, flat, i)
    requires kept == NumberFrom(Survivors(key, flat, i), 1)
    ensures DedupFrom(key, flat, i, seen, kept) == DedupFrom(key, flat, i + 1, seen', kept')
    ensures seen' == KeysUpTo(key, flat, i + 1)
    ensures kept' == NumberFrom(Survivors(key, flat, i + 1), 1)
  {
    var k := KeyOf(key, flat[i]);
    FirstOccurrenceIffUnseen(key, flat, i);
    if k != "" && k !in seen {
      kept' := KeptStep(key, flat, i, kept);
      seen' := seen + {k};
    } else {
      SkipStep(key, flat, i);
      seen', kept' := seen, kept;
    }
  }

  /** A first occurrence is kept, numbered one past the entries kept so far. */
  lemma KeptStep(key: KeyFn, flat: seq<Entry>, i: nat, kept: seq<Entry>) returns (kept': seq<Entry>)
    requires i < |flat| && FirstOccurrence(key, flat, i)
    requires kept == NumberFrom(Survivors(key, flat, i), 1)
    ensures kept' == kept + [flat[i].(number := |kept| + 1)]
    ensures kept' == NumberFrom(Survivors(key, flat, i + 1), 1)
  {
    SurvivorsGrow(key, flat, i + 1);
    assert Survivors(key, flat, i + 1) == Survivors(key, flat, i) + [flat[i]];
    NumberFromAppend(Survivors(key, flat, i), flat[i], 1);
    kept' := kept + [flat[i].(number := |kept| + 1)];
  }

  /** Anything else leaves the survivors and the keys seen as they were. */
  lemma SkipStep(key: KeyFn, flat: seq<Entry>, i: nat)
    requires i < |flat| && !FirstOccurrence(key, flat, i)
    requires KeyOf(key, flat[i]) == "" || KeyOf(key, flat[i]) in KeysUpTo(key, flat, i)
    ensures Survivors(key, flat, i + 1) == Survivors(key, flat, i)
    ensures KeysUpTo(key, flat, i + 1) == KeysUpTo(key, flat, i)
  {
    assert FirstIndices(key, flat, i + 1) == FirstIndices(key, flat, i);
  }

  lemma NumberFromAppend(es: seq<Entry>, e: Entry, first: int)
    ensures NumberFrom(es + [e], first) == NumberFrom(es, first) + [e.(number := first + |es|)]
  {
  }

  /** The survivors in the order the import sees them: numbered 1..N
      consecutively, keys present and distinct, no more than the input, and
      every key of the input represented. */
  lemma DeduplicateSpec(key: KeyFn, b: Bouquets)
    ensures var r := Deduplicate(key, b);
            && |r| <= Total(b)
            && (forall k :: 0 <= k < |r| ==> r[k].number == k + 1)
            && (forall k :: 0 <= k < |r| ==> KeyOf(key, r[k]) != "")
            && (forall i, j :: 0 <= i < j < |r| ==> KeyOf(key, r[i]) != KeyOf(key, r[j]))
            && (forall j :: 0 <= j < |Flatten(b)| && KeyOf(key, Flatten(b)[j]) != "" ==>
                  exists k :: 0 <= k < |r| && KeyOf(key, r[k]) == KeyOf(key, Flatten(b)[j]))
  {
    var flat := Flatten(b);
    SurvivorsDistinct(key, flat, |flat|);
    var s := Survivors(key, flat, |flat|);
    var r := Deduplicate(key, b);
    forall j | 0 <= j < |flat| && KeyOf(key, flat[j]) != ""
      ensures exists k :: 0 <= k < |r| && KeyOf(key, r[k]) == KeyOf(key, flat[j])
    {
      var k := SurvivorsComplete(key, flat, |flat|, j);
      assert KeyOf(key, r[k]) == KeyOf(key, s[k]);
    }
    forall i, j | 0 <= i < j < |r| ensures KeyOf(key, r[i]) != KeyOf(key, r[j]) {
      assert KeyOf(key, r[i]) == KeyOf(key, s[i]);
      assert KeyOf(key, r[j]) == KeyOf(key, s[j]);
    }
  }

  // ---------------------------------------------------------------------
  // Regrouping.

  /** Regrouping: each survivor is filed under its category, categories in
      order of first appearance. */
  function Regroup(es: seq<Entry>): (r: Bouquets)
    ensures WellFormed(r)
    ensures Total(r) == |es|
  {
    FileAll([], es)
  }

  /** Regrouping puts every survivor in the group of its category, keeps
      their order within the group, and leaves no group empty. */
  lemma RegroupSpec(es: seq<Entry>, c: string)
    ensures EntriesOf(Regroup(es), c) == OfCategory(es, c)
    ensures forall i :: 0 <= i < |Regroup(es)| ==> Regroup(es)[i].entries != []
  {
    FileAllOrder([], es, c);
    FileAllNonEmpty([], es);
  }
}
