/** The fuzzy best-match search of tvh_parser_fix.py and tvh-bouquet-fixed.py.

    `SequenceMatcher.ratio` is not modelled: it is a parameter `ratio`, any
    function from two strings to a real. Both searches walk the service map
    in its order and, for each key, the four spellings of the wanted name;
    a candidate replaces the best one only when its score is STRICTLY
    greater, so of several equal maxima the first one met wins. The search
    is therefore a left fold of `Improve` over the candidates in scan order,
    and that fold is proved to pick the first maximum. */
module FuzzySearch {
  import opened Chars
  import opened Patterns
  import opened Keys
  import opened Catalog

  type Ratio = (string, string) -> real

  /** `BouquetParser.similarity(a, b)`: 0.0 when either fuzzy key is empty,
      otherwise the ratio of the two keys. */
  function Similarity(ratio: Ratio, a: string, b: string): (r: real)
    ensures FuzzyKey(a) == "" || FuzzyKey(b) == "" ==> r == 0.0
    ensures FuzzyKey(a) != "" && FuzzyKey(b) != "" ==> r == ratio(FuzzyKey(a), FuzzyKey(b))
  {
    var na := FuzzyKey(a);
    var nb := FuzzyKey(b);
    if na == "" || nb == "" then 0.0 else ratio(na, nb)
  }

  /** Similarity ignores case, whatever the ratio. */
  lemma SimilarityIgnoresCase(ratio: Ratio, a: string, b: string)
    ensures Similarity(ratio, LowerStr(a), LowerStr(b)) == Similarity(ratio, a, b)
    ensures Similarity(ratio, "", b) == 0.0
  {
    FuzzyKeyCaseInsensitive(a);
    FuzzyKeyCaseInsensitive(b);
  }

  /** The four spellings tried for a wanted key: as is, without spaces,
      with `+` spelt " plus", and with `+` dropped. */
  function SearchVariants(key: string): (r: seq<string>)
    ensures |r| == 4 && r[0] == key
    ensures ' ' !in r[1] && '+' !in r[2] && '+' !in r[3]
    ensures ' ' !in key ==> r[1] == key
    ensures '+' !in key ==> r[2] == key && r[3] == key
  {
    [key, ReplaceChar(key, ' ', ""), ReplaceChar(key, '+', " plus"), ReplaceChar(key, '+', "")]
  }

  // ---------------------------------------------------------------------
  // The fold over candidates.

  datatype Candidate = Candidate(score: real, service: Service)

  datatype Best = Best(score: real, found: Option<Service>)

  /** The state before any candidate is scored: nothing found, score 0. */
  const NoMatch: Best := Best(0.0, None)

  /** One scan step: a candidate becomes the best only when it scores strictly
      higher, so ties keep the earlier candidate. */
  function Improve(b: Best, c: Candidate): (r: Best)
    ensures r.score >= b.score
    ensures r == b || (r.score == c.score > b.score && r.found == Some(c.service))
  {
    if c.score > b.score then Best(c.score, Some(c.service)) else b
  }

  function Scan(b: Best, cs: seq<Candidate>): Best
    decreases |cs|
  {
    if cs == [] then b else Scan(Improve(b, cs[0]), cs[1..])
  }

  lemma {:induction false} ScanAppend(b: Best, xs: seq<Candidate>, ys: seq<Candidate>)
    ensures Scan(b, xs + ys) == Scan(Scan(b, xs), ys)
    decreases |xs|
  {
    if xs != [] {
      assert (xs + ys)[1..] == xs[1..] + ys;
      ScanAppend(Improve(b, xs[0]), xs[1..], ys);
    } else {
      assert xs + ys == ys;
    }
  }

  /** The fold ends at a score no candidate beats; it leaves the start
      alone unless some candidate beats it, and otherwise holds the FIRST
      candidate reaching the final score. */
  lemma {:induction false} ScanFirstMaximum(b: Best, cs: seq<Candidate>)
    ensures Scan(b, cs).score >= b.score
    ensures forall j :: 0 <= j < |cs| ==> cs[j].score <= Scan(b, cs).score
    ensures Scan(b, cs).score == b.score ==> Scan(b, cs) == b
    ensures Scan(b, cs).score > b.score ==>
              exists i :: 0 <= i < |cs| && cs[i].score == Scan(b, cs).score
                && Scan(b, cs).found == Some(cs[i].service)
                && forall j :: 0 <= j < i ==> cs[j].score < Scan(b, cs).score
    decreases |cs|
  {
    if cs != [] {
      var b1 := Improve(b, cs[0]);
      var r := Scan(b1, cs[1..]);
      ScanFirstMaximum(b1, cs[1..]);
      assert r == Scan(b, cs);
      forall j | 0 <= j < |cs| ensures cs[j].score <= r.score {
        if j > 0 {
          assert cs[j] == cs[1..][j - 1];
        }
      }
      if r.score > b.score {
        if r.score == b1.score {
          assert cs[0].score == r.score && r.found == Some(cs[0].service);
        } else {
          var i :| 0 <= i < |cs[1..]| && cs[1..][i].score == r.score && r.found == Some(cs[1..][i].service)
                   && forall j :: 0 <= j < i ==> cs[1..][j].score < r.score;
          assert cs[i + 1] == cs[1..][i];
          forall j | 0 <= j < i + 1 ensures cs[j].score < r.score {
            if j > 0 {
              assert cs[j] == cs[1..][j - 1];
            }
          }
        }
      }
    }
  }

  /** The result of a search from `NoMatch`: the first maximum of the
      candidates when some candidate scores above 0, and no match otherwise. */
  ghost predicate FirstMaximum(cs: seq<Candidate>, r: Best) {
    (forall j :: 0 <= j < |cs| ==> cs[j].score <= r.score)
    && (r.found.None? <==> r.score == 0.0)
    && (r.found.Some? ==>
          exists i :: 0 <= i < |cs| && cs[i].score == r.score && r.found.value == cs[i].service
            && forall j :: 0 <= j < i ==> cs[j].score < r.score)
  }

  lemma ScanFromNoMatch(cs: seq<Candidate>)
    ensures FirstMaximum(cs, Scan(NoMatch, cs))
    ensures Scan(NoMatch, cs).found.Some? ==> exists i :: 0 <= i < |cs| && Scan(NoMatch, cs).found.value == cs[i].service
  {
    ScanFirstMaximum(NoMatch, cs);
  }

  /** The candidates for one key and one service: a score per spelling. */
  function VariantCandidates(norm: string, s: Service, vs: seq<string>, ratio: Ratio): (r: seq<Candidate>)
    ensures |r| == |vs|
    ensures forall j :: 0 <= j < |vs| ==> r[j] == Candidate(ratio(vs[j], norm), s)
  {
    if vs == [] then [] else [Candidate(ratio(vs[0], norm), s)] + VariantCandidates(norm, s, vs[1..], ratio)
  }

  // ---------------------------------------------------------------------
  // tvh_parser_fix.py: one list of services per key.

  /** The first service of a key's list not consumed yet. */
  function FirstFresh(list: seq<Service>, consumed: set<string>): (r: Option<nat>)
    ensures r.None? <==> forall j :: 0 <= j < |list| ==> list[j].uuid in consumed
    ensures r.Some? ==> r.value < |list| && list[r.value].uuid !in consumed
    ensures r.Some? ==> forall j :: 0 <= j < r.value ==> list[j].uuid in consumed
  {
    if list == [] then None
    else if list[0].uuid !in consumed then Some(0)
    else
      var rest := FirstFresh(list[1..], consumed);
      if rest.Some? then Some(rest.value + 1) else None
  }

  /** The inner loop over the spellings for one key, as written: on a
      strictly better score, the first unconsumed service of the key's list
      becomes the best match; when there is none, nothing changes. */
  function TryVariants(norm: string, list: seq<Service>, vs: seq<string>, consumed: set<string>, ratio: Ratio, b: Best): Best
    decreases |vs|
  {
    if vs == [] then b
    else
      var score := ratio(vs[0], norm);
      var avail := FirstFresh(list, consumed);
      var b1 := if score > b.score && avail.Some? then Best(score, Some(list[avail.value])) else b;
      TryVariants(norm, list, vs[1..], consumed, ratio, b1)
  }

  /** The outer loop over `services_map.items()`. */
  function SearchGrouped(groups: seq<(string, seq<Service>)>, vs: seq<string>, consumed: set<string>, ratio: Ratio, b: Best): Best
    decreases |groups|
  {
    if groups == [] then b
    else SearchGrouped(groups[1..], vs, consumed, ratio, TryVariants(groups[0].0, groups[0].1, vs, consumed, ratio, b))
  }

  /** The candidates of the grouped search in scan order: for each key that
      still has an unconsumed service, that service under each spelling. */
  function GroupedCandidates(groups: seq<(string, seq<Service>)>, vs: seq<string>, consumed: set<string>, ratio: Ratio): (r: seq<Candidate>)
    ensures forall j :: 0 <= j < |r| ==> r[j].service.uuid !in consumed
    decreases |groups|
  {
    if groups == [] then []
    else
      var avail := FirstFresh(groups[0].1, consumed);
      (if avail.Some? then VariantCandidates(groups[0].0, groups[0].1[avail.value], vs, ratio) else [])
      + GroupedCandidates(groups[1..], vs, consumed, ratio)
  }

  lemma {:induction false} TryVariantsIsScan(norm: string, list: seq<Service>, vs: seq<string>, consumed: set<string>, ratio: Ratio, b: Best)
    ensures var avail := FirstFresh(list, consumed);
            TryVariants(norm, list, vs, consumed, ratio, b)
              == if avail.Some? then Scan(b, VariantCandidates(norm, list[avail.value], vs, ratio)) else b
    decreases |vs|
  {
    if vs != [] {
      var avail := FirstFresh(list, consumed);
      var score := ratio(vs[0], norm);
      var b1 := if score > b.score && avail.Some? then Best(score, Some(list[avail.value])) else b;
      TryVariantsIsScan(norm, list, vs[1..], consumed, ratio, b1);
      if avail.Some? {
        var cs := VariantCandidates(norm, list[avail.value], vs, ratio);
        assert cs[1..] == VariantCandidates(norm, list[avail.value], vs[1..], ratio);
        assert b1 == Improve(b, cs[0]);
      }
    }
  }

  lemma {:induction false} SearchGroupedIsScan(groups: seq<(string, seq<Service>)>, vs: seq<string>, consumed: set<string>, ratio: Ratio, b: Best)
    ensures SearchGrouped(groups, vs, consumed, ratio, b) == Scan(b, GroupedCandidates(groups, vs, consumed, ratio))
    decreases |groups|
  {
    if groups != [] {
      var avail := FirstFresh(groups[0].1, consumed);
      var head := if avail.Some? then VariantCandidates(groups[0].0, groups[0].1[avail.value], vs, ratio) else [];
      var tail := GroupedCandidates(groups[1..], vs, consumed, ratio);
      TryVariantsIsScan(groups[0].0, groups[0].1, vs, consumed, ratio, b);
      assert Scan(b, head) == TryVariants(groups[0].0, groups[0].1, vs, consumed, ratio, b);
      ScanAppend(b, head, tail);
      SearchGroupedIsScan(groups[1..], vs, consumed, ratio, Scan(b, head));
    }
  }

  /** The search for one wanted name over the grouped map. */
  function SearchFix(groups: seq<(string, seq<Service>)>, name: string, consumed: set<string>, ratio: Ratio): Best {
    SearchGrouped(groups, SearchVariants(FuzzyKey(name)), consumed, ratio, NoMatch)
  }

  /** The grouped search returns the first maximum of its candidates, and
      the service it returns has not been consumed. */
  lemma SearchFixSpec(groups: seq<(string, seq<Service>)>, name: string, consumed: set<string>, ratio: Ratio)
    ensures var cs := GroupedCandidates(groups, SearchVariants(FuzzyKey(name)), consumed, ratio);
            FirstMaximum(cs, SearchFix(groups, name, consumed, ratio))
    ensures SearchFix(groups, name, consumed, ratio).found.Some? ==>
              SearchFix(groups, name, consumed, ratio).found.value.uuid !in consumed
  {
    var vs := SearchVariants(FuzzyKey(name));
    var cs := GroupedCandidates(groups, vs, consumed, ratio);
    SearchGroupedIsScan(groups, vs, consumed, ratio, NoMatch);
    ScanFromNoMatch(cs);
  }

  // ---------------------------------------------------------------------
  // tvh-bouquet-fixed.py: one service per key.

  /** Which services the search passes over. As written, a key is compared
      against the set of consumed uuids; the corrected test compares the
      service's uuid. */
  datatype SkipTest = SkipByKey | SkipByUuid

  predicate Skipped(test: SkipTest, consumed: set<string>, norm: string, s: Service) {
    match test
    case SkipByKey => norm in consumed
    case SkipByUuid => s.uuid in consumed
  }

  /** The loop `for svc_norm, service in services_map.items()`, with the
      inner loop over the spellings, which is `Scan` over that key's candidates. */
  function SearchSingle(services: seq<(string, Service)>, vs: seq<string>, test: SkipTest, consumed: set<string>, ratio: Ratio, b: Best): Best
    decreases |services|
  {
    if services == [] then b
    else
      var norm := services[0].0;
      var s := services[0].1;
      var b1 := if Skipped(test, consumed, norm, s) then b else Scan(b, VariantCandidates(norm, s, vs, ratio));
      SearchSingle(services[1..], vs, test, consumed, ratio, b1)
  }

  function SingleCandidates(services: seq<(string, Service)>, vs: seq<string>, test: SkipTest, consumed: set<string>, ratio: Ratio): (r: seq<Candidate>)
    ensures test == SkipByUuid ==> forall j :: 0 <= j < |r| ==> r[j].service.uuid !in consumed
    decreases |services|
  {
    if services == [] then []
    else
      var norm := services[0].0;
      var s := services[0].1;
      (if Skipped(test, consumed, norm, s) then [] else VariantCandidates(norm, s, vs, ratio))
      + SingleCandidates(services[1..], vs, test, consumed, ratio)
  }

  lemma {:induction false} SearchSingleIsScan(services: seq<(string, Service)>, vs: seq<string>, test: SkipTest, consumed: set<string>, ratio: Ratio, b: Best)
    ensures SearchSingle(services, vs, test, consumed, ratio, b) == Scan(b, SingleCandidates(services, vs, test, consumed, ratio))
    decreases |services|
  {
    if services != [] {
      var norm := services[0].0;
      var s := services[0].1;
      var head := if Skipped(test, consumed, norm, s) then [] else VariantCandidates(norm, s, vs, ratio);
      var tail := SingleCandidates(services[1..], vs, test, consumed, ratio);
      ScanAppend(b, head, tail);
      SearchSingleIsScan(services[1..], vs, test, consumed, ratio, Scan(b, head));
    }
  }

  function SearchFixed(services: seq<(string, Service)>, name: string, test: SkipTest, consumed: set<string>, ratio: Ratio): Best {
    SearchSingle(services, SearchVariants(FuzzyKey(name)), test, consumed, ratio, NoMatch)
  }

  /** The single-service search returns the first maximum of its
      candidates; with the corrected skip test its service is unconsumed. */
  lemma SearchFixedSpec(services: seq<(string, Service)>, name: string, test: SkipTest, consumed: set<string>, ratio: Ratio)
    ensures var cs := SingleCandidates(services, SearchVariants(FuzzyKey(name)), test, consumed, ratio);
            FirstMaximum(cs, SearchFixed(services, name, test, consumed, ratio))
    ensures test == SkipByUuid && SearchFixed(services, name, test, consumed, ratio).found.Some? ==>
              SearchFixed(services, name, test, consumed, ratio).found.value.uuid !in consumed
  {
    var vs := SearchVariants(FuzzyKey(name));
    var cs := SingleCandidates(services, vs, test, consumed, ratio);
    SearchSingleIsScan(services, vs, test, consumed, ratio, NoMatch);
    ScanFromNoMatch(cs);
  }

  /** The threshold test: the best service is used only when one was found
      and its score reaches the threshold. */
  function Accept(b: Best, threshold: real): (r: Option<Service>)
    ensures r.Some? <==> b.found.Some? && b.score >= threshold
    ensures r.Some? ==> r == b.found
  {
    if b.found.Some? && b.score >= threshold then b.found else None
  }
}
