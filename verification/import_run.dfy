/** The decision logic of `ImportWorker.run` in each variant, as a fold over
    the bouquets with the explicit state `Catalog.Run`.

    Every variant walks the categories in order, resolves the category's
    tag, then walks its entries; each entry is processed exactly once and
    either skipped or matched to a service, which is then consumed and
    acted on. The variants differ only in how an entry picks its service:
    an exact key lookup (tvhlst.py, tvhlstfta.py) or a fuzzy best match
    (tvh_parser_fix.py, tvh-bouquet-fixed.py). */
module Import {
  import opened Patterns
  import opened Keys
  import opened Cleaners
  import opened ChannelInfo
  import opened Frequency
  import opened Bouquets
  import opened Dedup
  import opened Catalog
  import opened ServiceMaps
  import opened FuzzySearch

  /** How an entry picks its service, with the variant's map. */
  datatype Strategy =
    | ByPair(pairs: map<(string, nat), Service>, clean: CleanPolicy, useServiceNames: bool)
    | ByLetters(letters: map<string, Service>, clean: CleanPolicy, useServiceNames: bool)
    | ByGroups(groups: seq<(string, seq<Service>)>, ratio: Ratio, threshold: real)
    | BySingle(single: seq<(string, Service)>, test: SkipTest, ratio: Ratio, threshold: real)

  /** Every strategy except the fixed variant's skip test as written. */
  predicate Honest(st: Strategy) {
    !(st.BySingle? && st.test == SkipByKey)
  }

  /** The service an entry is matched to, or `None` when it is skipped:
      empty key, no hit, a hit on a consumed service, or a best score below
      the threshold. */
  function Decide(st: Strategy, consumed: set<string>, e: Entry): (r: Option<Service>)
    ensures st.ByPair? ==>
              var key := (LettersDigitsKey(e.info.name), FreqMhzFromStr(e.info.frequency));
              (r.Some? <==> key.0 != "" && key in st.pairs && st.pairs[key].uuid !in consumed)
              && (r.Some? ==> r.value == st.pairs[key])
    ensures st.ByLetters? ==>
              var key := LettersKey(e.info.name);
              (r.Some? <==> key != "" && key in st.letters && st.letters[key].uuid !in consumed)
              && (r.Some? ==> r.value == st.letters[key])
    ensures st.ByGroups? ==> r == Accept(SearchFix(st.groups, e.info.name, consumed, st.ratio), st.threshold)
    ensures st.BySingle? ==> r == Accept(SearchFixed(st.single, e.info.name, st.test, consumed, st.ratio), st.threshold)
  {
    match st
    case ByPair(pairs, _, _) =>
      var key := (LettersDigitsKey(e.info.name), FreqMhzFromStr(e.info.frequency));
      if key.0 == "" then None
      else if key in pairs && pairs[key].uuid !in consumed then Some(pairs[key])
      else None
    case ByLetters(letters, _, _) =>
      var key := LettersKey(e.info.name);
      if key == "" then None
      else if key in letters && letters[key].uuid !in consumed then Some(letters[key])
      else None
    case ByGroups(groups, ratio, threshold) =>
      Accept(SearchFix(groups, e.info.name, consumed, ratio), threshold)
    case BySingle(single, test, ratio, threshold) =>
      Accept(SearchFixed(single, e.info.name, test, consumed, ratio), threshold)
  }

  /** Except for the broken skip test, no entry is ever matched to a
      service already consumed. */
  lemma DecideUnconsumed(st: Strategy, consumed: set<string>, e: Entry)
    requires Honest(st)
    ensures Decide(st, consumed, e).Some? ==> Decide(st, consumed, e).value.uuid !in consumed
  {
    match st
    case ByPair(_, _, _) =>
    case ByLetters(_, _, _) =>
    case ByGroups(groups, ratio, threshold) =>
      SearchFixSpec(groups, e.info.name, consumed, ratio);
    case BySingle(single, test, ratio, threshold) =>
      SearchFixedSpec(single, e.info.name, test, consumed, ratio);
  }

  /** The name sent to the server: the exact variants clean the entry's
      name, or the service's name when asked to; the fuzzy ones send the
      entry's name as it is. */
  function FinalName(st: Strategy, e: Entry, s: Service): string {
    match st
    case ByPair(_, clean, useServiceNames) => Clean(clean, if useServiceNames then s.svcname else e.info.name)
    case ByLetters(_, clean, useServiceNames) => Clean(clean, if useServiceNames then s.svcname else e.info.name)
    case ByGroups(_, _, _) => e.info.name
    case BySingle(_, _, _, _) => e.info.name
  }

  /** One entry: `processed` always grows by one; at most one channel
      action is logged, carrying the entry's number. */
  function Step(st: Strategy, run: Run, tag: Option<string>, e: Entry): (r: Run)
    requires OwnersValid(run)
    ensures r.processed == run.processed + 1
    ensures r.owners == run.owners && |r.channels| == |run.channels| && OwnersValid(r)
    ensures Decide(st, run.consumed, e).None? ==> r == run.(processed := run.processed + 1)
    ensures Decide(st, run.consumed, e).Some? ==>
              var s := Decide(st, run.consumed, e).value;
              r == Apply(run, tag, s, FinalName(st, e, s), e.number).(processed := run.processed + 1)
              && |r.log| == |run.log| + 1 && r.log[|run.log|].service == s.uuid && r.log[|run.log|].number == e.number
  {
    match Decide(st, run.consumed, e)
    case None => run.(processed := run.processed + 1)
    case Some(s) => Apply(run, tag, s, FinalName(st, e, s), e.number).(processed := run.processed + 1)
  }

  /** Importing one category: its entries in order, each one a `Step`. */
  function ImportEntries(st: Strategy, run: Run, tag: Option<string>, es: seq<Entry>): (r: Run)
    requires OwnersValid(run)
    ensures r.processed == run.processed + |es|
    ensures r.owners == run.owners && |r.channels| == |run.channels| && OwnersValid(r)
    decreases |es|
  {
    if es == [] then run else ImportEntries(st, Step(st, run, tag, es[0]), tag, es[1..])
  }

  /** Importing every category in bouquet order: resolve its tag, then import
      its entries. */
  function ImportGroups(st: Strategy, run: Run, createTags: bool, newTag: TagOracle, b: Bouquets): (r: Run)
    requires OwnersValid(run)
    ensures r.processed == run.processed + Total(b)
    ensures r.owners == run.owners && |r.channels| == |run.channels| && OwnersValid(r)
    decreases |b|
  {
    if b == [] then run
    else
      var res := ResolveTag(run, b[0].category, createTags, newTag);
      ImportGroups(st, ImportEntries(st, res.run, res.tag, b[0].entries), createTags, newTag, b[1..])
  }

  lemma {:induction false} ImportEntriesKeeps(existing: map<string, Option<string>>, st: Strategy, run: Run, tag: Option<string>, es: seq<Entry>)
    requires Tally(existing, run)
    ensures Tally(existing, ImportEntries(st, run, tag, es))
    ensures Honest(st) && ServicesOnce(run) ==> ServicesOnce(ImportEntries(st, run, tag, es))
    decreases |es|
  {
    if es != [] {
      StepKeeps(existing, st, run, tag, es[0]);
      ImportEntriesKeeps(existing, st, Step(st, run, tag, es[0]), tag, es[1..]);
    }
  }

  lemma StepKeeps(existing: map<string, Option<string>>, st: Strategy, run: Run, tag: Option<string>, e: Entry)
    requires Tally(existing, run)
    ensures Tally(existing, Step(st, run, tag, e))
    ensures Honest(st) && ServicesOnce(run) ==> ServicesOnce(Step(st, run, tag, e))
  {
    var d := Decide(st, run.consumed, e);
    if d.Some? {
      ApplyKeeps(existing, run, tag, d.value, FinalName(st, e, d.value), e.number);
      if Honest(st) {
        DecideUnconsumed(st, run.consumed, e);
      }
    } else {
      MatchesUnchanged(run, Step(st, run, tag, e));
    }
  }

  lemma {:induction false} ImportGroupsKeeps(existing: map<string, Option<string>>, st: Strategy, run: Run, createTags: bool, newTag: TagOracle, b: Bouquets)
    requires Tally(existing, run)
    ensures Tally(existing, ImportGroups(st, run, createTags, newTag, b))
    ensures Honest(st) && ServicesOnce(run) ==> ServicesOnce(ImportGroups(st, run, createTags, newTag, b))
    decreases |b|
  {
    if b != [] {
      var res := ResolveTag(run, b[0].category, createTags, newTag);
      ResolveKeeps(existing, run, b[0].category, createTags, newTag);
      ImportEntriesKeeps(existing, st, res.run, res.tag, b[0].entries);
      ImportGroupsKeeps(existing, st, ImportEntries(st, res.run, res.tag, b[0].entries), createTags, newTag, b[1..]);
    }
  }

  /** A whole import from the catalogue snapshot. Every variant reports
      progress as `processed / total_channels` on entering a category, before
      its tag is resolved; with categories but no channel at all, the first
      report divides by zero and `run`'s `except` ends the import before any
      catalogue call. */
  function Reconcile(st: Strategy, tags: seq<TagRecord>, channels: seq<Channel>, createTags: bool, newTag: TagOracle, b: Bouquets): (r: Run)
    ensures b != [] && Total(b) == 0 ==> r.log == [] && r.tagIndex == 0 && r.processed == 0
  {
    if b != [] && Total(b) == 0 then Start(tags, channels)
    else ImportGroups(st, Start(tags, channels), createTags, newTag, b)
  }

  /** Every entry is processed once; `matched == created + updated <=
      processed`; each tag creation has the next index and names a category
      that had no tag; and, except for the broken skip test, no service is
      acted on twice and the consumed set is exactly the services acted on. */
  lemma RunSpec(st: Strategy, tags: seq<TagRecord>, channels: seq<Channel>, createTags: bool, newTag: TagOracle, b: Bouquets)
    ensures var r := Reconcile(st, tags, channels, createTags, newTag, b);
            r.processed == Total(b)
            && r.matched == r.created + r.updated <= r.processed
            && |MatchedServices(r.log)| == r.matched
            && TagsFresh(ExistingTags(tags), r)
    ensures Honest(st) ==>
              var r := Reconcile(st, tags, channels, createTags, newTag, b);
              Distinct(MatchedServices(r.log)) && (forall u :: u in r.consumed <==> u in MatchedServices(r.log))
  {
    StartConsistent(tags, channels);
    if !(b != [] && Total(b) == 0) {
      ImportGroupsKeeps(ExistingTags(tags), st, Start(tags, channels), createTags, newTag, b);
    }
  }

  // ---------------------------------------------------------------------
  // The four variants.

  /** tvhlst.py: first service per (key, multiplex MHz) pair. */
  function TvhlstStrategy(services: seq<Service>, muxes: map<string, int>, useServiceNames: bool): Strategy {
    ByPair(PairServiceMap(muxes, services), DropQuality(GenresTvhlst), useServiceNames)
  }

  /** tvhlstfta.py: first service per non-empty letters-only key. */
  function FtaStrategy(services: seq<Service>, useServiceNames: bool): Strategy {
    ByLetters(FirstWins(LettersServiceKey, services), DropQuality(GenresFta), useServiceNames)
  }

  /** tvh_parser_fix.py: every service per fuzzy key, in the order met. */
  function FixStrategy(services: seq<Service>, ratio: Ratio, threshold: real): Strategy {
    ByGroups(Grouped(FuzzyServiceKey, services), ratio, threshold)
  }

  /** tvh-bouquet-fixed.py: last service per fuzzy key; `test` selects the
      skip test as written (`SkipByKey`) or corrected (`SkipByUuid`). */
  function FixedStrategy(services: seq<Service>, test: SkipTest, ratio: Ratio, threshold: real): Strategy {
    BySingle(LastWins(FuzzyServiceKey, services), test, ratio, threshold)
  }

  /** tvh-bouquet-fixed.py imports the deduplicated, renumbered and
      regrouped bouquets. */
  function FixedInput(b: Bouquets): (r: Bouquets)
    ensures WellFormed(r)
  {
    Regroup(Deduplicate(FuzzyKey, b))
  }

  /** The fixed variant processes one entry per survivor of deduplication,
      never more than the parsed entries, and matches at most that many. */
  lemma FixedRunCounts(services: seq<Service>, test: SkipTest, ratio: Ratio, threshold: real,
                       tags: seq<TagRecord>, channels: seq<Channel>, createTags: bool, newTag: TagOracle, b: Bouquets)
    ensures var r := Reconcile(FixedStrategy(services, test, ratio, threshold), tags, channels, createTags, newTag, FixedInput(b));
            r.processed == |Deduplicate(FuzzyKey, b)| <= Total(b) && r.matched <= r.processed
  {
    DeduplicateSpec(FuzzyKey, b);
    RunSpec(FixedStrategy(services, test, ratio, threshold), tags, channels, createTags, newTag, FixedInput(b));
  }
}
