/** Concrete runs of the import that exhibit the fixed variant's skip test
    as written (tvh-bouquet-fixed.py, lines 367-368): it compares the
    service's fuzzy key against a set of uuids, so a service that has
    already been acted on is offered again and acted on a second time. */
module ImportExamples {
  import opened Patterns
  import opened Keys
  import opened ChannelInfo
  import opened Bouquets
  import opened Catalog
  import opened FuzzySearch
  import opened Import

  /** A similarity that rates every pair as identical. */
  function AlwaysSimilar(a: string, b: string): real {
    1.0
  }

  /** The fixed variant's strategy over a map holding one service under the
      key `norm`, with the skip test as written. */
  function OneServiceAsWritten(norm: string, s: Service): Strategy {
    BySingle([(norm, s)], SkipByKey, AlwaysSimilar, 0.05)
  }

  /** The one service is offered under every spelling, unless its key is
      in the consumed set. */
  lemma OneServiceCandidates(norm: string, s: Service, vs: seq<string>, consumed: set<string>)
    requires norm !in consumed
    ensures SingleCandidates([(norm, s)], vs, SkipByKey, consumed, AlwaysSimilar) == VariantCandidates(norm, s, vs, AlwaysSimilar)
  {
    assert [(norm, s)][1..] == [];
  }

  /** When every candidate names `s` with full marks, the first maximum is `s`. */
  lemma FullMarksPickThem(cs: seq<Candidate>, s: Service, b: Best)
    requires |cs| > 0 && forall j :: 0 <= j < |cs| ==> cs[j] == Candidate(1.0, s)
    requires FirstMaximum(cs, b)
    ensures b.found == Some(s) && b.score == 1.0
  {
    assert cs[0].score <= b.score;
  }

  /** The search over the one-service map finds `s` with full marks. */
  lemma OneServiceFound(norm: string, s: Service, consumed: set<string>, vs: seq<string>)
    requires norm !in consumed && |vs| > 0
    ensures SearchSingle([(norm, s)], vs, SkipByKey, consumed, AlwaysSimilar, NoMatch) == Best(1.0, Some(s))
  {
    var cs := SingleCandidates([(norm, s)], vs, SkipByKey, consumed, AlwaysSimilar);
    SearchSingleIsScan([(norm, s)], vs, SkipByKey, consumed, AlwaysSimilar, NoMatch);
    ScanFromNoMatch(cs);
    OneServiceCandidates(norm, s, vs, consumed);
    FullMarksPickThem(cs, s, Scan(NoMatch, cs));
  }

  /** With the skip test as written, the one service is chosen for any entry
      even when its uuid is consumed, as long as its key is not a uuid. */
  lemma AsWrittenIgnoresConsumed(norm: string, s: Service, consumed: set<string>, e: Entry)
    requires norm !in consumed
    ensures Decide(OneServiceAsWritten(norm, s), consumed, e) == Some(s)
  {
    OneServiceFound(norm, s, consumed, SearchVariants(FuzzyKey(e.info.name)));
  }

  /** A log of two channel actions on the same service lists it twice. */
  lemma TwoActionsOnOneService(log: seq<Action>, u: string)
    requires |log| == 2 && log == [log[0]] + [log[1]]
    requires !log[0].CreateTag? && !log[1].CreateTag? && log[0].service == u && log[1].service == u
    ensures MatchedServices(log) == [u, u] && !Distinct(MatchedServices(log))
  {
    LogAppend([], log[0]);
    LogAppend([log[0]], log[1]);
    var m := MatchedServices(log);
    assert m[0] == m[1];
  }

  /** Two entries run against the one-service map from an empty catalogue:
      the same service is acted on twice, so the matched services are not
      distinct, which the corrected test (`SkipByUuid`) rules out for every
      input by `Import.RunSpec`. */
  lemma AsWrittenActsTwice(norm: string, s: Service, e1: Entry, e2: Entry)
    requires norm != s.uuid
    ensures var r := ImportEntries(OneServiceAsWritten(norm, s), Start([], []), None, [e1, e2]);
            MatchedServices(r.log) == [s.uuid, s.uuid] && !Distinct(MatchedServices(r.log))
  {
    var st := OneServiceAsWritten(norm, s);
    var r0 := Start([], []);
    AsWrittenIgnoresConsumed(norm, s, r0.consumed, e1);
    var r1 := Step(st, r0, None, e1);
    assert r1.consumed == {s.uuid};
    AsWrittenIgnoresConsumed(norm, s, r1.consumed, e2);
    var r2 := Step(st, r1, None, e2);
    assert [e1, e2][1..] == [e2];
    assert ImportEntries(st, r0, None, [e1, e2]) == ImportEntries(st, r1, None, [e2]);
    assert ImportEntries(st, r1, None, [e2]) == r2;
    assert r1.log == [r1.log[0]];
    assert r2.log == r1.log + [r2.log[1]];
    TwoActionsOnOneService(r2.log, s.uuid);
  }

  /** A category with no channels, and no channel anywhere (tvhlstfta.py
      opens a category on a spanning title, tvh_parser_fix.py on a header
      row): without the progress division the first category would create
      its tag, but the division by zero ends the import with no call made. */
  lemma EmptyCategoryStops(st: Strategy, channels: seq<Channel>, newTag: TagOracle, cat: string)
    ensures ImportGroups(st, Start([], channels), true, newTag, [Group(cat, [])]).log == [CreateTag(cat, 0)]
    ensures Reconcile(st, [], channels, true, newTag, [Group(cat, [])]).log == []
  {
    var r0 := Start([], channels);
    var res := ResolveTag(r0, cat, true, newTag);
    assert cat !in r0.tagCache;
    assert res.run.log == [CreateTag(cat, 0)];
    assert ImportEntries(st, res.run, res.tag, []) == res.run;
    assert [Group(cat, [])][1..] == [];
    assert Total([Group(cat, [])]) == 0;
  }
}
