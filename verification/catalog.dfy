/** The catalogue side of `ImportWorker.run`, shared by all four variants.

    The TVHeadend calls become data: the services, the existing channels
    and the existing tags are inputs, and every call that would change the
    server (`create_tag`, `create_channel_from_service`, `update_channel`)
    becomes an `Action` appended to a log. The reply of `create_tag` is an
    oracle parameter, since only the server knows the uuid it hands out. */
module Catalog {
  import opened Patterns

  /** One service of the catalogue: `uuid`, `svcname`, `multiplex_uuid`. */
  datatype Service = Service(uuid: string, svcname: string, mux: Option<string>)

  /** An existing channel; `tags` is `None` when the record has no `tags` key. */
  datatype Channel = Channel(uuid: string, services: seq<string>, tags: Option<seq<string>>)

  datatype TagRecord = TagRecord(name: string, uuid: string)

  datatype Action =
    | CreateTag(name: string, index: nat)
    | CreateChannel(service: string, name: string, tags: seq<string>, number: int)
    | UpdateChannel(service: string, channel: string, tags: seq<string>, number: int, name: string)

  /** The reply of `create_tag(name, comment, index)`: `result.get('uuid')`. */
  type TagOracle = (string, nat) -> Option<string>

  /** Python truthiness of a tag uuid: neither `None` nor the empty string. */
  predicate Truthy(tag: Option<string>) {
    tag.Some? && tag.value != ""
  }

  predicate Distinct(s: seq<string>) {
    forall i, j :: 0 <= i < j < |s| ==> s[i] != s[j]
  }

  // ---------------------------------------------------------------------
  // Lookup tables built before the loop.

  /** `{tag['name']: tag['uuid'] for tag in get_tags()}`: a later record
      with the same name overwrites an earlier one. */
  function ExistingTags(rs: seq<TagRecord>): (r: map<string, Option<string>>)
    ensures forall n :: n in r <==> exists i :: 0 <= i < |rs| && rs[i].name == n
    decreases |rs|
  {
    if rs == [] then map[]
    else
      var last := rs[|rs| - 1];
      var front := rs[..|rs| - 1];
      var m := ExistingTags(front);
      assert forall i :: 0 <= i < |front| ==> front[i] == rs[i];
      m[last.name := Some(last.uuid)]
  }

  /** The record that no later record renames supplies the uuid. */
  lemma {:induction false} ExistingTagsLast(rs: seq<TagRecord>, i: nat)
    requires i < |rs| && forall j :: i < j < |rs| ==> rs[j].name != rs[i].name
    ensures rs[i].name in ExistingTags(rs) && ExistingTags(rs)[rs[i].name] == Some(rs[i].uuid)
    decreases |rs|
  {
    if i < |rs| - 1 {
      var front := rs[..|rs| - 1];
      assert front[i] == rs[i];
      ExistingTagsLast(front, i);
    }
  }

  /** Recording one channel as the owner of each service it lists, over any
      earlier owner. */
  function AddOwner(m: map<string, nat>, services: seq<string>, owner: nat): (r: map<string, nat>)
    ensures forall u :: u in r <==> u in m || u in services
    ensures forall u :: u in services ==> r[u] == owner
    ensures forall u :: u in m && u !in services ==> r[u] == m[u]
    decreases |services|
  {
    if services == [] then m else AddOwner(m[services[0] := owner], services[1..], owner)
  }

  /** The position of the last of the first `n` channels that lists `u`. */
  function LastOwner(chs: seq<Channel>, u: string, n: nat): (r: Option<nat>)
    requires n <= |chs|
    ensures r.Some? ==> r.value < n && u in chs[r.value].services
    ensures r.Some? ==> forall j :: r.value < j < n ==> u !in chs[j].services
    ensures r.None? ==> forall j :: 0 <= j < n ==> u !in chs[j].services
  {
    if n == 0 then None
    else if u in chs[n - 1].services then Some(n - 1)
    else LastOwner(chs, u, n - 1)
  }

  /** `channels_by_service` over the first `n` channels: each service points
      at the position of the LAST channel that lists it. */
  function Owners(chs: seq<Channel>, n: nat): (r: map<string, nat>)
    requires n <= |chs|
    ensures forall u :: u in r <==> LastOwner(chs, u, n).Some?
    ensures forall u :: u in r ==> r[u] == LastOwner(chs, u, n).value
  {
    if n == 0 then map[] else AddOwner(Owners(chs, n - 1), chs[n - 1].services, n - 1)
  }

  // ---------------------------------------------------------------------
  // Tags of one channel.

  /** Adding the category's tag to an existing channel: a present, non-empty
      tag is appended unless the channel already has it. */
  function MergeTag(tags: seq<string>, tag: Option<string>): (r: seq<string>)
    ensures !Truthy(tag) ==> r == tags
    ensures Truthy(tag) ==> tag.value in r
    ensures tags <= r && |r| <= |tags| + 1
    ensures forall x :: x in r ==> x in tags || tag == Some(x)
  {
    if Truthy(tag) && tag.value !in tags then tags + [tag.value] else tags
  }

  /** Merging the same tag twice is merging it once, and a list without
      repeats stays without repeats. */
  lemma MergeTagIdempotent(tags: seq<string>, tag: Option<string>)
    ensures MergeTag(MergeTag(tags, tag), tag) == MergeTag(tags, tag)
    ensures Distinct(tags) ==> Distinct(MergeTag(tags, tag))
  {
    var r := MergeTag(tags, tag);
    if Distinct(tags) && r != tags {
      forall i, j | 0 <= i < j < |r| ensures r[i] != r[j] {
        if j == |tags| {
          assert r[i] == tags[i];
        }
      }
    }
  }

  /** The tags a new channel is created with: `[tag_uuid] if tag_uuid else []`. */
  function NewChannelTags(tag: Option<string>): (r: seq<string>)
    ensures Truthy(tag) ==> r == [tag.value]
    ensures !Truthy(tag) ==> r == []
  {
    if Truthy(tag) then [tag.value] else []
  }

  // ---------------------------------------------------------------------
  // The state carried through the import loop.

  datatype Run = Run(
    tagCache: map<string, Option<string>>,
    tagIndex: nat,
    consumed: set<string>,
    channels: seq<Channel>,
    owners: map<string, nat>,
    processed: nat,
    matched: nat,
    created: nat,
    updated: nat,
    log: seq<Action>)

  /** The state before the first category. */
  function Start(tags: seq<TagRecord>, channels: seq<Channel>): (r: Run)
    ensures r.tagCache == ExistingTags(tags) && r.tagIndex == 0 && r.consumed == {}
    ensures r.processed == r.matched == r.created == r.updated == 0 && r.log == []
    ensures forall u :: u in r.owners <==> LastOwner(channels, u, |channels|).Some?
  {
    Run(ExistingTags(tags), 0, {}, channels, Owners(channels, |channels|), 0, 0, 0, 0, [])
  }

  datatype Resolved = Resolved(run: Run, tag: Option<string>)

  /** The tag of a category: none when tags are not wanted, the cached uuid
      when the name is known, otherwise a new tag whose index is the number
      of tags created so far. */
  function ResolveTag(run: Run, category: string, createTags: bool, newTag: TagOracle): (r: Resolved)
    ensures !createTags ==> r == Resolved(run, None)
    ensures createTags && category in run.tagCache ==> r == Resolved(run, run.tagCache[category])
    ensures createTags && category !in run.tagCache ==>
              r.tag == newTag(category, run.tagIndex)
              && r.run == run.(tagCache := run.tagCache[category := r.tag],
                               tagIndex := run.tagIndex + 1,
                               log := run.log + [CreateTag(category, run.tagIndex)])
  {
    if !createTags then Resolved(run, None)
    else if category in run.tagCache then Resolved(run, run.tagCache[category])
    else
      var tag := newTag(category, run.tagIndex);
      Resolved(run.(tagCache := run.tagCache[category := tag],
                    tagIndex := run.tagIndex + 1,
                    log := run.log + [CreateTag(category, run.tagIndex)]), tag)
  }

  /** The matched branch: the service is consumed, then its channel is
      updated when one exists and created otherwise. An update persists the
      merged tags only when the channel record has a `tags` list, because
      only then does `append` act on the shared list. */
  function Apply(run: Run, tag: Option<string>, s: Service, name: string, number: int): (r: Run)
    requires OwnersValid(run)
    ensures r.consumed == run.consumed + {s.uuid}
    ensures r.matched == run.matched + 1 && r.processed == run.processed
    ensures r.tagCache == run.tagCache && r.tagIndex == run.tagIndex && r.owners == run.owners
    ensures |r.channels| == |run.channels|
    ensures s.uuid in run.owners ==>
              var ch := run.channels[run.owners[s.uuid]];
              var tags := MergeTag(if ch.tags.Some? then ch.tags.value else [], tag);
              r.updated == run.updated + 1 && r.created == run.created
              && r.log == run.log + [UpdateChannel(s.uuid, ch.uuid, tags, number, name)]
              && (ch.tags.Some? ==> r.channels[run.owners[s.uuid]].tags == Some(tags))
    ensures s.uuid !in run.owners ==>
              r.created == run.created + 1 && r.updated == run.updated && r.channels == run.channels
              && r.log == run.log + [CreateChannel(s.uuid, name, NewChannelTags(tag), number)]
  {
    var run1 := run.(consumed := run.consumed + {s.uuid}, matched := run.matched + 1);
    if s.uuid in run.owners then
      var i := run.owners[s.uuid];
      var ch := run.channels[i];
      var tags := MergeTag(if ch.tags.Some? then ch.tags.value else [], tag);
      var channels := if ch.tags.Some? then run.channels[i := ch.(tags := Some(tags))] else run.channels;
      run1.(channels := channels, updated := run.updated + 1,
            log := run.log + [UpdateChannel(s.uuid, ch.uuid, tags, number, name)])
    else
      run1.(created := run.created + 1,
            log := run.log + [CreateChannel(s.uuid, name, NewChannelTags(tag), number)])
  }

  // ---------------------------------------------------------------------
  // What the log says.

  /** The services of the channel actions, in order. */
  function MatchedServices(log: seq<Action>): (r: seq<string>)
    ensures |r| <= |log|
    decreases |log|
  {
    if log == [] then []
    else
      var a := log[|log| - 1];
      MatchedServices(log[..|log| - 1]) + (if a.CreateTag? then [] else [a.service])
  }

  /** The tag creations, in order. */
  function TagCreations(log: seq<Action>): (r: seq<Action>)
    ensures |r| <= |log|
    ensures forall k :: 0 <= k < |r| ==> r[k].CreateTag?
    decreases |log|
  {
    if log == [] then []
    else
      var a := log[|log| - 1];
      TagCreations(log[..|log| - 1]) + (if a.CreateTag? then [a] else [])
  }

  lemma LogAppend(log: seq<Action>, a: Action)
    ensures MatchedServices(log + [a]) == MatchedServices(log) + (if a.CreateTag? then [] else [a.service])
    ensures TagCreations(log + [a]) == TagCreations(log) + (if a.CreateTag? then [a] else [])
  {
    assert (log + [a])[..|log|] == log;
  }

  // ---------------------------------------------------------------------
  // The invariant of the import loop.

  predicate OwnersValid(run: Run) {
    forall u :: u in run.owners ==> run.owners[u] < |run.channels|
  }

  /** `matched == created + updated <= processed`, and the matched count is
      the number of channel actions. */
  predicate Counters(run: Run) {
    run.matched == run.created + run.updated
    && run.matched <= run.processed
    && |MatchedServices(run.log)| == run.matched
  }

  /** No service is acted on twice, and the consumed set is exactly the set
      of services acted on. */
  ghost predicate ServicesOnce(run: Run) {
    Distinct(MatchedServices(run.log))
    && forall u :: u in run.consumed <==> u in MatchedServices(run.log)
  }

  /** The k-th tag creation carries index k, `tag_index` counts them, and
      each names a category that was neither an existing tag nor created
      before. */
  predicate TagsFresh(existing: map<string, Option<string>>, run: Run) {
    var tc := TagCreations(run.log);
    |tc| == run.tagIndex
    && (forall n :: n in existing ==> n in run.tagCache)
    && (forall k :: 0 <= k < |tc| ==> tc[k].index == k && tc[k].name !in existing && tc[k].name in run.tagCache)
    && (forall k, m :: 0 <= k < m < |tc| ==> tc[k].name != tc[m].name)
  }

  /** The part of the invariant every variant keeps, the broken one included. */
  ghost predicate Tally(existing: map<string, Option<string>>, run: Run) {
    OwnersValid(run) && Counters(run) && TagsFresh(existing, run)
  }

  ghost predicate Consistent(existing: map<string, Option<string>>, run: Run) {
    Tally(existing, run) && ServicesOnce(run)
  }

  lemma StartConsistent(tags: seq<TagRecord>, channels: seq<Channel>)
    ensures Consistent(ExistingTags(tags), Start(tags, channels))
  {
  }

  /** Resolving a category's tag keeps the invariant. */
  lemma ResolveKeeps(existing: map<string, Option<string>>, run: Run, category: string, createTags: bool, newTag: TagOracle)
    requires Tally(existing, run)
    ensures Tally(existing, ResolveTag(run, category, createTags, newTag).run)
    ensures ServicesOnce(run) ==> ServicesOnce(ResolveTag(run, category, createTags, newTag).run)
  {
    if createTags && category !in run.tagCache {
      var r := ResolveTag(run, category, createTags, newTag).run;
      LogAppend(run.log, CreateTag(category, run.tagIndex));
      TagStep(existing, run, r, CreateTag(category, run.tagIndex));
      MatchesUnchanged(run, r);
    }
  }

  /** A tag creation for a name not yet cached keeps the tag part. */
  lemma TagStep(existing: map<string, Option<string>>, run: Run, r: Run, a: Action)
    requires TagsFresh(existing, run)
    requires a.CreateTag? && a.name !in run.tagCache && a.index == run.tagIndex
    requires r.tagIndex == run.tagIndex + 1 && r.tagCache.Keys == run.tagCache.Keys + {a.name}
    requires TagCreations(r.log) == TagCreations(run.log) + [a]
    ensures TagsFresh(existing, r)
  {
  }

  /** A step that leaves the services acted on alone keeps that part. */
  lemma MatchesUnchanged(run: Run, r: Run)
    requires OwnersValid(run) && Counters(run)
    requires MatchedServices(r.log) == MatchedServices(run.log)
    requires r.consumed == run.consumed && r.owners == run.owners && |r.channels| == |run.channels|
    requires r.matched == run.matched && r.created == run.created && r.updated == run.updated
    requires r.processed >= run.processed
    ensures OwnersValid(r) && Counters(r)
    ensures ServicesOnce(run) ==> ServicesOnce(r)
  {
  }

  /** Acting on a service keeps the counts; acting on one not yet consumed
      also keeps every service acted on at most once. */
  lemma ApplyKeeps(existing: map<string, Option<string>>, run: Run, tag: Option<string>, s: Service, name: string, number: int)
    requires Tally(existing, run)
    ensures Tally(existing, Apply(run, tag, s, name, number).(processed := run.processed + 1))
    ensures ServicesOnce(run) && s.uuid !in run.consumed ==>
              ServicesOnce(Apply(run, tag, s, name, number).(processed := run.processed + 1))
  {
    var r := Apply(run, tag, s, name, number).(processed := run.processed + 1);
    var a := r.log[|r.log| - 1];
    assert r.log == run.log + [a];
    LogAppend(run.log, a);
    MatchStep(run, r, s.uuid);
    assert TagsFresh(existing, r) by {
      assert TagCreations(r.log) == TagCreations(run.log);
    }
  }

  /** One more service acted on. */
  lemma MatchStep(run: Run, r: Run, u: string)
    requires OwnersValid(run) && Counters(run)
    requires MatchedServices(r.log) == MatchedServices(run.log) + [u]
    requires r.consumed == run.consumed + {u} && r.owners == run.owners && |r.channels| == |run.channels|
    requires r.matched == run.matched + 1 && r.created + r.updated == run.created + run.updated + 1
    requires r.processed == run.processed + 1
    ensures OwnersValid(r) && Counters(r)
    ensures ServicesOnce(run) && u !in run.consumed ==> ServicesOnce(r)
  {
    var ms := MatchedServices(run.log);
    if ServicesOnce(run) && u !in run.consumed {
      assert u !in ms;
    }
  }
}
