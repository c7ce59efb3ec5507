/** The service maps each variant builds before its import loop.

    tvhlst.py and tvhlstfta.py keep the FIRST service seen for a key;
    tvh-bouquet-fixed.py lets the LAST one overwrite it; tvh_parser_fix.py
    keeps them all, grouped per key in the order met. Services whose
    `svcname` is empty never enter any map. Python dicts keep insertion
    order, which the fuzzy variants iterate, so their maps are association
    lists; the exact variants only look keys up, so theirs are maps. */
module ServiceMaps {
  import opened Chars
  import opened Patterns
  import opened Keys
  import opened Frequency
  import opened Catalog

  /** The key a variant gives a service, `None` when it leaves it out. */
  type ServiceKey<K> = Service -> Option<K>

  // ---------------------------------------------------------------------
  // First wins.

  /** The first of the first `n` services whose key is `k`. */
  ghost function FirstKeyIndex<K>(key: ServiceKey<K>, svcs: seq<Service>, k: K, n: nat): (r: Option<nat>)
    requires n <= |svcs|
    ensures r.Some? ==> r.value < n && key(svcs[r.value]) == Some(k)
    ensures r.Some? ==> forall j :: 0 <= j < r.value ==> key(svcs[j]) != Some(k)
    ensures r.None? ==> forall j :: 0 <= j < n ==> key(svcs[j]) != Some(k)
  {
    if n == 0 then None
    else
      var earlier := FirstKeyIndex(key, svcs, k, n - 1);
      if earlier.Some? then earlier
      else if key(svcs[n - 1]) == Some(k) then Some(n - 1)
      else None
  }

  /** `m` maps each key met among the first `n` services to the first
      service carrying it, and holds no other key. */
  ghost predicate KeepsFirst<K(!new)>(key: ServiceKey<K>, svcs: seq<Service>, n: nat, m: map<K, Service>)
    requires n <= |svcs|
  {
    (forall k :: k in m <==> FirstKeyIndex(key, svcs, k, n).Some?)
    && (forall k :: k in m ==> m[k] == svcs[FirstKeyIndex(key, svcs, k, n).value])
  }

  /** The loop `if key not in services_map: services_map[key] = service`. */
  function FirstWinsFrom<K(==)>(key: ServiceKey<K>, svcs: seq<Service>, i: nat, m: map<K, Service>): map<K, Service>
    requires i <= |svcs|
    decreases |svcs| - i
  {
    if i == |svcs| then m
    else FirstWinsFrom(key, svcs, i + 1, KeepFirst(m, key(svcs[i]), svcs[i]))
  }

  function KeepFirst<K>(m: map<K, Service>, k: Option<K>, s: Service): (r: map<K, Service>)
  {
    if k.Some? && k.value !in m then m[k.value := s] else m
  }

  lemma {:induction false} FirstWinsFromSpec<K(!new)>(key: ServiceKey<K>, svcs: seq<Service>, i: nat, m: map<K, Service>)
    requires i <= |svcs|
    requires KeepsFirst(key, svcs, i, m)
    ensures KeepsFirst(key, svcs, |svcs|, FirstWinsFrom(key, svcs, i, m))
    decreases |svcs| - i
  {
    if i < |svcs| {
      var m1 := KeepFirst(m, key(svcs[i]), svcs[i]);
      forall k ensures k in m1 <==> FirstKeyIndex(key, svcs, k, i + 1).Some? {
        FirstStep(key, svcs, i, m, k);
      }
      forall k | k in m1 ensures m1[k] == svcs[FirstKeyIndex(key, svcs, k, i + 1).value] {
        FirstStep(key, svcs, i, m, k);
      }
      FirstWinsFromSpec(key, svcs, i + 1, m1);
    }
  }

  lemma FirstStep<K>(key: ServiceKey<K>, svcs: seq<Service>, i: nat, m: map<K, Service>, k: K)
    requires i < |svcs|
    requires k in m <==> FirstKeyIndex(key, svcs, k, i).Some?
    requires k in m ==> m[k] == svcs[FirstKeyIndex(key, svcs, k, i).value]
    ensures var m1 := KeepFirst(m, key(svcs[i]), svcs[i]);
      (k in m1 <==> FirstKeyIndex(key, svcs, k, i + 1).Some?)
      && (k in m1 ==> m1[k] == svcs[FirstKeyIndex(key, svcs, k, i + 1).value])
  {
    assert FirstKeyIndex(key, svcs, k, i).Some? ==> FirstKeyIndex(key, svcs, k, i + 1) == FirstKeyIndex(key, svcs, k, i);
  }

  /** A map that keeps the first service for every key. */
  function FirstWins<K(==,!new)>(key: ServiceKey<K>, svcs: seq<Service>): (r: map<K, Service>)
    ensures forall k :: k in r <==> FirstKeyIndex(key, svcs, k, |svcs|).Some?
    ensures forall k :: k in r ==> r[k] == svcs[FirstKeyIndex(key, svcs, k, |svcs|).value]
  {
    var empty: map<K, Service> := map[];
    forall k ensures k !in empty && FirstKeyIndex(key, svcs, k, 0).None? {
    }
    FirstWinsFromSpec(key, svcs, 0, empty);
    FirstWinsFrom(key, svcs, 0, empty)
  }

  /** The multiplex frequency in kHz, 0 when the multiplex is absent or
      unknown. */
  function MuxKhz(muxes: map<string, int>, mux: Option<string>): (khz: int)
    ensures mux.Some? && mux.value in muxes ==> khz == muxes[mux.value]
    ensures !(mux.Some? && mux.value in muxes) ==> khz == 0
  {
    if mux.Some? && mux.value in muxes then muxes[mux.value] else 0
  }

  /** tvhlst.py: the pair (mapping key, multiplex frequency in MHz); no
      check that the mapping key is non-empty. */
  function PairKey(muxes: map<string, int>, s: Service): (r: Option<(string, nat)>)
    ensures r.None? <==> s.svcname == ""
    ensures r.Some? ==> r.value == (LettersDigitsKey(s.svcname), MuxFreqMhz(MuxKhz(muxes, s.mux)))
  {
    if s.svcname == "" then None
    else Some((LettersDigitsKey(s.svcname), MuxFreqMhz(MuxKhz(muxes, s.mux))))
  }

  /** tvhlstfta.py: the letters-only key, left out when it is empty. */
  function LettersServiceKey(s: Service): (r: Option<string>)
    ensures r.None? <==> s.svcname == "" || LettersKey(s.svcname) == ""
    ensures r.Some? ==> r.value == LettersKey(s.svcname) && r.value != ""
  {
    if s.svcname == "" then None
    else
      var k := LettersKey(s.svcname);
      if k == "" then None else Some(k)
  }

  /** tvh_parser_fix.py / tvh-bouquet-fixed.py: the fuzzy key, which may be empty. */
  function FuzzyServiceKey(s: Service): (r: Option<string>)
    ensures r.None? <==> s.svcname == ""
    ensures r.Some? ==> r.value == FuzzyKey(s.svcname)
  {
    if s.svcname == "" then None else Some(FuzzyKey(s.svcname))
  }

  function PairServiceMap(muxes: map<string, int>, svcs: seq<Service>): (r: map<(string, nat), Service>)
    ensures forall k :: k in r <==> FirstKeyIndex(s => PairKey(muxes, s), svcs, k, |svcs|).Some?
  {
    FirstWins(s => PairKey(muxes, s), svcs)
  }

  // ---------------------------------------------------------------------
  // Ordered association lists.

  predicate DistinctKeys<V>(a: seq<(string, V)>) {
    forall i, j :: 0 <= i < j < |a| ==> a[i].0 != a[j].0
  }

  /** `d.get(k)` on an association list. */
  function Lookup<V>(a: seq<(string, V)>, k: string): (r: Option<V>)
    ensures r.None? <==> forall i :: 0 <= i < |a| ==> a[i].0 != k
  {
    if a == [] then None
    else if a[0].0 == k then Some(a[0].1)
    else Lookup(a[1..], k)
  }

  /** With distinct keys, every pair is what a lookup of its key returns. */
  lemma {:induction false} LookupAt<V>(a: seq<(string, V)>, i: nat)
    requires DistinctKeys(a) && i < |a|
    ensures Lookup(a, a[i].0) == Some(a[i].1)
  {
    if i > 0 {
      assert a[0].0 != a[i].0;
      assert a[1..][i - 1] == a[i];
      LookupAt(a[1..], i - 1);
    }
  }

  /** `d[k] = v`: an existing key keeps its place, a new one goes last. */
  function Put<V>(a: seq<(string, V)>, k: string, v: V): (r: seq<(string, V)>)
    ensures Lookup(a, k).None? ==> r == a + [(k, v)]
    ensures Lookup(a, k).Some? ==> |r| == |a| && forall i :: 0 <= i < |a| ==> r[i] == (if a[i].0 == k then (k, v) else a[i])
  {
    if Lookup(a, k).None? then a + [(k, v)]
    else seq(|a|, i requires 0 <= i < |a| => if a[i].0 == k then (k, v) else a[i])
  }

  /** Putting a pair changes the lookup of its key only, and keeps the keys distinct. */
  lemma PutLookup<V>(a: seq<(string, V)>, k: string, v: V, k': string)
    requires DistinctKeys(a)
    ensures DistinctKeys(Put(a, k, v))
    ensures Lookup(Put(a, k, v), k') == if k' == k then Some(v) else Lookup(a, k')
  {
    var r := Put(a, k, v);
    assert forall i :: 0 <= i < |a| ==> r[i].0 == a[i].0;
    if k' == k {
      if Lookup(a, k).None? {
        LookupAt(r, |a|);
      } else {
        var i :| 0 <= i < |a| && a[i].0 == k;
        LookupAt(r, i);
      }
    } else if Lookup(a, k').Some? {
      var i :| 0 <= i < |a| && a[i].0 == k';
      LookupAt(a, i);
      LookupAt(r, i);
    }
  }

  // ---------------------------------------------------------------------
  // Last wins (tvh-bouquet-fixed.py).

  /** The last of the first `n` services whose key is `k`. */
  function LastKeyIndex(key: ServiceKey<string>, svcs: seq<Service>, k: string, n: nat): (r: Option<nat>)
    requires n <= |svcs|
    ensures r.Some? ==> r.value < n && key(svcs[r.value]) == Some(k)
    ensures r.Some? ==> forall j :: r.value < j < n ==> key(svcs[j]) != Some(k)
    ensures r.None? ==> forall j :: 0 <= j < n ==> key(svcs[j]) != Some(k)
  {
    if n == 0 then None
    else if key(svcs[n - 1]) == Some(k) then Some(n - 1)
    else LastKeyIndex(key, svcs, k, n - 1)
  }

  /** The service a last-wins map over the first `n` services holds for `k`. */
  function LastFor(key: ServiceKey<string>, svcs: seq<Service>, k: string, n: nat): Option<Service>
    requires n <= |svcs|
  {
    var j := LastKeyIndex(key, svcs, k, n);
    if j.Some? then Some(svcs[j.value]) else None
  }

  ghost predicate KeepsLast(key: ServiceKey<string>, svcs: seq<Service>, n: nat, a: seq<(string, Service)>)
    requires n <= |svcs|
  {
    DistinctKeys(a) && forall k :: Lookup(a, k) == LastFor(key, svcs, k, n)
  }

  /** One service into the last-wins map. */
  function KeepLast(a: seq<(string, Service)>, k: Option<string>, s: Service): seq<(string, Service)> {
    if k.Some? then Put(a, k.value, s) else a
  }

  /** The loop `services_map[norm] = s` over the services from `i` on. */
  function LastWinsFrom(key: ServiceKey<string>, svcs: seq<Service>, i: nat, a: seq<(string, Service)>): (r: seq<(string, Service)>)
    requires i <= |svcs|
    decreases |svcs| - i
  {
    if i == |svcs| then a
    else LastWinsFrom(key, svcs, i + 1, KeepLast(a, key(svcs[i]), svcs[i]))
  }

  lemma {:induction false} LastWinsFromSpec(key: ServiceKey<string>, svcs: seq<Service>, i: nat, a: seq<(string, Service)>)
    requires i <= |svcs|
    requires KeepsLast(key, svcs, i, a)
    ensures KeepsLast(key, svcs, |svcs|, LastWinsFrom(key, svcs, i, a))
    decreases |svcs| - i
  {
    if i < |svcs| {
      var a1 := KeepLast(a, key(svcs[i]), svcs[i]);
      forall k ensures Lookup(a1, k) == LastFor(key, svcs, k, i + 1) {
        LastStep(key, svcs, i, a, k);
      }
      LastStep(key, svcs, i, a, "");
      LastWinsFromSpec(key, svcs, i + 1, a1);
    }
  }

  lemma LastStep(key: ServiceKey<string>, svcs: seq<Service>, i: nat, a: seq<(string, Service)>, k: string)
    requires i < |svcs|
    requires DistinctKeys(a) && Lookup(a, k) == LastFor(key, svcs, k, i)
    ensures DistinctKeys(KeepLast(a, key(svcs[i]), svcs[i]))
    ensures Lookup(KeepLast(a, key(svcs[i]), svcs[i]), k) == LastFor(key, svcs, k, i + 1)
  {
    var c := key(svcs[i]);
    if c.Some? {
      PutLookup(a, c.value, svcs[i], k);
    }
  }

  /** The fixed variant's map: every key met, with the LAST service carrying it. */
  function LastWins(key: ServiceKey<string>, svcs: seq<Service>): (r: seq<(string, Service)>)
    ensures DistinctKeys(r)
    ensures forall k :: Lookup(r, k).None? <==> LastKeyIndex(key, svcs, k, |svcs|).None?
    ensures forall k :: Lookup(r, k).Some? ==> Lookup(r, k).value == svcs[LastKeyIndex(key, svcs, k, |svcs|).value]
  {
    LastWinsFromSpec(key, svcs, 0, []);
    var r := LastWinsFrom(key, svcs, 0, []);
    assert forall k :: Lookup(r, k) == LastFor(key, svcs, k, |svcs|);
    r
  }

  // ---------------------------------------------------------------------
  // Grouped (tvh_parser_fix.py).

  /** The first `n` services whose key is `k`, in order. */
  function WithKey(key: ServiceKey<string>, svcs: seq<Service>, k: string, n: nat): (r: seq<Service>)
    requires n <= |svcs|
    ensures |r| <= n
    ensures forall s :: s in r ==> key(s) == Some(k)
  {
    if n == 0 then []
    else WithKey(key, svcs, k, n - 1) + (if key(svcs[n - 1]) == Some(k) then [svcs[n - 1]] else [])
  }

  function GroupFor(key: ServiceKey<string>, svcs: seq<Service>, k: string, n: nat): Option<seq<Service>>
    requires n <= |svcs|
  {
    var w := WithKey(key, svcs, k, n);
    if w == [] then None else Some(w)
  }

  ghost predicate KeepsGroups(key: ServiceKey<string>, svcs: seq<Service>, n: nat, a: seq<(string, seq<Service>)>)
    requires n <= |svcs|
  {
    DistinctKeys(a) && forall k :: Lookup(a, k) == GroupFor(key, svcs, k, n)
  }

  /** One service into the grouped map: `if key not in services_map:
      services_map[key] = []` then `services_map[key].append(service)`. */
  function AddToGroup(a: seq<(string, seq<Service>)>, k: string, s: Service): seq<(string, seq<Service>)> {
    var known := Lookup(a, k);
    Put(a, k, (if known.Some? then known.value else []) + [s])
  }

  function GroupFrom(key: ServiceKey<string>, svcs: seq<Service>, i: nat, a: seq<(string, seq<Service>)>): (r: seq<(string, seq<Service>)>)
    requires i <= |svcs|
    decreases |svcs| - i
  {
    if i == |svcs| then a
    else GroupFrom(key, svcs, i + 1, GroupStep(a, key(svcs[i]), svcs[i]))
  }

  function GroupStep(a: seq<(string, seq<Service>)>, k: Option<string>, s: Service): seq<(string, seq<Service>)> {
    if k.Some? then AddToGroup(a, k.value, s) else a
  }

  lemma {:induction false} GroupFromSpec(key: ServiceKey<string>, svcs: seq<Service>, i: nat, a: seq<(string, seq<Service>)>)
    requires i <= |svcs|
    requires KeepsGroups(key, svcs, i, a)
    ensures KeepsGroups(key, svcs, |svcs|, GroupFrom(key, svcs, i, a))
    decreases |svcs| - i
  {
    if i < |svcs| {
      var a1 := GroupStep(a, key(svcs[i]), svcs[i]);
      forall k ensures Lookup(a1, k) == GroupFor(key, svcs, k, i + 1) {
        GroupOne(key, svcs, i, a, k);
      }
      GroupOne(key, svcs, i, a, "");
      GroupFromSpec(key, svcs, i + 1, a1);
    }
  }

  lemma GroupOne(key: ServiceKey<string>, svcs: seq<Service>, i: nat, a: seq<(string, seq<Service>)>, k: string)
    requires i < |svcs|
    requires DistinctKeys(a) && Lookup(a, k) == GroupFor(key, svcs, k, i)
    requires forall k' :: Lookup(a, k') == GroupFor(key, svcs, k', i)
    ensures DistinctKeys(GroupStep(a, key(svcs[i]), svcs[i]))
    ensures Lookup(GroupStep(a, key(svcs[i]), svcs[i]), k) == GroupFor(key, svcs, k, i + 1)
  {
    var c := key(svcs[i]);
    if c.Some? {
      var known := Lookup(a, c.value);
      assert known == GroupFor(key, svcs, c.value, i);
      var list := (if known.Some? then known.value else []) + [svcs[i]];
      PutLookup(a, c.value, list, k);
      var w := WithKey(key, svcs, k, i);
      if c.value == k {
        assert list == w + [svcs[i]];
        assert WithKey(key, svcs, k, i + 1) == w + [svcs[i]];
      } else {
        assert WithKey(key, svcs, k, i + 1) == w + [];
        assert w + [] == w;
      }
    } else {
      var w := WithKey(key, svcs, k, i);
      assert WithKey(key, svcs, k, i + 1) == w + [];
      assert w + [] == w;
    }
  }

  /** The grouped map: each key met, with every service carrying it in
      the order met; no key has an empty list. */
  function Grouped(key: ServiceKey<string>, svcs: seq<Service>): (r: seq<(string, seq<Service>)>)
    ensures DistinctKeys(r)
    ensures forall k :: Lookup(r, k).None? <==> WithKey(key, svcs, k, |svcs|) == []
    ensures forall k :: Lookup(r, k).Some? ==> Lookup(r, k).value == WithKey(key, svcs, k, |svcs|)
  {
    GroupFromSpec(key, svcs, 0, []);
    var r := GroupFrom(key, svcs, 0, []);
    assert forall k :: Lookup(r, k) == GroupFor(key, svcs, k, |svcs|);
    r
  }
}
