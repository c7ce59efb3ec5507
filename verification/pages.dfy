/** Sub-page discovery of tvhlst.py `parse_satkurier`: the links of the
    first page that continue the same list. A link counts when its href
    asks for a `page=`, or when it stays on the same site and its path,
    without `.html`, is the list's root followed by `-<digits>`. The root is
    the base path without its extension and without a trailing
    `-<digits>`. URL joining and parsing are done by the caller: each link
    arrives with its joined URL and that URL's path. */
module Pages {
  import opened Chars
  import opened Patterns

  datatype Link = Link(href: string, full: string, path: string)

  /** The position of the last `c` in `s`, if any. */
  function LastIndexOf(s: string, c: char): (r: Option<nat>)
    ensures r.Some? ==> r.value < |s| && s[r.value] == c && forall k :: r.value < k < |s| ==> s[k] != c
    ensures r.None? ==> forall k :: 0 <= k < |s| ==> s[k] != c
  {
    if s == [] then None
    else if s[|s| - 1] == c then Some(|s| - 1)
    else LastIndexOf(s[..|s| - 1], c)
  }

  /** `path.rsplit('.', 1)[0]` when there is a dot, the path otherwise. */
  function StripExtension(path: string): (r: string)
    ensures StartsWith(path, r)
    ensures (forall k :: 0 <= k < |path| ==> path[k] != '.') ==> r == path
    ensures r != path ==> |r| < |path| && path[|r|] == '.' && forall k :: |r| < k < |path| ==> path[k] != '.'
  {
    match LastIndexOf(path, '.')
    case None => path
    case Some(i) => path[..i]
  }

  /** A dash followed by one or more digits and nothing else
      (`re.match(r'-\d+$', s)`). */
  predicate DashNumber(s: string) {
    |s| >= 2 && s[0] == '-' && forall k :: 1 <= k < |s| ==> IsDigit(s[k])
  }

  /** Length of the run of digits that ends the string. */
  function TrailingDigits(s: string): (n: nat)
    ensures n <= |s|
    ensures forall k :: |s| - n <= k < |s| ==> IsDigit(s[k])
    ensures n < |s| ==> !IsDigit(s[|s| - n - 1])
  {
    if s == [] || !IsDigit(s[|s| - 1]) then 0 else 1 + TrailingDigits(s[..|s| - 1])
  }

  /** `re.sub(r'-\d+$', '', s)`: a trailing dash-number removed. */
  function StripPageNumber(s: string): (r: string)
    ensures StartsWith(s, r)
    ensures r == s || DashNumber(s[|r|..])
  {
    var d := TrailingDigits(s);
    if d > 0 && d < |s| && s[|s| - d - 1] == '-' then
      var r := s[..|s| - d - 1];
      assert forall k :: 1 <= k < |s[|r|..]| ==> IsDigit(s[|r|..][k]) by {
        forall k | 1 <= k < |s[|r|..]| ensures IsDigit(s[|r|..][k]) {
          assert s[|r|..][k] == s[|r| + k];
        }
      }
      r
    else s
  }

  /** ... and it is removed whenever there is one. */
  lemma DashNumberStripped(s: string, k: nat)
    requires k < |s| && DashNumber(s[k..])
    ensures StripPageNumber(s) == s[..k]
  {
    forall m | k < m < |s| ensures IsDigit(s[m]) {
      assert s[m] == s[k..][m - k];
    }
    assert s[k] == s[k..][0];
    var d := TrailingDigits(s);
    assert d == |s| - k - 1;
  }

  /** The list's root: the base path without extension and page number. */
  function Root(basePath: string): (r: string)
    ensures StartsWith(basePath, r)
  {
    var noExt := StripExtension(basePath);
    var r := StripPageNumber(noExt);
    assert basePath[..|r|] == noExt[..|r|];
    r
  }

  /** The path with a final `.html` dropped. */
  function LinkName(path: string): (r: string)
    ensures StartsWith(path, r)
    ensures EndsWith(path, ".html") ==> |r| == |path| - 5
    ensures !EndsWith(path, ".html") ==> r == path
  {
    if EndsWith(path, ".html") then path[..|path| - 5] else path
  }

  /** A pagination link: its address contains "page=", in any case. */
  predicate Paginated(l: Link) {
    Contains(LowerStr(l.href), "page=")
  }

  /** Same site, and the path is the root plus `-<digits>`. */
  predicate Sibling(origin: string, root: string, l: Link) {
    var name := LinkName(l.path);
    StartsWith(l.full, origin) && StartsWith(name, root) && DashNumber(name[|root|..])
  }

  predicate Accepted(origin: string, root: string, l: Link) {
    Paginated(l) || Sibling(origin, root, l)
  }

  /** The discovery loop over the links, from the pages found so far. */
  function DiscoverFrom(origin: string, root: string, found: seq<string>, links: seq<Link>): (r: seq<string>)
    decreases |links|
  {
    if links == [] then found
    else
      var l := links[0];
      var found' := if Accepted(origin, root, l) && l.full !in found then found + [l.full] else found;
      DiscoverFrom(origin, root, found', links[1..])
  }

  predicate NoDuplicates(s: seq<string>) {
    forall i, j :: 0 <= i < j < |s| ==> s[i] != s[j]
  }

  lemma {:induction false} DiscoverFromSpec(origin: string, root: string, found: seq<string>, links: seq<Link>)
    requires NoDuplicates(found)
    ensures var r := DiscoverFrom(origin, root, found, links);
            && NoDuplicates(r)
            && |found| <= |r| && r[..|found|] == found
            && forall u :: u in r <==> u in found || exists k :: 0 <= k < |links| && Accepted(origin, root, links[k]) && links[k].full == u
    decreases |links|
  {
    if links != [] {
      var l := links[0];
      var found' := if Accepted(origin, root, l) && l.full !in found then found + [l.full] else found;
      DiscoverFromSpec(origin, root, found', links[1..]);
      var r := DiscoverFrom(origin, root, found', links[1..]);
      assert r[..|found|] == found by {
        assert r[..|found'|] == found';
        assert found'[..|found|] == found;
      }
      forall u ensures u in r <==> u in found || exists k :: 0 <= k < |links| && Accepted(origin, root, links[k]) && links[k].full == u {
        if u in r && u !in found {
          if u in found' {
            assert Accepted(origin, root, links[0]) && links[0].full == u;
          } else {
            var k :| 0 <= k < |links[1..]| && Accepted(origin, root, links[1..][k]) && links[1..][k].full == u;
            assert links[k + 1] == links[1..][k];
          }
        }
        if u !in found && exists k :: 0 <= k < |links| && Accepted(origin, root, links[k]) && links[k].full == u {
          var k :| 0 <= k < |links| && Accepted(origin, root, links[k]) && links[k].full == u;
          if k > 0 {
            assert links[1..][k - 1] == links[k];
          }
        }
      }
    }
  }

  /** The pages to process: the base URL first, then every accepted link
      once, in link order. When the first page cannot be fetched (`None`)
      the base URL is the only page. */
  function Discover(baseUrl: string, origin: string, basePath: string, links: Option<seq<Link>>): (r: seq<string>)
    ensures |r| >= 1 && r[0] == baseUrl
    ensures NoDuplicates(r)
    ensures links.None? ==> r == [baseUrl]
    ensures links.Some? ==>
              forall u :: u in r <==> (u == baseUrl
                || exists k :: 0 <= k < |links.value| && Accepted(origin, Root(basePath), links.value[k]) && links.value[k].full == u)
  {
    match links
    case None => [baseUrl]
    case Some(ls) =>
      DiscoverFromSpec(origin, Root(basePath), [baseUrl], ls);
      var r := DiscoverFrom(origin, Root(basePath), [baseUrl], ls);
      assert r[..1] == [baseUrl];
      r
  }
}
