/** `_find_links`: the same-origin, de-duplicated, capped list of links a
    rendered page contributes to the crawl frontier. `urljoin` and
    `urlparse` are foreign code: the crawl passes them in as a `Resolver`. */
module LinkDiscoverer {
  import opened Wrappers
  import opened Seqs
  import opened Text
  import opened Url

  /** `urlparse(urljoin(current_url, href))`, reduced to netloc and path. */
  type Resolver = (string, string) -> Parsed

  /** The per-page fan-out cap. */
  const MaxLinks: nat := 20

  const SkippedExtensions: seq<string> := [".pdf", ".jpg", ".png", ".gif", ".css", ".js"]

  /** Hrefs that are never followed: empty, in-page fragments, script,
      mail and phone targets (the prefix tests are case-sensitive). */
  predicate NotNavigable(href: string) {
    || href == ""
    || StartsWith(href, "#")
    || StartsWith(href, "javascript:")
    || StartsWith(href, "mailto:")
    || StartsWith(href, "tel:")
  }

  /** Paths of non-document files, compared case-insensitively. */
  predicate IsFileLink(path: string) {
    exists e | e in SkippedExtensions :: EndsWith(Lower(path), e)
  }

  /** The canonical link an anchor contributes, if it qualifies. */
  function Candidate(href: string, current: string, resolve: Resolver, base: string): (r: Option<string>)
    ensures r.Some? ==> !NotNavigable(Strip(href))
    ensures r.Some? ==> var p := resolve(current, Strip(href));
      && p.netloc == base
      && !IsFileLink(p.path)
      && r.value == Scheme + base + RStripChar(p.path, '/')
      && OnSite(r.value, base)
      && (base != "" ==> SameOrigin(r.value, base) && PathOf(r.value) == SplitParams(RStripChar(p.path, '/')))
  {
    var h := Strip(href);
    if NotNavigable(h) then None
    else
      var p := resolve(current, h);
      if p.netloc != base then None
      else if IsFileLink(p.path) then None
      else
        if base != "" then
          CanonicalParts(p);
          Some(Canonical(p))
        else
          Some(Canonical(p))
  }

  /** The qualifying links of a page, in document order, duplicates kept. */
  function Candidates(hrefs: seq<string>, current: string, resolve: Resolver, base: string): (r: seq<string>)
    ensures forall i :: 0 <= i < |r| ==> OnSite(r[i], base)
    ensures |r| <= |hrefs|
  {
    if |hrefs| == 0 then []
    else
      var init := Candidates(hrefs[..|hrefs| - 1], current, resolve, base);
      match Candidate(hrefs[|hrefs| - 1], current, resolve, base)
      case Some(c) => init + [c]
      case None => init
  }

  /** Reference semantics of `_find_links`: the first 20 distinct
      qualifying links that are not yet visited, in document order. */
  function Links(hrefs: seq<string>, current: string, resolve: Resolver, base: string, visited: set<string>): (r: seq<string>)
    ensures |r| <= MaxLinks
    ensures NoDup(r)
    ensures forall i :: 0 <= i < |r| ==> r[i] !in visited && OnSite(r[i], base)
    ensures forall i :: 0 <= i < |r| ==> r[i] in Candidates(hrefs, current, resolve, base)
  {
    var cs := Candidates(hrefs, current, resolve, base);
    var d := Distinct(Without(cs, visited));
    TakeFacts(cs, d, visited, base);
    Take(d, MaxLinks)
  }

  lemma TakeFacts(cs: seq<string>, d: seq<string>, visited: set<string>, base: string)
    requires d == Distinct(Without(cs, visited))
    requires forall i :: 0 <= i < |cs| ==> OnSite(cs[i], base)
    ensures var r := Take(d, MaxLinks);
      && NoDup(r)
      && forall i :: 0 <= i < |r| ==> r[i] !in visited && OnSite(r[i], base) && r[i] in cs
  {
    var r := Take(d, MaxLinks);
    assert NoDup(d);
    forall i | 0 <= i < |r| ensures r[i] !in visited && OnSite(r[i], base) && r[i] in cs {
      assert r[i] == d[i];
      assert r[i] in Without(cs, visited);
      var k :| 0 <= k < |cs| && cs[k] == r[i];
    }
  }

  /** The links come out in the order of their first qualifying anchor. */
  lemma LinksDocumentOrder(hrefs: seq<string>, current: string, resolve: Resolver, base: string, visited: set<string>, i: int, j: int)
    requires 0 <= i < j < |Links(hrefs, current, resolve, base, visited)|
    ensures var r := Links(hrefs, current, resolve, base, visited);
      var c := Candidates(hrefs, current, resolve, base);
      FirstIndex(c, r[i]) < FirstIndex(c, r[j])
  {
    var c := Candidates(hrefs, current, resolve, base);
    var w := Without(c, visited);
    var d := Distinct(w);
    DistinctOrder(w, i, j);
    WithoutOrder(c, visited, d[i], d[j]);
  }

  /** The cap keeps as many links as there are distinct unvisited
      qualifying ones, up to 20; below the cap no qualifying link is lost. */
  lemma LinksComplete(hrefs: seq<string>, current: string, resolve: Resolver, base: string, visited: set<string>)
    ensures var r := Links(hrefs, current, resolve, base, visited);
      var c := Candidates(hrefs, current, resolve, base);
      && |r| == Min(MaxLinks, |Elems(Without(c, visited))|)
      && (|r| < MaxLinks ==> forall x :: x in c && x !in visited ==> x in r)
  {
    var c := Candidates(hrefs, current, resolve, base);
    var w := Without(c, visited);
    var d := Distinct(w);
    NoDupCard(d);
    assert Elems(d) == Elems(w);
  }

  /** What the loop of `_find_links` has collected from `hrefs`. */
  function Collected(hrefs: seq<string>, current: string, resolve: Resolver, base: string, visited: set<string>): seq<string> {
    Distinct(Without(Candidates(hrefs, current, resolve, base), visited))
  }

  /** The collected list after one more anchor whose link is `c`. */
  function Collect(f: seq<string>, c: Option<string>, visited: set<string>): seq<string> {
    if c.Some? && c.value !in visited && c.value !in f then f + [c.value] else f
  }

  /** One anchor more: the collected list grows by that anchor's link
      exactly when it qualifies and is neither visited nor collected. */
  lemma CollectStep(hrefs: seq<string>, i: int, current: string, resolve: Resolver, base: string, visited: set<string>)
    requires 0 <= i < |hrefs|
    ensures Collected(hrefs[..i + 1], current, resolve, base, visited)
      == Collect(Collected(hrefs[..i], current, resolve, base, visited),
                 Candidate(hrefs[i], current, resolve, base), visited)
  {
    assert hrefs[..i + 1][..i] == hrefs[..i];
    var cs := Candidates(hrefs[..i], current, resolve, base);
    var w := Without(cs, visited);
    match Candidate(hrefs[i], current, resolve, base)
    case None =>
    case Some(c) =>
      assert (cs + [c])[..|cs|] == cs;
      if c !in visited {
        assert (w + [c])[..|w|] == w;
      }
  }

  /** The loop of `_find_links`: append each qualifying link that is
      neither visited nor already collected, then cut the list at 20. */
  method FindLinks(hrefs: seq<string>, current: string, resolve: Resolver, base: string, visited: set<string>)
    returns (links: seq<string>)
    ensures links == Links(hrefs, current, resolve, base, visited)
  {
    var found: seq<string> := [];
    var i := 0;
    assert hrefs[..0] == [];
    while i < |hrefs|
      invariant 0 <= i <= |hrefs|
      invariant found == Collected(hrefs[..i], current, resolve, base, visited)
    {
      var c := Candidate(hrefs[i], current, resolve, base);
      CollectStep(hrefs, i, current, resolve, base, visited);
      if c.Some? && c.value !in visited && c.value !in found {
        found := found + [c.value];
      }
      i := i + 1;
    }
    assert hrefs[..|hrefs|] == hrefs;
    links := Take(found, MaxLinks);
  }
}
