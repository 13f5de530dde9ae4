/** The URL shapes the crawl builds and re-reads: `https://` + netloc +
    path. `urlparse` and `urljoin` themselves are foreign code (a
    `UrlParser` parameter, and the crawl's resolver); what this module
    states is how `urlparse` splits an `https` URL into netloc and path,
    as Python 3.10 and later do it, so that the crawl's re-parsing of its
    own links can be followed. */
module Url {
  import opened Text
  import opened Seqs

  datatype UrlParts = UrlParts(netloc: string, path: string)

  /** None of the characters `urlsplit` deletes before splitting (tab,
      carriage return, line feed). */
  predicate NoUnsafe(s: string) {
    '\t' !in s && '\r' !in s && '\n' !in s
  }

  /** What `urlparse` guarantees of its netloc and path: neither holds a
      deleted character, the netloc stops before the first `/`, `?` or
      `#`, the query and fragment are split off the path, and when there
      is a netloc the path is empty or absolute. */
  predicate WellFormed(p: UrlParts) {
    && NoUnsafe(p.netloc) && NoUnsafe(p.path)
    && '/' !in p.netloc && '?' !in p.netloc && '#' !in p.netloc
    && '?' !in p.path && '#' !in p.path
    && (p.netloc != "" ==> p.path == "" || p.path[0] == '/')
  }

  type Parsed = p: UrlParts | WellFormed(p) witness UrlParts("", "")

  /** `urlparse`, reduced to netloc and path. */
  type UrlParser = string -> Parsed

  const Scheme: string := "https://"

  /** The characters that end a netloc. */
  const NetlocEnd: set<char> := {'/', '?', '#'}

  /** The characters that end a path. */
  const PathEnd: set<char> := {'?', '#'}

  /** The crawl's seed: `f"https://{netloc}"`. */
  function Home(netloc: string): string {
    Scheme + netloc
  }

  /** `f"https://{parsed.netloc}{parsed.path.rstrip('/')}"`. */
  function Canonical(p: UrlParts): string {
    Scheme + p.netloc + RStripChar(p.path, '/')
  }

  /** Position of the first character of `s` in `stops`, or `|s|`. */
  function IndexOfAny(s: string, stops: set<char>): (i: nat)
    ensures i <= |s|
    ensures forall j :: 0 <= j < i ==> s[j] !in stops
    ensures i < |s| ==> s[i] in stops
  {
    if |s| == 0 || s[0] in stops then 0 else 1 + IndexOfAny(s[1..], stops)
  }

  /** `s.rfind('/')` where `s` holds a `/`, and 0 where it does not. */
  function LastSlash(s: string): (k: nat)
    ensures k <= |s|
    ensures '/' in s ==> k < |s| && s[k] == '/' && forall j :: k < j < |s| ==> s[j] != '/'
    ensures '/' !in s ==> k == 0
  {
    if |s| == 0 then 0
    else if s[|s| - 1] == '/' then |s| - 1
    else
      var k := LastSlash(s[..|s| - 1]);
      assert '/' in s ==> '/' in s[..|s| - 1];
      k
  }

  /** `_splitparams`: the path without the `;params` of its last segment,
      that is, cut at the first `;` from the last `/` on. */
  function SplitParams(path: string): (r: string)
    ensures IsPrefix(r, path) && |r| >= LastSlash(path)
    ensures ';' !in r[LastSlash(path)..]
    ensures ';' !in path[LastSlash(path)..] ==> r == path
  {
    var k := LastSlash(path);
    var i := IndexOfAny(path[k..], {';'});
    assert path[..k + i][k..] == path[k..][..i];
    assert ';' !in path[k..] ==> i == |path[k..]|;
    path[..k + i]
  }

  /** A URL that `urlparse` reads as `https` with nothing to delete. */
  predicate HttpsUrl(u: string) {
    StartsWith(u, Scheme) && NoUnsafe(u)
  }

  /** `urlparse(u).netloc` for an `https` URL. */
  function Authority(u: string): string
    requires HttpsUrl(u)
  {
    var rest := u[|Scheme|..];
    rest[..IndexOfAny(rest, NetlocEnd)]
  }

  /** `urlparse(u).path` for an `https` URL: what follows the netloc, up
      to the query or fragment, without the last segment's parameters. */
  function PathOf(u: string): string
    requires HttpsUrl(u)
  {
    var rest := u[|Scheme|..];
    var tail := rest[IndexOfAny(rest, NetlocEnd)..];
    SplitParams(tail[..IndexOfAny(tail, PathEnd)])
  }

  /** The netloc and path read from an `https` URL meet what `urlparse`
      guarantees of its parts. */
  lemma ReadWellFormed(u: string)
    requires HttpsUrl(u)
    ensures WellFormed(UrlParts(Authority(u), PathOf(u)))
  {
    var rest := u[|Scheme|..];
    var tail := rest[IndexOfAny(rest, NetlocEnd)..];
    var path := tail[..IndexOfAny(tail, PathEnd)];
    assert forall c :: c in Authority(u) ==> c in u;
    assert forall c :: c in path ==> c in u;
    assert forall c :: c in PathOf(u) ==> c in path;
    if path != "" {
      assert path[0] == tail[0] && tail[0] == '/';
      var k := LastSlash(path);
      assert path[k..][0] == '/';
      assert PathOf(u)[0] == '/';
    }
  }

  /** `urlparse(u)` for an `https` URL, reduced to netloc and path. */
  function ReadHttps(u: string): (p: Parsed)
    requires HttpsUrl(u)
    ensures p.netloc == Authority(u) && p.path == PathOf(u)
  {
    ReadWellFormed(u);
    UrlParts(Authority(u), PathOf(u))
  }

  /** `parse` reads every `https` URL as `urlparse` does. */
  ghost predicate ReadsLikeUrlparse(parse: UrlParser) {
    forall u :: HttpsUrl(u) ==> parse(u).netloc == Authority(u) && parse(u).path == PathOf(u)
  }

  /** Some parser reads every `https` URL as `urlparse` does. */
  lemma UrlparseExists()
    ensures ReadsLikeUrlparse(u => if HttpsUrl(u) then ReadHttps(u) else UrlParts("", ""))
  {
  }

  /** `u` is an `https` URL whose netloc is exactly `base`. */
  predicate SameOrigin(u: string, base: string) {
    HttpsUrl(u) && Authority(u) == base
  }

  /** On the site of `base`: `u` has that netloc whenever `base` is not
      empty. (With an empty base, a link without a netloc passes the
      crawl's netloc test, and its clean form can name another host.) */
  predicate OnSite(u: string, base: string) {
    base != "" ==> SameOrigin(u, base)
  }

  /** Re-parsing `https://` + netloc + path, for parts as `urlparse`
      produces them with an absolute or empty path, gives back the netloc
      and the path without its last segment's parameters. */
  lemma ParseBack(netloc: string, path: string)
    requires WellFormed(UrlParts(netloc, path))
    requires path == "" || path[0] == '/'
    ensures HttpsUrl(Scheme + netloc + path)
    ensures Authority(Scheme + netloc + path) == netloc
    ensures PathOf(Scheme + netloc + path) == SplitParams(path)
  {
    var u := Scheme + netloc + path;
    assert u[..|Scheme|] == Scheme;
    var rest := u[|Scheme|..];
    assert rest == netloc + path;
    StopsAfter(netloc, path);
    var tail := rest[|netloc|..];
    assert tail == path;
    IndexOfAnyNone(path, PathEnd);
    assert tail[..IndexOfAny(tail, PathEnd)] == path;
  }

  lemma StopsAfter(netloc: string, path: string)
    requires forall c :: c in NetlocEnd ==> c !in netloc
    requires path == "" || path[0] == '/'
    ensures IndexOfAny(netloc + path, NetlocEnd) == |netloc|
    decreases |netloc|
  {
    if |netloc| > 0 {
      assert (netloc + path)[1..] == netloc[1..] + path;
      assert netloc[0] !in NetlocEnd;
      StopsAfter(netloc[1..], path);
    } else {
      assert netloc + path == path;
    }
  }

  lemma IndexOfAnyNone(s: string, stops: set<char>)
    requires forall c :: c in stops ==> c !in s
    ensures IndexOfAny(s, stops) == |s|
  {
  }

  /** A canonical link re-parses to the resolved netloc and to the
      resolved path without trailing slashes and without the parameters
      of its last segment. */
  lemma CanonicalParts(p: Parsed)
    requires p.path == "" || p.path[0] == '/'
    ensures HttpsUrl(Canonical(p))
    ensures Authority(Canonical(p)) == p.netloc
    ensures PathOf(Canonical(p)) == SplitParams(RStripChar(p.path, '/'))
  {
    var q := RStripChar(p.path, '/');
    assert q == "" || q[0] == p.path[0];
    assert forall c :: c in q ==> c in p.path;
    ParseBack(p.netloc, q);
  }

  /** The seed URL's netloc is the netloc it was built from, and its path
      is empty. */
  lemma HomeParts(netloc: string)
    requires WellFormed(UrlParts(netloc, ""))
    ensures HttpsUrl(Home(netloc))
    ensures Authority(Home(netloc)) == netloc
    ensures PathOf(Home(netloc)) == ""
  {
    ParseBack(netloc, "");
    assert Scheme + netloc + "" == Home(netloc);
  }

  /** The last segment loses its parameters: `/home;v=1` reads as `/home`. */
  lemma LastSegmentParams()
    ensures SplitParams("/home;v=1") == "/home"
  {
    var s := "/home;v=1";
    assert forall j :: 0 < j < |s| ==> s[j] != '/';
    assert LastSlash(s) == 0;
    assert forall j :: 0 <= j < 5 ==> s[j] != ';';
    assert s[5] == ';' && IndexOfAny(s, {';'}) == 5;
    assert s[..5] == "/home";
  }

  /** Parameters of an earlier segment stay: `/a;v=1/b` is unchanged. */
  lemma InnerSegmentParams()
    ensures SplitParams("/a;v=1/b") == "/a;v=1/b"
  {
    var t := "/a;v=1/b";
    assert t[7] != '/' && t[6] == '/';
    assert LastSlash(t) == 6;
    assert t[6..] == "/b";
  }
}
