/** `get_page_type`: a first-match classifier from a URL's path to a
    content type and a fixed relevance score. Scores are in hundredths
    (Python's `0.85` is `85` here). */
module PageClassifier {
  import opened Text
  import opened Url

  datatype ContentType = Homepage | About | Services | Products | Pricing | Contact | Blog | Other {

    /** The label string the Python code stores in `content_type`. */
    function Label(): string {
      match this
      case Homepage => "homepage"
      case About => "about"
      case Services => "services"
      case Products => "products"
      case Pricing => "pricing"
      case Contact => "contact"
      case Blog => "blog"
      case Other => "other"
    }
  }

  /** The pair `(page_type, score)` that `get_page_type` returns. */
  datatype Classification = Classification(contentType: ContentType, score: nat)

  /** The scores the classifier can hand out. */
  predicate KnownScore(score: nat) {
    score == 100 || score == 90 || score == 85 || score == 80 || score == 60 || score == 50
  }

  /** The fixed score of each content type. */
  function ScoreOf(t: ContentType): nat {
    match t
    case Homepage => 100
    case About => 90
    case Services => 90
    case Products => 90
    case Pricing => 85
    case Contact => 80
    case Blog => 60
    case Other => 50
  }

  /** The if/elif chain of `get_page_type` on the lower-cased path. */
  function Classify(path: string): (r: Classification)
    ensures KnownScore(r.score)
    ensures r.score == ScoreOf(r.contentType)
    ensures r.contentType == Homepage <==> Lower(path) in ["/", "", "/home", "/index.html"]
    ensures r.contentType == Other ==> !Contains(Lower(path), "/blog") && !Contains(Lower(path), "/about")
  {
    var p := Lower(path);
    if p in ["/", "", "/home", "/index.html"] then Classification(Homepage, 100)
    else if Contains(p, "/about") || Contains(p, "/team") || Contains(p, "/company") then Classification(About, 90)
    else if Contains(p, "/service") || Contains(p, "/solution") then Classification(Services, 90)
    else if Contains(p, "/product") || Contains(p, "/feature") then Classification(Products, 90)
    else if Contains(p, "/pricing") || Contains(p, "/plan") then Classification(Pricing, 85)
    else if Contains(p, "/contact") then Classification(Contact, 80)
    else if Contains(p, "/blog") || Contains(p, "/news") then Classification(Blog, 60)
    else Classification(Other, 50)
  }

  /** `get_page_type(url)`: classification of `urlparse(url).path`. */
  function GetPageType(url: string, parse: UrlParser): Classification {
    Classify(parse(url).path)
  }

  /** For an `https` URL read as `urlparse` reads it, the type is that of
      the path spelled in the URL. */
  lemma PageTypeOfUrl(url: string, parse: UrlParser)
    requires ReadsLikeUrlparse(parse) && HttpsUrl(url)
    ensures GetPageType(url, parse) == Classify(PathOf(url))
  {
  }

  /** The crawl's seed `https://{netloc}` is a homepage worth 1.0. */
  lemma HomeIsHomepage(netloc: string, parse: UrlParser)
    requires ReadsLikeUrlparse(parse) && WellFormed(UrlParts(netloc, ""))
    ensures GetPageType(Home(netloc), parse) == Classification(Homepage, 100)
  {
    HomeParts(netloc);
    RootIsHomepage();
  }

  /** One row of the precedence table: a path matches when it equals one of
      `exact` or contains one of `needles`. */
  datatype Rule = Rule(exact: seq<string>, needles: seq<string>, contentType: ContentType)

  predicate ContainsAny(p: string, needles: seq<string>) {
    |needles| > 0 && (Contains(p, needles[0]) || ContainsAny(p, needles[1..]))
  }

  lemma ContainsAnyCons(p: string, n: string, rest: seq<string>)
    ensures ContainsAny(p, [n] + rest) <==> Contains(p, n) || ContainsAny(p, rest)
  {
    assert ([n] + rest)[1..] == rest;
  }

  predicate Matches(rule: Rule, p: string) {
    p in rule.exact || ContainsAny(p, rule.needles)
  }

  /** The precedence table, in the order the rules are tried. */
  const Rules: seq<Rule> := [
    Rule(["/", "", "/home", "/index.html"], [], Homepage),
    Rule([], ["/about", "/team", "/company"], About),
    Rule([], ["/service", "/solution"], Services),
    Rule([], ["/product", "/feature"], Products),
    Rule([], ["/pricing", "/plan"], Pricing),
    Rule([], ["/contact"], Contact),
    Rule([], ["/blog", "/news"], Blog)
  ]

  /** Index of the first rule that matches `p`, or `|rules|` if none does. */
  function FirstMatch(rules: seq<Rule>, p: string): (k: nat)
    ensures k <= |rules|
    ensures forall j :: 0 <= j < k ==> !Matches(rules[j], p)
    ensures k < |rules| ==> Matches(rules[k], p)
  {
    if |rules| == 0 || Matches(rules[0], p) then 0 else 1 + FirstMatch(rules[1..], p)
  }

  /** Reference semantics of a rule table: the content type of the first
      rule that matches, `Other` when none does. */
  function TableType(rules: seq<Rule>, p: string): ContentType {
    var k := FirstMatch(rules, p);
    if k < |rules| then rules[k].contentType else Other
  }

  /** Each row of the table tests what the matching `elif` tests. */
  lemma RulesUnfold(p: string)
    ensures Matches(Rules[0], p) <==> p in ["/", "", "/home", "/index.html"]
    ensures Matches(Rules[1], p) <==> Contains(p, "/about") || Contains(p, "/team") || Contains(p, "/company")
    ensures Matches(Rules[2], p) <==> Contains(p, "/service") || Contains(p, "/solution")
    ensures Matches(Rules[3], p) <==> Contains(p, "/product") || Contains(p, "/feature")
    ensures Matches(Rules[4], p) <==> Contains(p, "/pricing") || Contains(p, "/plan")
    ensures Matches(Rules[5], p) <==> Contains(p, "/contact")
    ensures Matches(Rules[6], p) <==> Contains(p, "/blog") || Contains(p, "/news")
  {
    ContainsAnyCons(p, "/company", []);
    ContainsAnyCons(p, "/team", ["/company"]);
    ContainsAnyCons(p, "/about", ["/team", "/company"]);
    ContainsAnyCons(p, "/solution", []);
    ContainsAnyCons(p, "/service", ["/solution"]);
    ContainsAnyCons(p, "/feature", []);
    ContainsAnyCons(p, "/product", ["/feature"]);
    ContainsAnyCons(p, "/plan", []);
    ContainsAnyCons(p, "/pricing", ["/plan"]);
    ContainsAnyCons(p, "/contact", []);
    assert !ContainsAny(p, []);
    assert ["/contact"] + [] == Rules[5].needles;
    ContainsAnyCons(p, "/news", []);
    ContainsAnyCons(p, "/blog", ["/news"]);
  }

  /** The if/elif chain is the precedence table read first-match-wins, on
      the lower-cased path. */
  lemma ClassifyIsFirstMatch(path: string)
    ensures Classify(path).contentType == TableType(Rules, Lower(path))
  {
    var p := Lower(path);
    RulesUnfold(p);
    var k := FirstMatch(Rules, p);
    if k < |Rules| {
      assert forall j :: 0 <= j < k ==> !Matches(Rules[j], p);
    } else {
      assert forall j :: 0 <= j < 7 ==> !Matches(Rules[j], p);
    }
  }

  /** A path under `/blog` that also contains `/about` is an about page:
      the about rule is tried first. */
  lemma BlogAboutIsAbout()
    ensures Classify("/blog/about-us") == Classification(About, 90)
  {
    assert OccursAt(Lower("/blog/about-us"), "/about", 5);
  }

  /** The site root and the usual index paths are the homepage. */
  lemma RootIsHomepage()
    ensures Classify("") == Classification(Homepage, 100)
    ensures Classify("/") == Classification(Homepage, 100)
    ensures Classify("/Home") == Classification(Homepage, 100)
    ensures Classify("/INDEX.html") == Classification(Homepage, 100)
  {
    assert Lower("") == "";
    assert Lower("/") == "/";
    assert Lower("/Home") == "/home" by {
      assert forall i | 0 <= i < 5 :: Lower("/Home")[i] == "/home"[i];
    }
    assert Lower("/INDEX.html") == "/index.html" by {
      assert forall i | 0 <= i < 11 :: Lower("/INDEX.html")[i] == "/index.html"[i];
    }
  }
}
