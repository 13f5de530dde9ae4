/** `SmartWebScraper`: a breadth-first crawl of one site, from its home
    page, through a FIFO queue, with a page budget, a visited set and a
    thin-page filter. The browser is foreign code: rendering a URL is a
    `Renderer` parameter, the clock a `Clock` parameter. */
module CrawlEngine {
  import opened Wrappers
  import opened Seqs
  import opened Text
  import opened Url
  import opened PageClassifier
  import opened ContentExtractor
  import opened LinkDiscoverer

  /** One stored page; `valueScore` is the page-type score in hundredths. */
  datatype ScrapedPage = ScrapedPage(
    url: string,
    title: string,
    content: string,
    contentType: ContentType,
    wordCount: nat,
    linksFound: nat,
    scrapedAt: string,
    valueScore: nat)

  /** `_load_page` followed by parsing: the page's markup, or `None` when
      loading fails or yields an empty document. */
  type Renderer = string -> Option<Markup>

  /** `time.strftime(...)` at the n-th counted page. */
  type Clock = nat -> string

  /** One call of the progress callback:
      `(url, page_count - 1, len(queue), max_pages)`. */
  datatype Progress = Progress(url: string, done: nat, queued: nat, budget: int)

  /** What a crawl leaves in the scraper object: the base domain, the
      visited set and the stored pages in insertion order (the dictionary
      `scraped_pages` is keyed by URL, and no URL is stored twice). */
  datatype Session = Session(baseDomain: string, visited: set<string>, pages: seq<ScrapedPage>)

  /** Pages with fewer words than this are not stored and not mined for links. */
  const MinWords: nat := 20

  /** The foreign parts of a crawl of `base`: the browser, the link
      resolver and `urlparse`. */
  datatype Config = Config(base: string, render: Renderer, resolve: Resolver, parse: UrlParser)

  /** The record built for a rendered page. */
  function MakePage(url: string, m: Markup, linksFound: nat, stamp: string, parse: UrlParser): (p: ScrapedPage)
    ensures p.url == url && p.linksFound == linksFound && p.scrapedAt == stamp
    ensures p.title == PageTitle(m.title)
    ensures p.content == ExtractText(m, url).content && IsPrefix(Header(p.title, url), p.content)
    ensures p.wordCount == WordCount(p.content)
    ensures p.contentType == GetPageType(url, parse).contentType && p.valueScore == GetPageType(url, parse).score
    ensures p.valueScore == ScoreOf(p.contentType) && KnownScore(p.valueScore)
  {
    var e := ExtractText(m, url);
    var c := GetPageType(url, parse);
    ScrapedPage(url, e.title, e.content, c.contentType, WordCount(e.content), linksFound, stamp, c.score)
  }

  /** The crawl keeps `url`: it renders and has at least 20 words. */
  predicate Accepted(url: string, render: Renderer) {
    render(url).Some? && WordCount(ExtractText(render(url).value, url).content) >= MinWords
  }

  /** `scrape_single_page`: one page, no thin-page filter, no links. */
  function ScrapeSinglePage(url: string, render: Renderer, parse: UrlParser, stamp: string): (r: Option<ScrapedPage>)
    ensures r.None? <==> render(url).None?
    ensures r.Some? ==>
      && r.value.url == url
      && r.value.linksFound == 0
      && r.value.content == ExtractText(render(url).value, url).content
      && r.value.title == PageTitle(render(url).value.title)
      && r.value.contentType == Classify(parse(url).path).contentType
      && r.value.valueScore == Classify(parse(url).path).score
      && r.value.wordCount == WordCount(r.value.content)
  {
    match render(url)
    case None => None
    case Some(m) => Some(MakePage(url, m, 0, stamp, parse))
  }

  function Urls(trace: seq<Progress>): (r: seq<string>)
    ensures |r| == |trace|
    ensures forall i :: 0 <= i < |trace| ==> r[i] == trace[i].url
  {
    seq(|trace|, i requires 0 <= i < |trace| => trace[i].url)
  }

  function PageUrls(pages: seq<ScrapedPage>): (r: seq<string>)
    ensures |r| == |pages|
    ensures forall i :: 0 <= i < |pages| ==> r[i] == pages[i].url
  {
    seq(|pages|, i requires 0 <= i < |pages| => pages[i].url)
  }

  /** `p` is the record the crawl stores for its URL, and `links` are the
      links mined from that page while `seen` was the visited set. */
  ghost predicate StoredFor(c: Config, p: ScrapedPage, links: seq<string>, seen: set<string>) {
    && p.url in seen
    && Accepted(p.url, c.render)
    && links == Links(c.render(p.url).value.hrefs, p.url, c.resolve, c.base, seen)
    && p == MakePage(p.url, c.render(p.url).value, |links|, p.scrapedAt, c.parse)
  }

  /** The queue is the unconsumed suffix of the log of everything ever
      enqueued; the URLs counted so far are the first occurrences among
      the consumed part, and they are exactly the visited set. */
  ghost predicate FrontierInv(home: string, queue: seq<string>, log: seq<string>, head: nat,
                              visited: set<string>, trace: seq<Progress>)
  {
    && |log| >= 1 && log[0] == home
    && head <= |log| && queue == log[head..]
    && Urls(trace) == Distinct(log[..head])
    && visited == Elems(log[..head])
  }

  /** The stored pages, the links mined from each, and the log that holds
      the home page followed by those links. */
  ghost predicate StoreInv(c: Config, home: string, log: seq<string>, visited: set<string>,
                           pages: seq<ScrapedPage>, found: seq<seq<string>>, seen: seq<set<string>>)
  {
    && StoreShape(home, log, pages, found, seen)
    && StoreRecords(c, visited, pages, found, seen)
    && StoreCovers(c, visited, pages)
    && StoreHome(home, visited, pages, seen)
  }

  ghost predicate StoreShape(home: string, log: seq<string>,
                             pages: seq<ScrapedPage>, found: seq<seq<string>>, seen: seq<set<string>>)
  {
    && |found| == |pages| && |seen| == |pages|
    && log == [home] + Flatten(found)
  }

  ghost predicate StoreRecords(c: Config, visited: set<string>,
                               pages: seq<ScrapedPage>, found: seq<seq<string>>, seen: seq<set<string>>)
    requires |found| == |pages| && |seen| == |pages|
  {
    && NoDup(PageUrls(pages))
    && (forall k :: 0 <= k < |pages| ==> StoredFor(c, pages[k], found[k], seen[k]) && seen[k] <= visited)
  }

  ghost predicate StoreCovers(c: Config, visited: set<string>, pages: seq<ScrapedPage>) {
    forall u :: u in visited ==> (u in PageUrls(pages) <==> Accepted(u, c.render))
  }

  ghost predicate StoreHome(home: string, visited: set<string>, pages: seq<ScrapedPage>, seen: seq<set<string>>) {
    && (home in PageUrls(pages) ==> |pages| > 0 && |seen| > 0 && pages[0].url == home && seen[0] == {home})
    && (visited == {} ==> pages == [])
  }

  ghost predicate SameOriginAll(log: seq<string>, base: string) {
    forall i :: 0 <= i < |log| ==> OnSite(log[i], base)
  }

  lemma InitInv(c: Config, home: string)
    requires home == Home(c.base) && WellFormed(UrlParts(c.base, ""))
    ensures FrontierInv(home, [home], [home], 0, {}, [])
    ensures StoreInv(c, home, [home], {}, [], [], [])
    ensures SameOriginAll([home], c.base)
  {
    HomeParts(c.base);
    assert [home][..0] == [];
    assert [home] + Flatten<string>([]) == [home];
  }

  /** Popping an already visited URL changes nothing but the queue. */
  lemma SkipStep(home: string, queue: seq<string>, log: seq<string>, head: nat,
                 visited: set<string>, trace: seq<Progress>)
    requires FrontierInv(home, queue, log, head, visited, trace)
    requires |queue| > 0 && queue[0] in visited
    ensures FrontierInv(home, queue[1..], log, head + 1, visited, trace)
  {
    assert log[head] == queue[0];
    assert log[..head + 1] == log[..head] + [log[head]];
    assert log[..head + 1][..head] == log[..head];
  }

  /** Popping an unvisited URL counts it and marks it visited. */
  lemma VisitStep(home: string, queue: seq<string>, log: seq<string>, head: nat,
                  visited: set<string>, trace: seq<Progress>, p: Progress)
    requires FrontierInv(home, queue, log, head, visited, trace)
    requires |queue| > 0 && queue[0] !in visited && p.url == queue[0]
    ensures FrontierInv(home, queue[1..], log, head + 1, visited + {queue[0]}, trace + [p])
  {
    assert log[head] == queue[0];
    assert log[..head + 1] == log[..head] + [log[head]];
    assert log[..head + 1][..head] == log[..head];
    assert Urls(trace + [p]) == Urls(trace) + [p.url];
  }

  /** Enqueueing a page's links extends the log and the queue alike. */
  lemma EnqueueStep(home: string, queue: seq<string>, log: seq<string>, head: nat,
                    visited: set<string>, trace: seq<Progress>, links: seq<string>)
    requires FrontierInv(home, queue, log, head, visited, trace)
    ensures FrontierInv(home, queue + links, log + links, head, visited, trace)
  {
    assert (log + links)[..head] == log[..head];
    assert (log + links)[head..] == log[head..] + links;
  }

  /** A newly visited URL that is not kept leaves the stored pages as
      they are. */
  lemma RejectStep(c: Config, home: string, log: seq<string>, visited: set<string>,
                   pages: seq<ScrapedPage>, found: seq<seq<string>>, seen: seq<set<string>>, url: string)
    requires StoreInv(c, home, log, visited, pages, found, seen)
    requires url !in visited && !Accepted(url, c.render)
    ensures StoreInv(c, home, log, visited + {url}, pages, found, seen)
  {
    assert url !in PageUrls(pages) by {
      forall k | 0 <= k < |pages| ensures PageUrls(pages)[k] != url {
        assert StoredFor(c, pages[k], found[k], seen[k]);
      }
    }
  }

  /** A newly visited URL that is kept is stored with the links mined
      from it, which go to the back of the log. */
  lemma AcceptStep(c: Config, home: string, log: seq<string>, visited: set<string>,
                   pages: seq<ScrapedPage>, found: seq<seq<string>>, seen: seq<set<string>>,
                   url: string, links: seq<string>, page: ScrapedPage)
    requires StoreInv(c, home, log, visited, pages, found, seen)
    requires url !in visited && Accepted(url, c.render)
    requires home in visited || (url == home && visited == {})
    requires links == Links(c.render(url).value.hrefs, url, c.resolve, c.base, visited + {url})
    requires page == MakePage(url, c.render(url).value, |links|, page.scrapedAt, c.parse)
    ensures StoreInv(c, home, log + links, visited + {url}, pages + [page], found + [links], seen + [visited + {url}])
  {
    var v := visited + {url};
    PageUrlsSnoc(pages, page);
    NotYetStored(c, visited, pages, found, seen, url);
    AcceptShape(home, log, pages, found, seen, page, links, v);
    AcceptRecords(c, visited, pages, found, seen, url, links, page);
    AcceptCovers(c, visited, pages, page);
    AcceptHome(home, visited, pages, seen, page, v);
  }

  lemma PageUrlsSnoc(pages: seq<ScrapedPage>, page: ScrapedPage)
    ensures PageUrls(pages + [page]) == PageUrls(pages) + [page.url]
  {
  }

  /** Every stored URL was visited before it was stored. */
  lemma NotYetStored(c: Config, visited: set<string>,
                     pages: seq<ScrapedPage>, found: seq<seq<string>>, seen: seq<set<string>>, url: string)
    requires |found| == |pages| && |seen| == |pages|
    requires StoreRecords(c, visited, pages, found, seen)
    requires url !in visited
    ensures url !in PageUrls(pages)
  {
    forall k | 0 <= k < |pages| ensures PageUrls(pages)[k] != url {
      assert StoredFor(c, pages[k], found[k], seen[k]);
    }
  }

  lemma AcceptShape(home: string, log: seq<string>, pages: seq<ScrapedPage>, found: seq<seq<string>>,
                    seen: seq<set<string>>, page: ScrapedPage, links: seq<string>, v: set<string>)
    requires StoreShape(home, log, pages, found, seen)
    ensures StoreShape(home, log + links, pages + [page], found + [links], seen + [v])
  {
    var found' := found + [links];
    assert found'[..|found|] == found;
    assert Flatten(found') == Flatten(found) + links;
  }

  lemma AcceptRecords(c: Config, visited: set<string>,
                      pages: seq<ScrapedPage>, found: seq<seq<string>>, seen: seq<set<string>>,
                      url: string, links: seq<string>, page: ScrapedPage)
    requires |found| == |pages| && |seen| == |pages|
    requires StoreRecords(c, visited, pages, found, seen)
    requires url !in PageUrls(pages) && Accepted(url, c.render)
    requires links == Links(c.render(url).value.hrefs, url, c.resolve, c.base, visited + {url})
    requires page == MakePage(url, c.render(url).value, |links|, page.scrapedAt, c.parse)
    ensures StoreRecords(c, visited + {url}, pages + [page], found + [links], seen + [visited + {url}])
  {
    var v := visited + {url};
    PageUrlsSnoc(pages, page);
    NoDupSnoc(PageUrls(pages), url);
    assert StoredFor(c, page, links, v);
    RecordsKept(c, visited, pages, found, seen, url, links, page);
  }

  lemma NoDupSnoc(xs: seq<string>, x: string)
    requires NoDup(xs) && x !in xs
    ensures NoDup(xs + [x])
  {
  }

  lemma RecordsKept(c: Config, visited: set<string>,
                    pages: seq<ScrapedPage>, found: seq<seq<string>>, seen: seq<set<string>>,
                    url: string, links: seq<string>, page: ScrapedPage)
    requires |found| == |pages| && |seen| == |pages|
    requires forall k :: 0 <= k < |pages| ==> StoredFor(c, pages[k], found[k], seen[k]) && seen[k] <= visited
    requires StoredFor(c, page, links, visited + {url})
    ensures var pages', found', seen' := pages + [page], found + [links], seen + [visited + {url}];
      forall k :: 0 <= k < |pages'| ==> StoredFor(c, pages'[k], found'[k], seen'[k]) && seen'[k] <= visited + {url}
  {
    ZipSnoc((p, l, s) => StoredFor(c, p, l, s), pages, found, seen, visited, page, links, visited + {url});
  }

  /** A property of every stored triple survives appending one more
      triple that has it, under a larger visited set. */
  lemma ZipSnoc(ok: (ScrapedPage, seq<string>, set<string>) -> bool,
                pages: seq<ScrapedPage>, found: seq<seq<string>>, seen: seq<set<string>>, visited: set<string>,
                page: ScrapedPage, links: seq<string>, v: set<string>)
    requires |found| == |pages| && |seen| == |pages|
    requires forall k :: 0 <= k < |pages| ==> ok(pages[k], found[k], seen[k]) && seen[k] <= visited
    requires ok(page, links, v) && visited <= v
    ensures var pages', found', seen' := pages + [page], found + [links], seen + [v];
      forall k :: 0 <= k < |pages'| ==> ok(pages'[k], found'[k], seen'[k]) && seen'[k] <= v
  {
    var pages', found', seen' := pages + [page], found + [links], seen + [v];
    forall k | 0 <= k < |pages'|
      ensures ok(pages'[k], found'[k], seen'[k]) && seen'[k] <= v
    {
      if k < |pages| {
        assert pages'[k] == pages[k] && found'[k] == found[k] && seen'[k] == seen[k];
      }
    }
  }

  lemma AcceptCovers(c: Config, visited: set<string>, pages: seq<ScrapedPage>, page: ScrapedPage)
    requires StoreCovers(c, visited, pages)
    requires page.url !in visited && Accepted(page.url, c.render)
    ensures StoreCovers(c, visited + {page.url}, pages + [page])
  {
    PageUrlsSnoc(pages, page);
    CoversSnoc(u => Accepted(u, c.render), visited, PageUrls(pages), page.url);
  }

  /** Visiting one more accepted URL and storing it keeps "stored exactly
      when accepted" over the visited set. */
  lemma CoversSnoc(acc: string -> bool, visited: set<string>, urls: seq<string>, url: string)
    requires forall u :: u in visited ==> (u in urls <==> acc(u))
    requires url !in visited && acc(url)
    ensures forall u :: u in visited + {url} ==> (u in urls + [url] <==> acc(u))
  {
  }

  lemma AcceptHome(home: string, visited: set<string>, pages: seq<ScrapedPage>, seen: seq<set<string>>,
                   page: ScrapedPage, v: set<string>)
    requires StoreHome(home, visited, pages, seen)
    requires v == visited + {page.url}
    requires home in visited || (page.url == home && visited == {})
    requires page.url !in visited && |seen| == |pages|
    ensures StoreHome(home, v, pages + [page], seen + [v])
  {
    PageUrlsSnoc(pages, page);
    var pages', seen' := pages + [page], seen + [v];
    if home in PageUrls(pages') {
      if page.url != home {
        assert home in PageUrls(pages);
        assert pages'[0] == pages[0] && seen'[0] == seen[0];
      } else {
        assert pages == [] && seen == [];
      }
    }
  }

  /** The crawl starts at the home page. */
  lemma HomeFirst(home: string, queue: seq<string>, log: seq<string>, head: nat,
                  visited: set<string>, trace: seq<Progress>)
    requires FrontierInv(home, queue, log, head, visited, trace)
    ensures |trace| > 0 ==> trace[0].url == home
  {
    assert log[..1] == [home];
    assert Distinct(log[..1][..0]) == [];
    if |trace| > 0 {
      DistinctPrefixesAgree(log, head, 1, 0);
    }
  }

  /** The links of the home page, when it is kept, are the next URLs
      counted, in their order. */
  lemma HomeLinksNext(home: string, log: seq<string>, head: nat, trace: seq<Progress>,
                      pages: seq<ScrapedPage>, found: seq<seq<string>>, seen: seq<set<string>>)
    requires head <= |log| && Urls(trace) == Distinct(log[..head])
    requires StoreShape(home, log, pages, found, seen)
    requires |pages| > 0 && NoDup(found[0]) && home !in found[0]
    ensures forall i :: 1 <= i <= |found[0]| && i < |trace| ==> trace[i].url == found[0][i - 1]
  {
    var l := found[0];
    var n := 1 + |l|;
    FlattenHead(found);
    assert log[..n] == [home] + l;
    ConsNoDup(home, l);
    DistinctOfNoDup([home] + l);
    forall i | 1 <= i <= |l| && i < |trace| ensures trace[i].url == l[i - 1] {
      DistinctPrefixesAgree(log, head, n, i);
    }
  }

  /** The links mined from a page are distinct and were not visited when
      they were mined. */
  lemma MinedLinksUnvisited(c: Config, p: ScrapedPage, links: seq<string>, seen: set<string>)
    requires StoredFor(c, p, links, seen)
    ensures NoDup(links) && forall x :: x in seen ==> x !in links
  {
  }

  lemma ConsNoDup(x: string, l: seq<string>)
    requires NoDup(l) && x !in l
    ensures NoDup([x] + l)
  {
    forall i, j | 0 <= i < j < |[x] + l| ensures ([x] + l)[i] != ([x] + l)[j] {
      if i > 0 {
        assert ([x] + l)[i] == l[i - 1];
      }
    }
  }

  /** The stored pages have the same URLs and the same contents as the
      single-page scrape of those URLs, except for the link count. */
  lemma SinglePageAgrees(c: Config, p: ScrapedPage, links: seq<string>, seen: set<string>)
    requires StoredFor(c, p, links, seen)
    ensures ScrapeSinglePage(p.url, c.render, c.parse, p.scrapedAt) == Some(p.(linksFound := 0))
  {
  }

  /** The state the loop of `scrape_website` carries. */
  datatype Crawler = Crawler(queue: seq<string>, visited: set<string>, pages: seq<ScrapedPage>, trace: seq<Progress>)

  /** Bookkeeping for the proofs: everything ever enqueued, how much of it
      has been popped, the links mined from each stored page, the visited
      set at the time each was mined, and a mark for each counted URL. */
  datatype History = History(log: seq<string>, consumed: nat, found: seq<seq<string>>, seen: seq<set<string>>,
                             marks: seq<Mark>)

  /** When a URL was counted: how many pages were stored by then, and its
      position in the log of everything enqueued. */
  datatype Mark = Mark(stored: nat, popped: nat)

  ghost predicate Budget(trace: seq<Progress>, maxPages: int) {
    && (|trace| == 0 || |trace| <= maxPages)
    && forall i :: 0 <= i < |trace| ==> trace[i].done == i && trace[i].budget == maxPages
  }

  ghost predicate Inv(c: Config, maxPages: int, s: Crawler, h: History) {
    && FrontierInv(Home(c.base), s.queue, h.log, h.consumed, s.visited, s.trace)
    && StoreInv(c, Home(c.base), h.log, s.visited, s.pages, h.found, h.seen)
    && SameOriginAll(h.log, c.base)
    && Budget(s.trace, maxPages)
    && PageUrls(s.pages) == KeptUrls(Urls(s.trace), c.render)
    && QueueInv(c.render, h.log, h.found, s.trace, h.marks)
    && SeenInv(c.render, s.trace, h.marks, s.pages, h.seen)
  }

  /** The counted URL at `i` has its page at position `marks[i].stored`,
      mined while the visited set was exactly the URLs counted up to and
      including it. */
  ghost predicate SeenAt(trace: seq<Progress>, marks: seq<Mark>, pages: seq<ScrapedPage>,
                         seen: seq<set<string>>, i: nat)
  {
    && i < |trace| && i < |marks|
    && marks[i].stored < |pages| && marks[i].stored < |seen|
    && pages[marks[i].stored].url == trace[i].url
    && seen[marks[i].stored] == Elems(Urls(trace[..i + 1]))
  }

  ghost predicate SeenInv(render: Renderer, trace: seq<Progress>, marks: seq<Mark>,
                          pages: seq<ScrapedPage>, seen: seq<set<string>>)
  {
    SeenAll(u => Accepted(u, render), trace, marks, pages, seen)
  }

  /** `SeenAt` holds at every counted URL that `kept` selects. */
  ghost predicate SeenAll(kept: string -> bool, trace: seq<Progress>, marks: seq<Mark>,
                          pages: seq<ScrapedPage>, seen: seq<set<string>>)
  {
    forall i :: 0 <= i < |trace| && kept(trace[i].url) ==> SeenAt(trace, marks, pages, seen, i)
  }

  /** The URLs among `urls` that the crawl keeps, in their order. */
  function KeptUrls(urls: seq<string>, render: Renderer): (r: seq<string>)
    ensures |r| <= |urls|
    ensures forall k :: 0 <= k < |r| ==> r[k] in urls && Accepted(r[k], render)
  {
    if |urls| == 0 then []
    else
      var init, last := urls[..|urls| - 1], urls[|urls| - 1];
      KeptUrls(init, render) + if Accepted(last, render) then [last] else []
  }

  /** The queue length the callback reports at a counted URL with mark
      `m`: what was enqueued before (the home page and the links of the
      first `m.stored` pages) minus what was popped, this URL included. */
  ghost predicate QueueMark(log: seq<string>, found: seq<seq<string>>, p: Progress, m: Mark) {
    && m.stored <= |found| && m.popped < |log| && log[m.popped] == p.url
    && p.queued == (1 + |Flatten(found[..m.stored])|) - (m.popped + 1)
  }

  ghost predicate QueueInv(render: Renderer, log: seq<string>, found: seq<seq<string>>,
                           trace: seq<Progress>, marks: seq<Mark>)
  {
    && |marks| == |trace|
    && forall i :: 0 <= i < |trace| ==>
      QueueMark(log, found, trace[i], marks[i]) && marks[i].stored == |KeptUrls(Urls(trace[..i]), render)|
  }

  /** `for link in links: if link not in self.visited: queue.append(link)`. */
  method Enqueue(queue: seq<string>, links: seq<string>, visited: set<string>) returns (q: seq<string>)
    ensures q == queue + Without(links, visited)
  {
    q := queue;
    var j := 0;
    while j < |links|
      invariant 0 <= j <= |links|
      invariant q == queue + Without(links[..j], visited)
    {
      assert links[..j + 1][..j] == links[..j];
      if links[j] !in visited {
        q := q + [links[j]];
      }
      j := j + 1;
    }
    assert links[..j] == links;
  }

  lemma BudgetStep(trace: seq<Progress>, maxPages: int, p: Progress)
    requires Budget(trace, maxPages) && |trace| < maxPages
    requires p.done == |trace| && p.budget == maxPages
    ensures Budget(trace + [p], maxPages)
  {
  }

  lemma SkipInv(c: Config, maxPages: int, s: Crawler, h: History)
    requires Inv(c, maxPages, s, h)
    requires |s.queue| > 0 && s.queue[0] in s.visited
    ensures Inv(c, maxPages, s.(queue := s.queue[1..]), h.(consumed := h.consumed + 1))
  {
    SkipStep(Home(c.base), s.queue, h.log, h.consumed, s.visited, s.trace);
  }

  lemma RejectInv(c: Config, maxPages: int, s: Crawler, h: History, p: Progress)
    requires Inv(c, maxPages, s, h)
    requires |s.queue| > 0 && s.queue[0] !in s.visited && |s.trace| < maxPages
    requires p == Progress(s.queue[0], |s.trace|, |s.queue| - 1, maxPages)
    requires !Accepted(s.queue[0], c.render)
    ensures Inv(c, maxPages, Crawler(s.queue[1..], s.visited + {s.queue[0]}, s.pages, s.trace + [p]),
                h.(consumed := h.consumed + 1, marks := h.marks + [Mark(|s.pages|, h.consumed)]))
  {
    VisitStep(Home(c.base), s.queue, h.log, h.consumed, s.visited, s.trace, p);
    BudgetStep(s.trace, maxPages, p);
    RejectStep(c, Home(c.base), h.log, s.visited, s.pages, h.found, h.seen, s.queue[0]);
    OrderReject(c.render, s.pages, s.trace, p);
    QueueVisit(c.render, h.log, h.found, s.trace, h.marks, s.pages, h.consumed, p);
    SeenReject(u => Accepted(u, c.render), s.trace, h.marks, s.pages, h.seen, p, Mark(|s.pages|, h.consumed));
  }

  lemma AcceptInv(c: Config, maxPages: int, s: Crawler, h: History, p: Progress,
                  links: seq<string>, page: ScrapedPage)
    requires Inv(c, maxPages, s, h)
    requires |s.queue| > 0 && s.queue[0] !in s.visited && |s.trace| < maxPages
    requires p == Progress(s.queue[0], |s.trace|, |s.queue| - 1, maxPages)
    requires Accepted(s.queue[0], c.render)
    requires links == Links(c.render(s.queue[0]).value.hrefs, s.queue[0], c.resolve, c.base, s.visited + {s.queue[0]})
    requires page == MakePage(s.queue[0], c.render(s.queue[0]).value, |links|, page.scrapedAt, c.parse)
    ensures Inv(c, maxPages, Crawler(s.queue[1..] + links, s.visited + {s.queue[0]}, s.pages + [page], s.trace + [p]),
                History(h.log + links, h.consumed + 1, h.found + [links], h.seen + [s.visited + {s.queue[0]}],
                        h.marks + [Mark(|s.pages|, h.consumed)]))
  {
    var home, url := Home(c.base), s.queue[0];
    var visited, trace := s.visited + {url}, s.trace + [p];
    VisitStep(home, s.queue, h.log, h.consumed, s.visited, s.trace, p);
    BudgetStep(s.trace, maxPages, p);
    assert home in s.visited || (url == home && s.visited == {}) by {
      if home !in s.visited {
        assert h.consumed == 0;
      }
    }
    AcceptStep(c, home, h.log, s.visited, s.pages, h.found, h.seen, url, links, page);
    EnqueueStep(home, s.queue[1..], h.log, h.consumed + 1, visited, trace, links);
    OriginStep(h.log, links, c.base);
    OrderAccept(c.render, s.pages, s.trace, p, page);
    var marks := h.marks + [Mark(|s.pages|, h.consumed)];
    QueueVisit(c.render, h.log, h.found, s.trace, h.marks, s.pages, h.consumed, p);
    QueueGrow(c.render, h.log, h.found, links, trace, marks);
    VisitedCounted(home, s.queue[1..], h.log, h.consumed + 1, visited, trace);
    SeenAccept(u => Accepted(u, c.render), s.trace, h.marks, s.pages, h.seen, p, h.consumed, page, visited);
  }

  lemma OriginStep(log: seq<string>, links: seq<string>, base: string)
    requires SameOriginAll(log, base)
    requires forall i :: 0 <= i < |links| ==> OnSite(links[i], base)
    ensures SameOriginAll(log + links, base)
  {
  }

  /** Counting one more URL extends the kept URLs by it exactly when it
      is kept. */
  lemma KeptSnoc(urls: seq<string>, u: string, render: Renderer)
    ensures KeptUrls(urls + [u], render) == KeptUrls(urls, render) + if Accepted(u, render) then [u] else []
  {
    assert (urls + [u])[..|urls|] == urls;
  }

  lemma OrderReject(render: Renderer, pages: seq<ScrapedPage>, trace: seq<Progress>, p: Progress)
    requires PageUrls(pages) == KeptUrls(Urls(trace), render)
    requires !Accepted(p.url, render)
    ensures PageUrls(pages) == KeptUrls(Urls(trace + [p]), render)
  {
    assert Urls(trace + [p]) == Urls(trace) + [p.url];
    KeptSnoc(Urls(trace), p.url, render);
  }

  lemma OrderAccept(render: Renderer, pages: seq<ScrapedPage>, trace: seq<Progress>, p: Progress, page: ScrapedPage)
    requires PageUrls(pages) == KeptUrls(Urls(trace), render)
    requires Accepted(p.url, render) && page.url == p.url
    ensures PageUrls(pages + [page]) == KeptUrls(Urls(trace + [p]), render)
  {
    assert Urls(trace + [p]) == Urls(trace) + [p.url];
    KeptSnoc(Urls(trace), p.url, render);
    PageUrlsSnoc(pages, page);
  }

  /** Counting the URL at `head` of the log marks it with the number of
      pages stored so far. */
  lemma QueueVisit(render: Renderer, log: seq<string>, found: seq<seq<string>>, trace: seq<Progress>,
                   marks: seq<Mark>, pages: seq<ScrapedPage>, head: nat, p: Progress)
    requires QueueInv(render, log, found, trace, marks)
    requires |log| == 1 + |Flatten(found)| && |found| == |pages|
    requires PageUrls(pages) == KeptUrls(Urls(trace), render)
    requires head < |log| && log[head] == p.url && p.queued == |log| - head - 1
    ensures QueueInv(render, log, found, trace + [p], marks + [Mark(|pages|, head)])
  {
    var trace', marks' := trace + [p], marks + [Mark(|pages|, head)];
    QueueKept(render, log, found, trace, marks, p, Mark(|pages|, head));
    assert found[..|pages|] == found;
    assert trace'[..|trace|] == trace;
  }

  /** Appending a counted URL leaves the earlier marks valid. */
  lemma QueueKept(render: Renderer, log: seq<string>, found: seq<seq<string>>, trace: seq<Progress>,
                  marks: seq<Mark>, p: Progress, m: Mark)
    requires QueueInv(render, log, found, trace, marks)
    ensures var trace', marks' := trace + [p], marks + [m];
      forall i :: 0 <= i < |trace| ==>
        QueueMark(log, found, trace'[i], marks'[i]) && marks'[i].stored == |KeptUrls(Urls(trace'[..i]), render)|
  {
    var trace', marks' := trace + [p], marks + [m];
    forall i | 0 <= i < |trace|
      ensures QueueMark(log, found, trace'[i], marks'[i])
      ensures marks'[i].stored == |KeptUrls(Urls(trace'[..i]), render)|
    {
      assert trace'[i] == trace[i] && marks'[i] == marks[i];
      assert trace'[..i] == trace[..i];
    }
  }

  /** Storing a page appends its links to the log and to the links found,
      which leaves every earlier mark's count as it was. */
  lemma QueueGrow(render: Renderer, log: seq<string>, found: seq<seq<string>>, links: seq<string>,
                  trace: seq<Progress>, marks: seq<Mark>)
    requires QueueInv(render, log, found, trace, marks)
    ensures QueueInv(render, log + links, found + [links], trace, marks)
  {
    forall i | 0 <= i < |trace| ensures QueueMark(log + links, found + [links], trace[i], marks[i]) {
      var m := marks[i];
      assert (found + [links])[..m.stored] == found[..m.stored];
      assert (log + links)[m.popped] == log[m.popped];
    }
  }

  /** Counting a URL and storing pages at the back leaves every earlier
      counted URL's page and visited set where they were. */
  lemma SeenKept(kept: string -> bool, trace: seq<Progress>, marks: seq<Mark>, pages: seq<ScrapedPage>,
                 seen: seq<set<string>>, p: Progress, m: Mark, pages': seq<ScrapedPage>, seen': seq<set<string>>)
    requires SeenAll(kept, trace, marks, pages, seen)
    requires |pages| <= |pages'| && forall k :: 0 <= k < |pages| ==> pages'[k] == pages[k]
    requires |seen| <= |seen'| && forall k :: 0 <= k < |seen| ==> seen'[k] == seen[k]
    ensures forall i :: 0 <= i < |trace| && kept(trace[i].url) ==>
      SeenAt(trace + [p], marks + [m], pages', seen', i)
  {
    var trace', marks' := trace + [p], marks + [m];
    forall i | 0 <= i < |trace| && kept(trace[i].url)
      ensures SeenAt(trace', marks', pages', seen', i)
    {
      SeenAtKept(trace, marks, pages, seen, p, m, pages', seen', i);
    }
  }

  lemma SeenAtKept(trace: seq<Progress>, marks: seq<Mark>, pages: seq<ScrapedPage>,
                   seen: seq<set<string>>, p: Progress, m: Mark, pages': seq<ScrapedPage>, seen': seq<set<string>>, i: nat)
    requires SeenAt(trace, marks, pages, seen, i)
    requires |pages| <= |pages'| && forall k :: 0 <= k < |pages| ==> pages'[k] == pages[k]
    requires |seen| <= |seen'| && forall k :: 0 <= k < |seen| ==> seen'[k] == seen[k]
    ensures SeenAt(trace + [p], marks + [m], pages', seen', i)
  {
    var trace', marks' := trace + [p], marks + [m];
    assert trace'[i] == trace[i] && marks'[i] == marks[i];
    assert trace'[..i + 1] == trace[..i + 1];
  }

  /** A URL that is not kept is counted without a page. */
  lemma SeenReject(kept: string -> bool, trace: seq<Progress>, marks: seq<Mark>, pages: seq<ScrapedPage>,
                   seen: seq<set<string>>, p: Progress, m: Mark)
    requires SeenAll(kept, trace, marks, pages, seen)
    requires !kept(p.url)
    ensures SeenAll(kept, trace + [p], marks + [m], pages, seen)
  {
    SeenKept(kept, trace, marks, pages, seen, p, m, pages, seen);
  }

  /** A kept URL's page goes last, mined with the visited set `v` that
      holds exactly the URLs counted so far, itself included. */
  lemma SeenAccept(kept: string -> bool, trace: seq<Progress>, marks: seq<Mark>, pages: seq<ScrapedPage>,
                   seen: seq<set<string>>, p: Progress, popped: nat, page: ScrapedPage, v: set<string>)
    requires SeenAll(kept, trace, marks, pages, seen)
    requires |seen| == |pages| && |marks| == |trace|
    requires page.url == p.url && v == Elems(Urls(trace + [p]))
    ensures SeenAll(kept, trace + [p], marks + [Mark(|pages|, popped)], pages + [page], seen + [v])
  {
    var trace', marks', pages', seen' := trace + [p], marks + [Mark(|pages|, popped)], pages + [page], seen + [v];
    forall i | 0 <= i < |trace'| && kept(trace'[i].url)
      ensures SeenAt(trace', marks', pages', seen', i)
    {
      if i < |trace| {
        assert trace'[i] == trace[i];
        SeenAtKept(trace, marks, pages, seen, p, Mark(|pages|, popped), pages', seen', i);
      } else {
        SeenAtNew(trace, marks, pages, seen, p, popped, page, v);
      }
    }
  }

  lemma SeenAtNew(trace: seq<Progress>, marks: seq<Mark>, pages: seq<ScrapedPage>,
                  seen: seq<set<string>>, p: Progress, popped: nat, page: ScrapedPage, v: set<string>)
    requires |seen| == |pages| && |marks| == |trace|
    requires page.url == p.url && v == Elems(Urls(trace + [p]))
    ensures SeenAt(trace + [p], marks + [Mark(|pages|, popped)], pages + [page], seen + [v], |trace|)
  {
    assert (trace + [p])[..|trace| + 1] == trace + [p];
  }

  /** The visited set is the set of counted URLs. */
  lemma VisitedCounted(home: string, queue: seq<string>, log: seq<string>, head: nat,
                       visited: set<string>, trace: seq<Progress>)
    requires FrontierInv(home, queue, log, head, visited, trace)
    ensures visited == Elems(Urls(trace))
  {
  }

  /** One iteration of the loop of `scrape_website`: pop the oldest URL;
      skip it if visited; otherwise mark it visited, count it and report
      progress, then render it, and keep it (mining its links into the
      back of the queue) only when it renders with at least 20 words. */
  method CrawlStep(c: Config, maxPages: int, clock: Clock, s: Crawler, ghost h: History)
    returns (t: Crawler, ghost g: History)
    requires Inv(c, maxPages, s, h)
    requires |s.queue| > 0 && |s.trace| < maxPages
    ensures Inv(c, maxPages, t, g)
    ensures |t.trace| == |s.trace| + 1 || (t.trace == s.trace && |t.queue| < |s.queue|)
  {
    if s.queue[0] in s.visited {
      SkipInv(c, maxPages, s, h);
      t, g := s.(queue := s.queue[1..]), h.(consumed := h.consumed + 1);
    } else {
      t, g := VisitNew(c, maxPages, clock, s, h);
    }
  }

  /** The part of one iteration after popping a URL not yet visited: a
      page that fails to render or has fewer than 20 words is counted and
      dropped. */
  method VisitNew(c: Config, maxPages: int, clock: Clock, s: Crawler, ghost h: History)
    returns (t: Crawler, ghost g: History)
    requires Inv(c, maxPages, s, h)
    requires |s.queue| > 0 && |s.trace| < maxPages && s.queue[0] !in s.visited
    ensures Inv(c, maxPages, t, g)
    ensures |t.trace| == |s.trace| + 1
  {
    var url := s.queue[0];
    var p := Progress(url, |s.trace|, |s.queue| - 1, maxPages);
    var html := c.render(url);
    if html.Some? && WordCount(ExtractText(html.value, url).content) >= MinWords {
      t, g := Keep(c, maxPages, clock, s, h, html.value);
    } else {
      RejectInv(c, maxPages, s, h, p);
      t := Crawler(s.queue[1..], s.visited + {url}, s.pages, s.trace + [p]);
      g := h.(consumed := h.consumed + 1, marks := h.marks + [Mark(|s.pages|, h.consumed)]);
    }
  }

  /** A kept page: store its record and enqueue its unvisited links. */
  method Keep(c: Config, maxPages: int, clock: Clock, s: Crawler, ghost h: History, m: Markup)
    returns (t: Crawler, ghost g: History)
    requires Inv(c, maxPages, s, h)
    requires |s.queue| > 0 && |s.trace| < maxPages && s.queue[0] !in s.visited
    requires c.render(s.queue[0]) == Some(m) && Accepted(s.queue[0], c.render)
    ensures Inv(c, maxPages, t, g)
    ensures |t.trace| == |s.trace| + 1
  {
    var url := s.queue[0];
    var visited := s.visited + {url};
    var p := Progress(url, |s.trace|, |s.queue| - 1, maxPages);
    var trace := s.trace + [p];
    var links := FindLinks(m.hrefs, url, c.resolve, c.base, visited);
    var page := MakePage(url, m, |links|, clock(|trace|), c.parse);
    AcceptInv(c, maxPages, s, h, p, links, page);
    WithoutDisjoint(links, visited);
    var queue := Enqueue(s.queue[1..], links, visited);
    t := Crawler(queue, visited, s.pages + [page], trace);
    g := History(h.log + links, h.consumed + 1, h.found + [links], h.seen + [visited], h.marks + [Mark(|s.pages|, h.consumed)]);
  }

  /** The visited URLs, and the stored pages among them, are all on the
      crawled site. */
  lemma PagesSameOrigin(c: Config, log: seq<string>, head: nat, visited: set<string>,
                        pages: seq<ScrapedPage>, found: seq<seq<string>>, seen: seq<set<string>>)
    requires head <= |log| && visited == Elems(log[..head]) && SameOriginAll(log, c.base)
    requires |found| == |pages| && |seen| == |pages|
    requires StoreRecords(c, visited, pages, found, seen)
    ensures forall k :: 0 <= k < |pages| ==> OnSite(pages[k].url, c.base)
  {
    StoredVisited(c, visited, pages, found, seen);
    VisitedSameOrigin(log, head, visited, PageUrls(pages), c.base);
  }

  lemma StoredVisited(c: Config, visited: set<string>,
                      pages: seq<ScrapedPage>, found: seq<seq<string>>, seen: seq<set<string>>)
    requires |found| == |pages| && |seen| == |pages|
    requires StoreRecords(c, visited, pages, found, seen)
    ensures forall k :: 0 <= k < |pages| ==> PageUrls(pages)[k] in visited
  {
    forall k | 0 <= k < |pages| ensures PageUrls(pages)[k] in visited {
      assert StoredFor(c, pages[k], found[k], seen[k]) && seen[k] <= visited;
    }
  }

  /** Everything consumed from a same-site log is on the site. */
  lemma VisitedSameOrigin(log: seq<string>, head: nat, visited: set<string>, urls: seq<string>, base: string)
    requires head <= |log| && visited == Elems(log[..head]) && SameOriginAll(log, base)
    requires forall k :: 0 <= k < |urls| ==> urls[k] in visited
    ensures forall k :: 0 <= k < |urls| ==> OnSite(urls[k], base)
  {
    forall k | 0 <= k < |urls| ensures OnSite(urls[k], base) {
      var i :| 0 <= i < head && log[..head][i] == urls[k];
      assert log[i] == urls[k];
    }
  }

  /** Counting and closure facts of the frontier once the loop stops. */
  lemma FrontierFacts(home: string, queue: seq<string>, log: seq<string>, head: nat,
                      visited: set<string>, trace: seq<Progress>, maxPages: int)
    requires FrontierInv(home, queue, log, head, visited, trace)
    requires |queue| == 0 || |trace| >= maxPages
    ensures maxPages >= 1 ==> |trace| >= 1 && trace[0].url == home
    ensures NoDup(Urls(trace)) && visited == Elems(Urls(trace)) && |visited| == |trace|
    ensures |trace| < maxPages ==> Elems(log) == visited
  {
    HomeFirst(home, queue, log, head, visited, trace);
    NoDupCard(Urls(trace));
    if |trace| < maxPages {
      assert log[..head] == log;
      assert log[0] in Urls(trace);
    }
  }

  /** What the loop guarantees once it stops. */
  lemma CrawlFacts(c: Config, maxPages: int, s: Crawler, h: History)
    requires Inv(c, maxPages, s, h)
    requires |s.queue| == 0 || |s.trace| >= maxPages
    ensures maxPages >= 1 ==> |s.trace| >= 1 && s.trace[0].url == Home(c.base)
    ensures NoDup(Urls(s.trace)) && s.visited == Elems(Urls(s.trace)) && |s.visited| == |s.trace|
    ensures forall k :: 0 <= k < |s.pages| ==> OnSite(s.pages[k].url, c.base)
    ensures Home(c.base) in PageUrls(s.pages) ==>
      forall i :: 1 <= i <= |h.found[0]| && i < |s.trace| ==> s.trace[i].url == h.found[0][i - 1]
    ensures |s.trace| < maxPages ==> Elems(h.log) == s.visited
  {
    var home := Home(c.base);
    FrontierFacts(home, s.queue, h.log, h.consumed, s.visited, s.trace, maxPages);
    PagesSameOrigin(c, h.log, h.consumed, s.visited, s.pages, h.found, h.seen);
    if home in PageUrls(s.pages) {
      MinedLinksUnvisited(c, s.pages[0], h.found[0], h.seen[0]);
      HomeLinksNext(home, h.log, h.consumed, s.trace, s.pages, h.found, h.seen);
    }
  }

  /** The queue length reported at each counted URL: what was enqueued
      before it (the home page and the links of the pages stored by then)
      minus what was popped, this URL included. */
  ghost predicate MarkOutcome(render: Renderer, log: seq<string>, found: seq<seq<string>>,
                              trace: seq<Progress>, marks: seq<Mark>)
  {
    && |marks| == |trace|
    && forall i :: 0 <= i < |trace| ==>
      && marks[i].stored == |KeptUrls(Urls(trace[..i]), render)| && marks[i].stored <= |found|
      && marks[i].popped < |log| && log[marks[i].popped] == trace[i].url
      && trace[i].queued == (1 + |Flatten(found[..marks[i].stored])|) - (marks[i].popped + 1)
  }

  lemma MarkFacts(render: Renderer, log: seq<string>, found: seq<seq<string>>, trace: seq<Progress>, marks: seq<Mark>)
    requires QueueInv(render, log, found, trace, marks)
    ensures MarkOutcome(render, log, found, trace, marks)
  {
  }

  /** Each kept URL's page was mined while the visited set was exactly
      the URLs counted up to and including it; for the home page, itself. */
  ghost predicate SeenOutcome(render: Renderer, home: string, trace: seq<Progress>, marks: seq<Mark>,
                              pages: seq<ScrapedPage>, seen: seq<set<string>>)
    requires |marks| == |trace|
  {
    && (forall i :: 0 <= i < |trace| && Accepted(trace[i].url, render) ==>
      && marks[i].stored < |pages| && marks[i].stored < |seen|
      && pages[marks[i].stored].url == trace[i].url
      && seen[marks[i].stored] == Elems(Urls(trace[..i + 1])))
    && (home in PageUrls(pages) ==> |seen| > 0 && seen[0] == {home})
  }

  lemma SeenFacts(c: Config, maxPages: int, s: Crawler, h: History)
    requires Inv(c, maxPages, s, h)
    ensures |h.marks| == |s.trace|
    ensures SeenOutcome(c.render, Home(c.base), s.trace, h.marks, s.pages, h.seen)
  {
    forall i | 0 <= i < |s.trace| && Accepted(s.trace[i].url, c.render)
      ensures SeenAt(s.trace, h.marks, s.pages, h.seen, i)
    {
      assert (u => Accepted(u, c.render))(s.trace[i].url);
    }
  }

  /** When the home page was stored, the URLs counted right after it are
      its links, in the order found. */
  ghost predicate HomeLinksFirst(home: string, pages: seq<ScrapedPage>, found: seq<seq<string>>,
                                trace: seq<Progress>)
    requires |found| == |pages|
  {
    home in PageUrls(pages) ==>
      forall i :: 1 <= i <= |found[0]| && i < |trace| ==> trace[i].url == found[0][i - 1]
  }

  /** Each stored page's type and score are those of the path spelled in
      its URL; a stored home page comes first as a homepage worth 1.0. */
  ghost predicate TypedPages(home: string, pages: seq<ScrapedPage>) {
    && (forall k :: 0 <= k < |pages| && HttpsUrl(pages[k].url) ==>
      pages[k].contentType == Classify(PathOf(pages[k].url)).contentType
      && pages[k].valueScore == Classify(PathOf(pages[k].url)).score)
    && (home in PageUrls(pages) ==>
      |pages| > 0 && pages[0].url == home && pages[0].contentType == Homepage && pages[0].valueScore == 100)
  }

  lemma TypedFacts(c: Config, maxPages: int, s: Crawler, h: History)
    requires Settled(c, maxPages, s, h) && ReadsLikeUrlparse(c.parse) && WellFormed(UrlParts(c.base, ""))
    ensures TypedPages(Home(c.base), s.pages)
  {
    forall k | 0 <= k < |s.pages| && HttpsUrl(s.pages[k].url)
      ensures s.pages[k].contentType == Classify(PathOf(s.pages[k].url)).contentType
      ensures s.pages[k].valueScore == Classify(PathOf(s.pages[k].url)).score
    {
      assert StoredFor(c, s.pages[k], h.found[k], h.seen[k]);
      PageTypeOfUrl(s.pages[k].url, c.parse);
    }
    if Home(c.base) in PageUrls(s.pages) {
      assert StoredFor(c, s.pages[0], h.found[0], h.seen[0]);
      HomeIsHomepage(c.base, c.parse);
    }
  }

  /** What the loop of `scrape_website` leaves once it stops. */
  ghost predicate Settled(c: Config, maxPages: int, s: Crawler, h: History) {
    && (|s.trace| == 0 || |s.trace| <= maxPages)
    && (maxPages >= 1 ==> |s.trace| >= 1 && s.trace[0].url == Home(c.base))
    && (forall i :: 0 <= i < |s.trace| ==> s.trace[i].done == i && s.trace[i].budget == maxPages)
    && NoDup(Urls(s.trace)) && s.visited == Elems(Urls(s.trace)) && |s.visited| == |s.trace|
    && |h.found| == |s.pages| && |h.seen| == |s.pages|
    && NoDup(PageUrls(s.pages))
    && PageUrls(s.pages) == KeptUrls(Urls(s.trace), c.render)
    && (forall k :: 0 <= k < |s.pages| ==> OnSite(s.pages[k].url, c.base))
    && (forall k :: 0 <= k < |s.pages| ==> StoredFor(c, s.pages[k], h.found[k], h.seen[k]) && h.seen[k] <= s.visited)
    && (forall u :: u in s.visited ==> (u in PageUrls(s.pages) <==> Accepted(u, c.render)))
    && h.consumed <= |h.log| && h.log == [Home(c.base)] + Flatten(h.found)
    && Urls(s.trace) == Distinct(h.log[..h.consumed])
    && HomeLinksFirst(Home(c.base), s.pages, h.found, s.trace)
    && (Home(c.base) in PageUrls(s.pages) ==> s.pages[0].url == Home(c.base))
    && (|s.trace| < maxPages ==> Elems(h.log) == s.visited)
  }

  lemma SettledFacts(c: Config, maxPages: int, s: Crawler, h: History)
    requires Inv(c, maxPages, s, h)
    requires |s.queue| == 0 || |s.trace| >= maxPages
    ensures Settled(c, maxPages, s, h)
  {
    CrawlFacts(c, maxPages, s, h);
  }

  /** `scrape_website`, with the start URL read by `urlparse`. */
  method ScrapeWebsite(startUrl: string, maxPages: int, render: Renderer, resolve: Resolver,
                       parse: UrlParser, clock: Clock)
    returns (session: Session, trace: seq<Progress>,
             ghost log: seq<string>, ghost consumed: nat,
             ghost found: seq<seq<string>>, ghost seen: seq<set<string>>, ghost marks: seq<Mark>)
    requires ReadsLikeUrlparse(parse)
    ensures session.baseDomain == parse(startUrl).netloc
    // the page budget and the start at the home page
    ensures |trace| == 0 || |trace| <= maxPages
    ensures maxPages >= 1 ==> |trace| >= 1 && trace[0].url == Home(session.baseDomain)
    // each URL is counted once, and the counted URLs are the visited set
    ensures forall i :: 0 <= i < |trace| ==> trace[i].done == i && trace[i].budget == maxPages
    ensures NoDup(Urls(trace)) && session.visited == Elems(Urls(trace)) && |session.visited| == |trace|
    // stored pages: one per kept URL, in the order counted, on the site,
    // built from the rendered page
    ensures |found| == |session.pages| && |seen| == |session.pages|
    ensures NoDup(PageUrls(session.pages))
    ensures PageUrls(session.pages) == KeptUrls(Urls(trace), render)
    ensures forall k :: 0 <= k < |session.pages| ==> OnSite(session.pages[k].url, session.baseDomain)
    ensures forall k :: 0 <= k < |session.pages| ==>
      StoredFor(Config(session.baseDomain, render, resolve, parse), session.pages[k], found[k], seen[k])
      && seen[k] <= session.visited
    ensures forall u :: u in session.visited ==> (u in PageUrls(session.pages) <==> Accepted(u, render))
    // breadth-first order: the counted URLs are the first occurrences of
    // the consumed prefix of everything enqueued, home page first
    ensures consumed <= |log| && log == [Home(session.baseDomain)] + Flatten(found)
    ensures Urls(trace) == Distinct(log[..consumed])
    ensures HomeLinksFirst(Home(session.baseDomain), session.pages, found, trace)
    // the queue length reported at each counted URL: what was enqueued
    // before it (the home page and the links of the pages stored by then)
    // minus what was popped, this URL included
    ensures |marks| == |trace|
    ensures forall i :: 0 <= i < |trace| ==>
      && marks[i].stored == |KeptUrls(Urls(trace[..i]), render)| && marks[i].stored <= |found|
      && marks[i].popped < |log| && log[marks[i].popped] == trace[i].url
      && trace[i].queued == (1 + |Flatten(found[..marks[i].stored])|) - (marks[i].popped + 1)
    // each kept URL's page was mined while the visited set was exactly
    // the URLs counted up to and including it; for the home page, itself
    ensures forall i :: 0 <= i < |trace| && Accepted(trace[i].url, render) ==>
      && marks[i].stored < |session.pages| && marks[i].stored < |seen|
      && session.pages[marks[i].stored].url == trace[i].url
      && seen[marks[i].stored] == Elems(Urls(trace[..i + 1]))
    ensures Home(session.baseDomain) in PageUrls(session.pages) ==> |seen| > 0 && seen[0] == {Home(session.baseDomain)}
    // each stored page is classified by the path spelled in its URL, and
    // a stored home page comes first as a homepage worth 1.0
    ensures TypedPages(Home(session.baseDomain), session.pages)
    // below the budget the crawl stops only when every found link is visited
    ensures |trace| < maxPages ==> Elems(log) == session.visited
  {
    var start := parse(startUrl);
    var c := Config(start.netloc, render, resolve, parse);
    var s;
    ghost var h;
    s, h := Crawl(c, maxPages, clock);
    TypedFacts(c, maxPages, s, h);
    session, trace := Session(c.base, s.visited, s.pages), s.trace;
    log, consumed, found, seen, marks := h.log, h.consumed, h.found, h.seen, h.marks;
  }

  /** The loop of `scrape_website`, from the home page of `c.base`, until
      the queue is empty or the budget is spent. */
  method Crawl(c: Config, maxPages: int, clock: Clock) returns (s: Crawler, ghost h: History)
    requires WellFormed(UrlParts(c.base, ""))
    ensures |s.queue| == 0 || |s.trace| >= maxPages
    ensures Settled(c, maxPages, s, h)
    ensures MarkOutcome(c.render, h.log, h.found, s.trace, h.marks)
    ensures |h.marks| == |s.trace| && SeenOutcome(c.render, Home(c.base), s.trace, h.marks, s.pages, h.seen)
  {
    var home := Home(c.base);
    s := Crawler([home], {}, [], []);
    h := History([home], 0, [], [], []);
    InitInv(c, home);
    while |s.queue| > 0 && |s.trace| < maxPages
      invariant Inv(c, maxPages, s, h)
      decreases maxPages - |s.trace|, |s.queue|
    {
      s, h := CrawlStep(c, maxPages, clock, s, h);
    }
    SettledFacts(c, maxPages, s, h);
    MarkFacts(c.render, h.log, h.found, s.trace, h.marks);
    SeenFacts(c, maxPages, s, h);
  }
}
