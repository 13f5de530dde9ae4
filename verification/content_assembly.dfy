/** `get_all_content`: the stored pages, best-scored first, joined into
    one text with a rule of 60 `=` after each page. */
module ContentAssembly {
  import opened Seqs
  import opened Text
  import opened CrawlEngine

  /** `"=" * 60`. */
  const Rule: string := "============================================================"

  /** `"\n" + "=" * 60 + "\n"`. */
  const Separator: string := "\n" + Rule + "\n"

  /** Scores never increase along the list. */
  predicate SortedByScore(pages: seq<ScrapedPage>) {
    forall i, j :: 0 <= i < j < |pages| ==> pages[i].valueScore >= pages[j].valueScore
  }

  /** The pages of score `v`, in their order. */
  function WithScore(pages: seq<ScrapedPage>, v: nat): (r: seq<ScrapedPage>)
    ensures forall i :: 0 <= i < |r| ==> r[i].valueScore == v
  {
    if |pages| == 0 then []
    else (if pages[0].valueScore == v then [pages[0]] else []) + WithScore(pages[1..], v)
  }

  /** Insert `p` after every page scored at least as high. */
  function Insert(p: ScrapedPage, xs: seq<ScrapedPage>): (r: seq<ScrapedPage>)
    requires SortedByScore(xs)
    ensures SortedByScore(r)
    ensures multiset(r) == multiset(xs) + multiset{p}
  {
    if |xs| == 0 || xs[0].valueScore < p.valueScore then
      ConsSorted(p, xs);
      [p] + xs
    else
      var rest := Insert(p, xs[1..]);
      assert xs == [xs[0]] + xs[1..];
      BoundedBy(rest, xs[1..], p, xs[0].valueScore);
      ConsSorted(xs[0], rest);
      [xs[0]] + rest
  }

  lemma ConsSorted(x: ScrapedPage, xs: seq<ScrapedPage>)
    requires SortedByScore(xs)
    requires forall i :: 0 <= i < |xs| ==> xs[i].valueScore <= x.valueScore
    ensures SortedByScore([x] + xs)
  {
  }

  /** A permutation of `xs` plus `p` stays below any bound of both. */
  lemma BoundedBy(r: seq<ScrapedPage>, xs: seq<ScrapedPage>, p: ScrapedPage, bound: nat)
    requires multiset(r) == multiset(xs) + multiset{p}
    requires p.valueScore <= bound
    requires forall i :: 0 <= i < |xs| ==> xs[i].valueScore <= bound
    ensures forall i :: 0 <= i < |r| ==> r[i].valueScore <= bound
  {
    forall i | 0 <= i < |r| ensures r[i].valueScore <= bound {
      assert r[i] in multiset(r);
      assert r[i] in multiset(xs) || r[i] == p;
    }
  }

  /** `sorted(pages, key=lambda x: x.value_score, reverse=True)`; Python's
      sort is stable, also in reverse. */
  function SortByScore(pages: seq<ScrapedPage>): (r: seq<ScrapedPage>)
    ensures SortedByScore(r)
    ensures multiset(r) == multiset(pages)
  {
    if |pages| == 0 then []
    else
      var init := pages[..|pages| - 1];
      assert pages == init + [pages[|pages| - 1]];
      Insert(pages[|pages| - 1], SortByScore(init))
  }

  lemma {:induction false} WithScoreSnoc(xs: seq<ScrapedPage>, p: ScrapedPage, v: nat)
    ensures WithScore(xs + [p], v) == WithScore(xs, v) + (if p.valueScore == v then [p] else [])
  {
    if |xs| > 0 {
      assert (xs + [p])[1..] == xs[1..] + [p];
      WithScoreSnoc(xs[1..], p, v);
    }
  }

  lemma {:induction false} NoneWithScore(xs: seq<ScrapedPage>, v: nat)
    requires forall i :: 0 <= i < |xs| ==> xs[i].valueScore < v
    ensures WithScore(xs, v) == []
  {
    if |xs| > 0 {
      NoneWithScore(xs[1..], v);
    }
  }

  /** Inserting a page adds it at the end of the pages of its score. */
  lemma {:induction false} InsertWithScore(p: ScrapedPage, xs: seq<ScrapedPage>, v: nat)
    requires SortedByScore(xs)
    ensures WithScore(Insert(p, xs), v) == WithScore(xs, v) + (if p.valueScore == v then [p] else [])
  {
    if |xs| == 0 || xs[0].valueScore < p.valueScore {
      InsertFrontWithScore(p, xs, v);
    } else {
      var rest := Insert(p, xs[1..]);
      assert Insert(p, xs) == [xs[0]] + rest;
      InsertWithScore(p, xs[1..], v);
      ConsKeepsWithScore(xs[0], rest, xs[1..], if p.valueScore == v then [p] else [], v);
      assert [xs[0]] + xs[1..] == xs;
    }
  }

  /** Putting the same page in front of two lists keeps the relation
      between their pages of score `v`. */
  lemma ConsKeepsWithScore(x: ScrapedPage, ys: seq<ScrapedPage>, zs: seq<ScrapedPage>, e: seq<ScrapedPage>, v: nat)
    requires WithScore(ys, v) == WithScore(zs, v) + e
    ensures WithScore([x] + ys, v) == WithScore([x] + zs, v) + e
  {
    ConsWithScore(x, ys, v);
    ConsWithScore(x, zs, v);
    var h := if x.valueScore == v then [x] else [];
    assert h + (WithScore(zs, v) + e) == (h + WithScore(zs, v)) + e;
  }

  lemma ConsWithScore(x: ScrapedPage, xs: seq<ScrapedPage>, v: nat)
    ensures WithScore([x] + xs, v) == (if x.valueScore == v then [x] else []) + WithScore(xs, v)
  {
    assert ([x] + xs)[1..] == xs;
  }

  /** Inserting in front of lower-scored pages. */
  lemma InsertFrontWithScore(p: ScrapedPage, xs: seq<ScrapedPage>, v: nat)
    requires SortedByScore(xs)
    requires |xs| == 0 || xs[0].valueScore < p.valueScore
    ensures WithScore(Insert(p, xs), v) == WithScore(xs, v) + (if p.valueScore == v then [p] else [])
  {
    ConsWithScore(p, xs, v);
    if p.valueScore == v {
      NoneWithScore(xs, v);
    }
  }

  /** Stability: for every score, the pages of that score keep their
      insertion order. */
  lemma {:induction false} SortStable(pages: seq<ScrapedPage>, v: nat)
    ensures WithScore(SortByScore(pages), v) == WithScore(pages, v)
  {
    if |pages| > 0 {
      var init, last := pages[..|pages| - 1], pages[|pages| - 1];
      SortStable(init, v);
      InsertWithScore(last, SortByScore(init), v);
      assert pages == init + [last];
      WithScoreSnoc(init, last, v);
    }
  }

  /** The list `parts` that `get_all_content` joins: each content
      followed by the separator. */
  function Parts(pages: seq<ScrapedPage>): (r: seq<string>)
    ensures |r| == 2 * |pages|
  {
    if |pages| == 0 then [] else [pages[0].content, Separator] + Parts(pages[1..])
  }

  function GetAllContent(pages: seq<ScrapedPage>): (r: string)
    ensures pages == [] ==> r == ""
  {
    Join("\n", Parts(SortByScore(pages)))
  }

  /** One page's share of the text: its content, a newline, the rule. */
  function Block(p: ScrapedPage): string {
    p.content + "\n" + Separator
  }

  function Blocks(pages: seq<ScrapedPage>): (r: seq<string>)
    ensures |r| == |pages|
  {
    if |pages| == 0 then [] else [Block(pages[0])] + Blocks(pages[1..])
  }

  lemma {:induction false} JoinParts(pages: seq<ScrapedPage>)
    ensures Join("\n", Parts(pages)) == Join("\n", Blocks(pages))
  {
    if |pages| > 0 {
      var c, rest := pages[0].content, Parts(pages[1..]);
      var blocks := Blocks(pages[1..]);
      JoinParts(pages[1..]);
      assert Parts(pages) == [c] + ([Separator] + rest);
      assert Blocks(pages) == [Block(pages[0])] + blocks;
      if |pages| == 1 {
        JoinCons("\n", c, [Separator]);
        assert Blocks(pages) == [Block(pages[0])];
      } else {
        JoinCons("\n", c, [Separator] + rest);
        JoinCons("\n", Separator, rest);
        JoinCons("\n", Block(pages[0]), blocks);
        JoinAssoc(c, "\n", Separator, Join("\n", rest));
      }
    }
  }

  lemma JoinCons(sep: string, x: string, rest: seq<string>)
    requires |rest| > 0
    ensures Join(sep, [x] + rest) == x + sep + Join(sep, rest)
  {
    assert ([x] + rest)[1..] == rest;
  }

  lemma JoinAssoc(c: string, sep: string, s: string, j: string)
    ensures c + sep + (s + sep + j) == (c + sep + s) + sep + j
  {
  }

  /** The assembled text is the blocks of the pages, best score first,
      separated by newlines: every stored page appears once, pages of
      equal score in the order they were stored. */
  lemma AllContentBlocks(pages: seq<ScrapedPage>)
    ensures GetAllContent(pages) == Join("\n", Blocks(SortByScore(pages)))
    ensures |SortByScore(pages)| == |pages|
    ensures forall v: nat :: WithScore(SortByScore(pages), v) == WithScore(pages, v)
  {
    JoinParts(SortByScore(pages));
    assert |multiset(SortByScore(pages))| == |multiset(pages)|;
    forall v: nat ensures WithScore(SortByScore(pages), v) == WithScore(pages, v) {
      SortStable(pages, v);
    }
  }

  /** The text starts with the block of a best-scored page. */
  lemma TopPageFirst(pages: seq<ScrapedPage>)
    requires |pages| > 0
    ensures var top := SortByScore(pages)[0];
      && top in pages
      && (forall i :: 0 <= i < |pages| ==> pages[i].valueScore <= top.valueScore)
      && StartsWith(GetAllContent(pages), Block(top))
  {
    var sorted := SortByScore(pages);
    TopIsBest(sorted, pages);
    JoinParts(sorted);
    JoinStartsWithFirst(Blocks(sorted));
  }

  lemma TopIsBest(sorted: seq<ScrapedPage>, pages: seq<ScrapedPage>)
    requires |pages| > 0 && SortedByScore(sorted) && multiset(sorted) == multiset(pages)
    ensures |sorted| > 0 && sorted[0] in pages
    ensures forall i :: 0 <= i < |pages| ==> pages[i].valueScore <= sorted[0].valueScore
  {
    assert |multiset(sorted)| == |multiset(pages)|;
    assert sorted[0] in multiset(pages);
    forall i | 0 <= i < |pages| ensures pages[i].valueScore <= sorted[0].valueScore {
      assert pages[i] in multiset(sorted);
    }
  }

  lemma JoinStartsWithFirst(parts: seq<string>)
    requires |parts| > 0
    ensures StartsWith(Join("\n", parts), parts[0])
  {
    if |parts| > 1 {
      assert Join("\n", parts) == parts[0] + ("\n" + Join("\n", parts[1..]));
    }
  }
}
