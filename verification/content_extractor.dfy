/** The text-cleaning half of `_extract_text`: title selection, the line
    filter and the header block that is stored with every page. Parsing
    HTML and removing noise elements is foreign code; its result reaches
    the model as a `Markup` value. */
module ContentExtractor {
  import opened Wrappers
  import opened Seqs
  import opened Text

  /** What the parser yields for one rendered page: the `<title>` text if
      there is a title element; the body's `get_text(separator='\n',
      strip=True)` after the script, style, nav, header, footer,
      noscript, iframe, svg and form elements are removed; and the `href`
      of every anchor that has one, in document order, taken from a fresh
      parse of the whole document (so links inside navigation, headers and
      footers are included). */
  datatype Markup = Markup(title: Option<string>, text: string, hrefs: seq<string>)

  const MaxTitleLength: nat := 100
  const Untitled: string := "Untitled"

  /** Lines of at most this many characters are dropped. */
  const MinLineLength: nat := 5

  /** The page title: the trimmed title text cut to 100 characters, or
      "Untitled" when the page has no title element. */
  function PageTitle(title: Option<string>): (t: string)
    ensures |t| <= MaxTitleLength
    ensures title.None? ==> t == Untitled
    ensures title.Some? ==> IsPrefix(t, Strip(title.value)) && |t| == Min(MaxTitleLength, |Strip(title.value)|)
  {
    match title
    case None => Untitled
    case Some(s) => Take(Strip(s), MaxTitleLength)
  }

  /** The line filter: each line trimmed, and kept only when it is longer
      than five characters. */
  function CleanLines(lines: seq<string>): (r: seq<string>)
    ensures AllKept(r)
    ensures |r| <= |lines|
  {
    if |lines| == 0 then []
    else
      var init := CleanLines(lines[..|lines| - 1]);
      var line := Strip(lines[|lines| - 1]);
      if |line| > MinLineLength then KeptSnoc(init, line); init + [line] else init
  }

  /** Every line is trimmed and longer than five characters. */
  predicate AllKept(lines: seq<string>) {
    forall i :: 0 <= i < |lines| ==> |lines[i]| > MinLineLength && IsTrimmed(lines[i])
  }

  lemma KeptSnoc(lines: seq<string>, line: string)
    requires AllKept(lines) && |line| > MinLineLength && IsTrimmed(line)
    ensures AllKept(lines + [line])
  {
    forall i | 0 <= i < |lines| + 1 ensures |(lines + [line])[i]| > MinLineLength && IsTrimmed((lines + [line])[i]) {
      if i < |lines| {
        assert (lines + [line])[i] == lines[i];
      }
    }
  }

  /** Every line that is long enough after trimming survives the filter. */
  lemma {:induction false} CleanLinesComplete(lines: seq<string>, i: int)
    requires 0 <= i < |lines| && |Strip(lines[i])| > MinLineLength
    ensures Strip(lines[i]) in CleanLines(lines)
  {
    var init := lines[..|lines| - 1];
    var line := Strip(lines[|lines| - 1]);
    var before := CleanLines(init);
    CleanLinesSnoc(lines, init);
    if i < |lines| - 1 {
      assert init[i] == lines[i];
      CleanLinesComplete(init, i);
      InSnoc(Strip(lines[i]), before, line);
    } else {
      InSnoc(line, before, line);
    }
  }

  lemma InSnoc(x: string, xs: seq<string>, y: string)
    ensures x in xs ==> x in xs + [y]
    ensures x == y ==> x in xs + [y]
    ensures x in xs + [y] ==> x in xs || x == y
  {
    assert (xs + [y])[|xs|] == y;
    if x in xs {
      var k :| 0 <= k < |xs| && xs[k] == x;
      assert (xs + [y])[k] == x;
    }
  }

  /** Nothing but trimmed input lines survives the filter. */
  lemma {:induction false} CleanLinesSound(lines: seq<string>, x: string)
    requires x in CleanLines(lines)
    ensures exists i :: 0 <= i < |lines| && Strip(lines[i]) == x
  {
    var init := lines[..|lines| - 1];
    var line := Strip(lines[|lines| - 1]);
    var before := CleanLines(init);
    CleanLinesSnoc(lines, init);
    InSnoc(x, before, line);
    if x in before {
      CleanLinesSound(init, x);
      StrippedInPrefix(lines, init, x);
    } else {
      assert Strip(lines[|lines| - 1]) == x;
    }
  }

  lemma StrippedInPrefix(lines: seq<string>, init: seq<string>, x: string)
    requires |lines| > 0 && init == lines[..|lines| - 1]
    requires exists i :: 0 <= i < |init| && Strip(init[i]) == x
    ensures exists i :: 0 <= i < |lines| && Strip(lines[i]) == x
  {
    var i :| 0 <= i < |init| && Strip(init[i]) == x;
    assert lines[i] == init[i];
  }

  /** Trimming never introduces a character. */
  lemma StripKeepsOut(s: string, c: char)
    requires c !in s
    ensures c !in Strip(s)
  {
    var l := LStrip(s);
    assert l == s[|s| - |l|..];
    assert c !in l;
    assert RStrip(l) == l[..|RStrip(l)|];
  }

  /** No line holds the character `c`. */
  predicate NoneContain(lines: seq<string>, c: char) {
    forall i :: 0 <= i < |lines| ==> c !in lines[i]
  }

  lemma {:induction false} CleanLinesSingleLine(lines: seq<string>)
    requires NoneContain(lines, '\n')
    ensures NoneContain(CleanLines(lines), '\n')
  {
    if |lines| > 0 {
      var init, last := lines[..|lines| - 1], lines[|lines| - 1];
      NoneContainPrefix(lines, init, '\n');
      CleanLinesSingleLine(init);
      StripKeepsOut(last, '\n');
      CleanLinesSnoc(lines, init);
      NoneContainSnoc(CleanLines(init), Strip(last), '\n');
    }
  }

  /** `CleanLines` takes the lines one at a time. */
  lemma CleanLinesSnoc(lines: seq<string>, init: seq<string>)
    requires |lines| > 0 && init == lines[..|lines| - 1]
    ensures var line := Strip(lines[|lines| - 1]);
      CleanLines(lines) == if |line| > MinLineLength then CleanLines(init) + [line] else CleanLines(init)
  {
  }

  lemma NoneContainPrefix(lines: seq<string>, init: seq<string>, c: char)
    requires NoneContain(lines, c) && |lines| > 0 && init == lines[..|lines| - 1]
    ensures NoneContain(init, c)
  {
    forall i | 0 <= i < |init| ensures c !in init[i] {
      assert init[i] == lines[i];
    }
  }

  lemma NoneContainSnoc(xs: seq<string>, y: string, c: char)
    requires NoneContain(xs, c) && c !in y
    ensures NoneContain(xs + [y], c)
  {
    forall i | 0 <= i < |xs + [y]| ensures c !in (xs + [y])[i] {
      if i < |xs| {
        assert (xs + [y])[i] == xs[i];
      }
    }
  }

  /** The kept lines of a page's text. */
  function BodyLines(m: Markup): (r: seq<string>)
    ensures forall i :: 0 <= i < |r| ==> '\n' !in r[i] && |r[i]| > MinLineLength && IsTrimmed(r[i])
  {
    var pieces := Split(m.text, '\n');
    CleanLinesSingleLine(pieces);
    CleanLines(pieces)
  }

  /** Lines without a newline, joined by newlines, split back apart. */
  lemma JoinLinesRoundTrip(lines: seq<string>)
    requires forall i :: 0 <= i < |lines| ==> '\n' !in lines[i]
    ensures lines == [] ==> Join("\n", lines) == ""
    ensures lines != [] ==> Split(Join("\n", lines), '\n') == lines
  {
    if lines != [] {
      SplitJoin(lines, '\n');
    }
  }

  /** `f"=== {title} ===\nURL: {url}\n\n"`. */
  function Header(title: string, url: string): string {
    "=== " + title + " ===\nURL: " + url + "\n\n"
  }

  /** The `(title, full_content)` pair `_extract_text` returns. */
  datatype Extracted = Extracted(title: string, content: string)

  function ExtractText(m: Markup, url: string): (r: Extracted)
    ensures r.title == PageTitle(m.title)
    ensures IsPrefix(Header(r.title, url), r.content)
    ensures var body := r.content[|Header(r.title, url)|..];
      && (BodyLines(m) == [] ==> body == "")
      && (BodyLines(m) != [] ==> Split(body, '\n') == BodyLines(m))
  {
    var title := PageTitle(m.title);
    var body := Join("\n", BodyLines(m));
    JoinLinesRoundTrip(BodyLines(m));
    Extracted(title, Header(title, url) + body)
  }

  lemma CountAppend(a: string, c: char, b: string)
    requires IsSpace(c)
    ensures WordCount(a + [c] + b) == WordCount(a) + WordCount(b)
  {
    WordsAppend(a, c, b);
  }

  /** The part of the header after the title: "===", "URL:", the URL's
      words, then the body's. */
  lemma TailWordCount(url: string, body: string)
    ensures WordCount("===" + ['\n'] + ("URL:" + [' '] + (url + ['\n'] + ("" + ['\n'] + body))))
      == 2 + WordCount(url) + WordCount(body)
  {
    SingleWord("===");
    SingleWord("URL:");
    assert IsSpace('\n') && IsSpace(' ');
    TailCount("===", '\n', "URL:", ' ', url, body);
  }

  /** `TailWordCount` for any two single words and any two spaces. */
  lemma TailCount(w1: string, s1: char, w2: string, s2: char, url: string, body: string)
    requires WordCount(w1) == 1 && WordCount(w2) == 1 && IsSpace(s1) && IsSpace(s2)
    ensures WordCount(w1 + [s1] + (w2 + [s2] + (url + [s1] + ("" + [s1] + body))))
      == 2 + WordCount(url) + WordCount(body)
  {
    var r5 := "" + [s1] + body;
    var r4 := url + [s1] + r5;
    var r3 := w2 + [s2] + r4;
    CountAppend("", s1, body);
    CountAppend(url, s1, r5);
    CountAppend(w2, s2, r4);
    CountAppend(w1, s1, r3);
    assert WordCount("") == 0;
  }

  /** The header contributes its three fixed tokens ("===", "===", "URL:")
      plus the words of the title and of the URL to the page's word count. */
  lemma {:induction false} HeaderWordCount(title: string, url: string, body: string)
    ensures WordCount(Header(title, url) + body) == 3 + WordCount(title) + WordCount(url) + WordCount(body)
  {
    var r2 := "===" + ['\n'] + ("URL:" + [' '] + (url + ['\n'] + ("" + ['\n'] + body)));
    var r1 := title + [' '] + r2;
    assert Header(title, url) + body == "===" + [' '] + r1;
    TailWordCount(url, body);
    CountAppend(title, ' ', r2);
    CountAppend("===", ' ', r1);
    SingleWord("===");
  }

  /** A page is thin (fewer than 20 words, see the crawl) exactly when its
      title, URL and kept lines hold fewer than 17 words between them. */
  lemma ThinPage(m: Markup, url: string)
    ensures var e := ExtractText(m, url);
      WordCount(e.content) < 20 <==> WordCount(e.title) + WordCount(url) + WordCount(Join("\n", BodyLines(m))) < 17
  {
    var e := ExtractText(m, url);
    HeaderWordCount(e.title, url, Join("\n", BodyLines(m)));
  }
}
