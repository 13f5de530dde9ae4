/** The text the exporter writes: the sanitised file name, the CSV rows,
    the Markdown and plain-text pages, and the summary report. A URL to
    content map is a list of entries in the map's insertion order; the
    clock reading (`datetime.now()`) is a parameter, and the functions
    return the text instead of writing it. */
module Exporter {
  import opened Wrappers
  import opened Seqs
  import opened Text
  import opened Numbers

  /** One `(url, content)` item of the scraped-data map. */
  datatype Entry = Entry(url: string, content: string)

  // ---------------------------------------------------------------------
  // _generate_filename
  // ---------------------------------------------------------------------

  /** `c.isalnum()` restricted to ASCII. */
  predicate IsAlnum(c: char) {
    ('a' <= c <= 'z') || ('A' <= c <= 'Z') || ('0' <= c <= '9')
  }

  /** The characters the sanitiser keeps. */
  predicate SafeChar(c: char) {
    IsAlnum(c) || c == '-' || c == '_'
  }

  /** `"".join(c if c.isalnum() or c in "-_" else "_" for c in base_name)`. */
  function Sanitize(name: string): (r: string)
    ensures |r| == |name|
    ensures forall i :: 0 <= i < |r| ==> SafeChar(r[i])
    ensures forall i :: 0 <= i < |name| && SafeChar(name[i]) ==> r[i] == name[i]
    ensures forall i :: 0 <= i < |name| && !SafeChar(name[i]) ==> r[i] == '_'
  {
    seq(|name|, i requires 0 <= i < |name| => if SafeChar(name[i]) then name[i] else '_')
  }

  /** Sanitising is idempotent, and a name is left alone exactly when it is
      already safe. */
  lemma SanitizeIdempotent(name: string)
    ensures Sanitize(Sanitize(name)) == Sanitize(name)
    ensures Sanitize(name) == name <==> forall i :: 0 <= i < |name| ==> SafeChar(name[i])
  {
    var s := Sanitize(name);
    assert forall i :: 0 <= i < |s| ==> Sanitize(s)[i] == s[i];
    if Sanitize(name) == name {
      assert forall i :: 0 <= i < |name| ==> SafeChar(s[i]);
    }
  }

  /** `output_dir / f"{safe_name}_{timestamp}.{extension}"`, for an output
      directory spelled as `Path` normalises it: non-empty and without a
      trailing `/`. Every caller uses the default `exports`. (`Path("")`
      would give the bare leaf, and `Path("exports/")` a single `/`.) */
  function GenerateFilename(outputDir: string, baseName: string, stamp: string, extension: string): string {
    outputDir + "/" + Sanitize(baseName) + "_" + stamp + "." + extension
  }

  /** Whatever the base name, the file lands directly inside the output
      directory: the last path component holds no `/` (given a timestamp
      and extension without one), and it starts with the sanitised name. */
  lemma FilenameStaysInDir(outputDir: string, baseName: string, stamp: string, extension: string)
    requires '/' !in stamp && '/' !in extension
    ensures var leaf := Sanitize(baseName) + "_" + stamp + "." + extension;
      && GenerateFilename(outputDir, baseName, stamp, extension) == outputDir + "/" + leaf
      && '/' !in leaf
      && StartsWith(leaf, Sanitize(baseName) + "_")
  {
    var safe := Sanitize(baseName);
    var leaf := safe + "_" + stamp + "." + extension;
    assert '/' !in safe by {
      assert forall i :: 0 <= i < |safe| ==> safe[i] != '/';
    }
    assert leaf[..|safe + "_"|] == safe + "_";
  }

  // ---------------------------------------------------------------------
  // to_csv
  // ---------------------------------------------------------------------

  const CsvLimit: nat := 32000
  const CsvHeader: seq<string> := ["URL", "Content"]

  /** `content[:32000] if len(content) > 32000 else content`. */
  function Truncate(content: string, limit: nat): (r: string)
    ensures IsPrefix(r, content)
    ensures |r| == Min(|content|, limit)
  {
    if |content| > limit then content[..limit] else content
  }

  /** The rows `to_csv` hands to the CSV writer: the header, then one row
      per entry in map order holding the URL and the content cut to
      32000 characters. Quoting is the writer's business. */
  function CsvRows(data: seq<Entry>): (rows: seq<seq<string>>)
    ensures |rows| == |data| + 1
    ensures rows[0] == CsvHeader
  {
    [CsvHeader] + CsvBody(data)
  }

  /** Row `i + 1` belongs to entry `i`: its URL, and a prefix of its
      content of length `min(len, 32000)`. */
  lemma CsvRowOfEntry(data: seq<Entry>, i: nat)
    requires i < |data|
    ensures var row := CsvRows(data)[i + 1];
      && |row| == 2 && row[0] == data[i].url
      && IsPrefix(row[1], data[i].content)
      && |row[1]| == Min(|data[i].content|, CsvLimit)
  {
    assert CsvRows(data)[i + 1] == CsvBody(data)[i];
  }

  function CsvBody(data: seq<Entry>): (rows: seq<seq<string>>)
    ensures |rows| == |data|
    ensures forall i :: 0 <= i < |data| ==> rows[i] == [data[i].url, Truncate(data[i].content, CsvLimit)]
  {
    if |data| == 0 then [] else [[data[0].url, Truncate(data[0].content, CsvLimit)]] + CsvBody(data[1..])
  }

  // ---------------------------------------------------------------------
  // to_markdown
  // ---------------------------------------------------------------------

  const MarkdownLimit: nat := 5000

  /** What one Markdown page section shows: its number, the URL, the shown
      part of the content and, when that part was cut, the full length. */
  datatype MarkdownPage = MarkdownPage(number: nat, url: string, shown: string, fullLength: Option<nat>)

  /** The section of entry `e` numbered `number`. */
  function MarkdownView(number: nat, e: Entry): (v: MarkdownPage)
    ensures v.number == number && v.url == e.url
    ensures IsPrefix(v.shown, e.content) && |v.shown| == Min(|e.content|, MarkdownLimit)
    ensures v.fullLength.Some? <==> |e.content| > MarkdownLimit
    ensures v.fullLength.Some? ==> v.fullLength.value == |e.content|
  {
    MarkdownPage(number, e.url, Take(e.content, MarkdownLimit),
      if |e.content| > MarkdownLimit then Some(|e.content|) else None)
  }

  /** `enumerate(data.items(), from)` turned into sections: the entries in
      order, numbered consecutively from `from`. */
  function MarkdownPages(data: seq<Entry>, from: nat): (r: seq<MarkdownPage>)
    ensures |r| == |data|
    ensures forall i :: 0 <= i < |data| ==> r[i] == MarkdownView(from + i, data[i])
  {
    if |data| == 0 then [] else [MarkdownView(from, data[0])] + MarkdownPages(data[1..], from + 1)
  }

  const TruncationTail: string := " characters*\n\n---\n\n"

  function RenderMarkdownPage(v: MarkdownPage): string {
    "## Page " + NatToString(v.number) + "\n\n"
      + "**URL:** " + v.url + "\n\n"
      + "### Content\n\n"
      + "```\n" + v.shown + "\n```\n\n"
      + (if v.fullLength.Some? then "*Content truncated. Full length: " + NatToString(v.fullLength.value) + " characters*\n\n" else "")
      + "---\n\n"
  }

  /** The rendered sections, one per page, in order. */
  function RenderMarkdownPages(pages: seq<MarkdownPage>): (r: seq<string>)
    ensures |r| == |pages|
    ensures forall i :: 0 <= i < |pages| ==> r[i] == RenderMarkdownPage(pages[i])
  {
    seq(|pages|, i requires 0 <= i < |pages| => RenderMarkdownPage(pages[i]))
  }

  /** The heading of the Markdown file, written at time `generated`, for
      `pages` pages. */
  function MarkdownHead(generated: string, pages: nat): string {
    "# Scraped Data\n\n"
      + "*Generated: " + generated + "*\n\n"
      + "**Total Pages: " + NatToString(pages) + "**\n\n"
      + "---\n\n"
  }

  /** The whole Markdown file written at time `generated`. */
  function ToMarkdown(generated: string, data: seq<Entry>): string {
    MarkdownHead(generated, |data|) + Flatten(RenderMarkdownPages(MarkdownPages(data, 1)))
  }

  /** The Markdown file is its heading with the page count, then every
      entry's section in map order: entry `i`'s section, numbered `i + 1`,
      sits between the sections of the entries before and after it. */
  lemma MarkdownEntryInOrder(generated: string, data: seq<Entry>, i: nat)
    requires i < |data|
    ensures var sections := RenderMarkdownPages(MarkdownPages(data, 1));
      ToMarkdown(generated, data) == MarkdownHead(generated, |data|) + Flatten(sections[..i])
        + RenderMarkdownPage(MarkdownView(i + 1, data[i])) + Flatten(sections[i + 1..])
  {
    FlattenAfter(MarkdownHead(generated, |data|), RenderMarkdownPages(MarkdownPages(data, 1)), i);
  }

  /** A reader can tell from a section whether its content was cut: the
      section ends with the truncation note exactly when it was. */
  lemma TruncationVisible(number: nat, e: Entry)
    ensures EndsWith(RenderMarkdownPage(MarkdownView(number, e)), TruncationTail) <==> |e.content| > MarkdownLimit
  {
    var v := MarkdownView(number, e);
    var r := RenderMarkdownPage(v);
    var n := |TruncationTail|;
    if v.fullLength.Some? {
      var note := "*Content truncated. Full length: " + NatToString(v.fullLength.value) + " characters*\n\n";
      assert note + "---\n\n" == "*Content truncated. Full length: " + NatToString(v.fullLength.value) + TruncationTail;
      assert r[|r| - n..] == TruncationTail;
    } else {
      assert r[|r| - 9] == '`';
    }
  }

  // ---------------------------------------------------------------------
  // to_text
  // ---------------------------------------------------------------------

  const Equals80: string := "================================================================================"
  const Dashes40: string := "----------------------------------------"

  /** The lines in front of a page's content in the text export. */
  function TextPageHead(number: nat, url: string): string {
    "PAGE " + NatToString(number) + "\n" + "URL: " + url + "\n" + Dashes40 + "\n"
  }

  function TextPage(number: nat, e: Entry): string {
    TextPageHead(number, e.url) + e.content + "\n\n" + Equals80 + "\n\n"
  }

  /** The page blocks, numbered consecutively from `from`. */
  function TextPages(data: seq<Entry>, from: nat): (r: seq<string>)
    ensures |r| == |data|
    ensures forall i :: 0 <= i < |data| ==> r[i] == TextPage(from + i, data[i])
  {
    seq(|data|, i requires 0 <= i < |data| => TextPage(from + i, data[i]))
  }

  /** The heading of the text file, written at time `generated`, for
      `pages` pages. */
  function TextHead(generated: string, pages: nat): string {
    "SCRAPED DATA\n"
      + "Generated: " + generated + "\n"
      + "Total Pages: " + NatToString(pages) + "\n"
      + Equals80 + "\n\n"
  }

  /** The whole text file written at time `generated`. */
  function ToText(generated: string, data: seq<Entry>): string {
    TextHead(generated, |data|) + Flatten(TextPages(data, 1))
  }

  /** The text file is its heading with the page count, then every
      entry's block in map order: entry `i`'s block, numbered `i + 1`, sits
      between the blocks of the entries before and after it. */
  lemma TextEntryInOrder(generated: string, data: seq<Entry>, i: nat)
    requires i < |data|
    ensures var blocks := TextPages(data, 1);
      ToText(generated, data) == TextHead(generated, |data|) + Flatten(blocks[..i])
        + TextPage(i + 1, data[i]) + Flatten(blocks[i + 1..])
  {
    FlattenAfter(TextHead(generated, |data|), TextPages(data, 1), i);
  }

  /** The text export keeps the whole content: each block carries it
      untruncated right after its head. */
  lemma TextPageHoldsContent(number: nat, e: Entry)
    ensures var head, block := TextPageHead(number, e.url), TextPage(number, e);
      && StartsWith(block, head)
      && block[|head|..|head| + |e.content|] == e.content
      && |block| == |head| + |e.content| + 84
  {
    var head := TextPageHead(number, e.url);
    var block := TextPage(number, e);
    assert block == head + (e.content + ("\n\n" + Equals80 + "\n\n"));
  }

  // ---------------------------------------------------------------------
  // generate_summary_report
  // ---------------------------------------------------------------------

  const PreviewLimit: nat := 500

  /** `content[:500] + "..." if len(content) > 500 else content`. */
  function Preview(content: string): (r: string)
    ensures |r| <= PreviewLimit + 3
    ensures |content| <= PreviewLimit ==> r == content
    ensures |content| > PreviewLimit ==> |r| == PreviewLimit + 3 && r[..PreviewLimit] == content[..PreviewLimit]
  {
    if |content| > PreviewLimit then content[..PreviewLimit] + "..." else content
  }

  /** `sum(len(c) for c in scraped_data.values())`. */
  function TotalChars(data: seq<Entry>): nat {
    if |data| == 0 then 0 else |data[0].content| + TotalChars(data[1..])
  }

  /** The exception `total_chars // len(scraped_data)` raises on an empty
      map, with the part of the report already written when it does. */
  datatype ReportError = ZeroDivision(written: string)

  /** The figures of the summary section. */
  datatype Summary = Summary(pages: nat, total: nat, average: nat)

  /** `total_chars // len(scraped_data)`: an error for the empty map. */
  function Summarize(data: seq<Entry>): (r: Option<Summary>)
    ensures r.None? <==> data == []
    ensures r.Some? ==> r.value.pages == |data| && r.value.total == TotalChars(data)
    ensures r.Some? ==> r.value.average * r.value.pages <= r.value.total < (r.value.average + 1) * r.value.pages
  {
    if |data| == 0 then None
    else Some(Summary(|data|, TotalChars(data), TotalChars(data) / |data|))
  }

  function ReportHead(generated: string): string {
    "# Web Scraping Report\n\n" + "**Generated:** " + generated + "\n\n" + "## Summary\n\n"
  }

  /** The two summary lines written before the average is computed. */
  function ReportCounts(pages: nat, total: nat): string {
    "- **Pages Scraped:** " + NatToString(pages) + "\n"
      + "- **Total Content:** " + Grouped(total) + " characters\n"
  }

  function AverageLine(average: nat): string {
    "- **Average per Page:** " + Grouped(average) + " characters\n\n"
  }

  /** `f"{i}. {url}\n"`. */
  function UrlLine(number: nat, url: string): string {
    NatToString(number) + ". " + url + "\n"
  }

  /** The numbered URL list, counting from `from`: one write per entry. */
  function UrlLines(data: seq<Entry>, from: nat): (r: seq<string>)
    ensures |r| == |data|
    ensures forall i :: 0 <= i < |data| ==> r[i] == UrlLine(from + i, data[i].url)
  {
    if |data| == 0 then [] else [UrlLine(from, data[0].url)] + UrlLines(data[1..], from + 1)
  }

  /** `f"### {url}\n\n"`. */
  function PreviewHeading(e: Entry): string {
    "### " + e.url + "\n\n"
  }

  /** `f"{preview}\n\n"`. */
  function PreviewBody(e: Entry): string {
    Preview(e.content) + "\n\n"
  }

  /** One page's share of the preview section: its heading and preview. */
  function PreviewBlock(e: Entry): string {
    PreviewHeading(e) + PreviewBody(e)
  }

  function PreviewBlocks(data: seq<Entry>): (r: seq<string>)
    ensures |r| == |data|
    ensures forall i :: 0 <= i < |data| ==> r[i] == PreviewBlock(data[i])
  {
    if |data| == 0 then [] else [PreviewBlock(data[0])] + PreviewBlocks(data[1..])
  }

  /** `if parsed_results:`: absent and empty results are both skipped. */
  function ParsedSection(parsed: Option<string>): string {
    if parsed.Some? && parsed.value != "" then "## AI Parsed Results\n\n" + parsed.value + "\n\n" else ""
  }

  /** The `f.write` calls up to the two counts. */
  function HeadWrites(generated: string, pages: nat, total: nat): seq<string> {
    ["# Web Scraping Report\n\n", "**Generated:** " + generated + "\n\n", "## Summary\n\n",
     "- **Pages Scraped:** " + NatToString(pages) + "\n",
     "- **Total Content:** " + Grouped(total) + " characters\n"]
  }

  /** The URL section: its heading, the numbered list and a blank line. */
  function UrlSection(data: seq<Entry>): string {
    "## Scraped URLs\n\n" + Flatten(UrlLines(data, 1)) + "\n"
  }

  /** The preview section: its heading and the entries' blocks. */
  function PreviewSection(data: seq<Entry>): string {
    "## Content Preview\n\n" + Flatten(PreviewBlocks(data))
  }

  function UrlWrites(data: seq<Entry>): seq<string> {
    ["## Scraped URLs\n\n"] + UrlLines(data, 1) + ["\n"]
  }

  function ParsedWrites(parsed: Option<string>): seq<string> {
    if parsed.Some? && parsed.value != "" then ["## AI Parsed Results\n\n", parsed.value, "\n\n"] else []
  }

  /** The `f.write` calls of the preview loop: two per entry. */
  function PreviewWrites(data: seq<Entry>): seq<string> {
    if |data| == 0 then []
    else [PreviewHeading(data[0]), PreviewBody(data[0])] + PreviewWrites(data[1..])
  }

  /** The `f.write` calls after the two counts, given the average. */
  function TailWrites(data: seq<Entry>, parsed: Option<string>, average: nat): seq<string> {
    [AverageLine(average)] + UrlWrites(data) + ParsedWrites(parsed)
      + (["## Content Preview\n\n"] + PreviewWrites(data))
  }

  /** `generate_summary_report`: the text the sequence of writes leaves in
      the file, or the division by zero an empty map causes after the
      head and the two counts are written. */
  function SummaryReport(generated: string, data: seq<Entry>, parsed: Option<string>): (r: Result<string, ReportError>)
    ensures r.Failure? <==> data == []
    ensures r.Failure? ==> r.error.written == ReportHead(generated) + ReportCounts(0, 0)
    ensures r.Success? ==> Summarize(data).Some?
    ensures r.Success? ==>
      r.value == ReportHead(generated) + ReportCounts(|data|, TotalChars(data))
        + AverageLine(Summarize(data).value.average)
        + UrlSection(data) + ParsedSection(parsed) + PreviewSection(data)
  {
    var head := HeadWrites(generated, |data|, TotalChars(data));
    HeadText(generated, |data|, TotalChars(data));
    match Summarize(data)
    case None => Failure(ZeroDivision(Flatten(head)))
    case Some(s) =>
      var tail := TailWrites(data, parsed, s.average);
      TailText(data, parsed, s.average);
      FlattenAppend(head, tail);
      Assoc6(ReportHead(generated), ReportCounts(|data|, TotalChars(data)), AverageLine(s.average),
        UrlSection(data), ParsedSection(parsed), PreviewSection(data));
      Success(Flatten(head + tail))
  }

  lemma Assoc6(h: string, c: string, a: string, u: string, p: string, v: string)
    ensures (h + c) + (((a + u) + p) + v) == h + c + a + u + p + v
  {
  }

  lemma HeadText(generated: string, pages: nat, total: nat)
    ensures Flatten(HeadWrites(generated, pages, total)) == ReportHead(generated) + ReportCounts(pages, total)
  {
    var w := HeadWrites(generated, pages, total);
    Flatten5(w[0], w[1], w[2], w[3], w[4]);
  }

  lemma Flatten5(a: string, b: string, c: string, d: string, e: string)
    ensures Flatten([a, b, c, d, e]) == a + b + c + d + e
  {
    FlattenCons(a, [b, c, d, e]);
    FlattenCons(b, [c, d, e]);
    FlattenCons(c, [d, e]);
    FlattenCons(d, [e]);
    FlattenOne(e);
    assert [a, b, c, d, e] == [a] + [b, c, d, e];
    assert [b, c, d, e] == [b] + [c, d, e];
    assert [c, d, e] == [c] + [d, e];
    assert [d, e] == [d] + [e];
  }

  lemma TailText(data: seq<Entry>, parsed: Option<string>, average: nat)
    ensures Flatten(TailWrites(data, parsed, average)) ==
      ((AverageLine(average) + UrlSection(data)) + ParsedSection(parsed)) + PreviewSection(data)
  {
    var a, u, p := [AverageLine(average)], UrlWrites(data), ParsedWrites(parsed);
    var v := ["## Content Preview\n\n"] + PreviewWrites(data);
    FlattenAppend(a + u + p, v);
    FlattenAppend(a + u, p);
    FlattenAppend(a, u);
    FlattenOne(AverageLine(average));
    UrlText(data);
    MidText(parsed);
    FlattenCons("## Content Preview\n\n", PreviewWrites(data));
    PreviewText(data);
  }

  lemma UrlText(data: seq<Entry>)
    ensures Flatten(UrlWrites(data)) == UrlSection(data)
  {
    var h, ls, n := "## Scraped URLs\n\n", UrlLines(data, 1), "\n";
    FlattenAppend([h] + ls, [n]);
    FlattenCons(h, ls);
    FlattenOne(n);
  }

  lemma MidText(parsed: Option<string>)
    ensures Flatten(ParsedWrites(parsed)) == ParsedSection(parsed)
  {
    if parsed.Some? && parsed.value != "" {
      var x := "## AI Parsed Results\n\n";
      FlattenCons(x, [parsed.value, "\n\n"]);
      FlattenCons(parsed.value, ["\n\n"]);
      FlattenOne("\n\n");
      assert [x, parsed.value, "\n\n"] == [x] + [parsed.value, "\n\n"];
      assert [parsed.value, "\n\n"] == [parsed.value] + ["\n\n"];
    }
  }

  /** The two writes per entry of the preview loop leave the entries'
      preview blocks, in order. */
  lemma {:induction false} PreviewText(data: seq<Entry>)
    ensures Flatten(PreviewWrites(data)) == Flatten(PreviewBlocks(data))
  {
    if |data| > 0 {
      var e := data[0];
      PreviewText(data[1..]);
      PairStep(PreviewHeading(e), PreviewBody(e), PreviewWrites(data[1..]), PreviewBlocks(data[1..]));
    }
  }

  lemma PairStep(h: string, b: string, writes: seq<string>, blocks: seq<string>)
    requires Flatten(writes) == Flatten(blocks)
    ensures Flatten([h, b] + writes) == Flatten([h + b] + blocks)
  {
    FlattenCons(h, [b] + writes);
    FlattenCons(b, writes);
    FlattenCons(h + b, blocks);
    assert [h, b] + writes == [h] + ([b] + writes);
  }

  /** The report lists the entries in map order: the URL list is line `i`
      for entry `i - 1`, and the preview section is the entries' blocks,
      each between the blocks of the entries before and after it. */
  lemma ReportEntryInOrder(data: seq<Entry>, i: nat)
    requires i < |data|
    ensures Flatten(UrlLines(data, 1)) ==
      Flatten(UrlLines(data, 1)[..i]) + UrlLine(i + 1, data[i].url) + Flatten(UrlLines(data, 1)[i + 1..])
    ensures Flatten(PreviewBlocks(data)) ==
      Flatten(PreviewBlocks(data)[..i]) + PreviewBlock(data[i]) + Flatten(PreviewBlocks(data)[i + 1..])
  {
    FlattenAt(UrlLines(data, 1), i);
    FlattenAt(PreviewBlocks(data), i);
  }
}
