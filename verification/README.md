# scropper core in Dafny

This project models the core of *scropper*, a website and social-media scraper written in Python. It covers four parts:

- **The site crawler** (`SmartWebScraper` in `scraper/web_scraper.py`). It classifies pages by URL path and cleans each rendered page into a text block. It mines each page for same-site links. Its breadth-first crawl loop has a FIFO queue, a visited set and a page budget. It also joins the stored pages into one text, best-scored first.
- **The chat and memory bookkeeping** (`scraper/ai_parser.py`):
  - `SuperMemory`: a list with case-insensitive search, capped at five hits;
  - `AIChat`: the message list sent to the language model and the history kept after each answer;
  - the prompts of `AIParser`.
- **The social-media helpers** (`scraper/social_scraper.py`):
  - the post and profile records and their text renderings;
  - platform detection and username extraction;
  - the early error returns of `scrape`;
  - the text assembled for the AI parser.
- **The exporter's string builders** (`scraper/exporter.py`):
  - the file-name sanitiser;
  - the CSV rows;
  - the Markdown and plain-text page blocks;
  - the summary report, whose average divides by the page count.

The browser, the HTML parser, URL resolution, the language-model provider, the social-network fetchers and the clock are foreign code. Each of them becomes a parameter of the operation that uses it:

- the renderer is `string -> Option<Markup>`;
- the resolver is `(current, href) -> (netloc, path)`;
- the provider is `seq<Message> -> Result<string, string>`;
- the fetchers are a record of functions;
- the clock is `nat -> string`.

Once those are fixed, every operation is deterministic, and the model states what it computes.

| file | module | models |
|---|---|---|
| wrappers.dfy | Wrappers | `Option` and `Result` |
| seqs.dfy | Seqs | slicing (`xs[:n]`, `xs[-n:]`), order-preserving de-duplication, filtering |
| text.dfy | Text | `strip`, `rstrip(c)`, `lower` (ASCII), `split(sep)`, `sep.join`, `split()` word runs |
| numbers.dfy | Numbers | decimal rendering of integers, with and without thousands separators |
| url.dfy | Url | how `urlparse` splits an `https` URL into netloc and path (query, fragment and last-segment `;params` removed), for the URLs the crawler builds and re-parses |
| page_classifier.dfy | PageClassifier | `get_page_type` |
| content_extractor.dfy | ContentExtractor | the title, line filter and header of `_extract_text` |
| link_discoverer.dfy | LinkDiscoverer | `_find_links` |
| crawl.dfy | CrawlEngine | `ScrapedPage`, `scrape_website`, `scrape_single_page` |
| content_assembly.dfy | ContentAssembly | `get_all_content` |
| ai_parser.dfy | AiParser | `SuperMemory`, `AIChat`, `AIParser` prompts |
| social.dfy | SocialScraper | `SocialPost`, `SocialProfile`, `SocialMediaScraper` helpers |
| exporter.dfy | Exporter | `DataExporter` and `ReportGenerator` string builders |

**How values are represented**

- Scores are integer hundredths: `0.85` is `85`.
- A Python `dict` that keeps insertion order is a sequence: pages keyed by URL, or URL/content entries.
- `value_score` sorting is modelled as a stable insertion sort.

## Model

| member | source | states |
|---|---|---|
| Seqs.Take | scraper/web_scraper.py:187 | `xs[:n]` has length `min(n, len(xs))`, is a prefix of `xs`, and is all of `xs` when `xs` is short enough |
| Seqs.LastN | scraper/ai_parser.py:101 | `xs[-n:]` has length `min(n, len(xs))` and is the matching suffix of `xs` |
| Seqs.Distinct | scraper/web_scraper.py:184-185 | the `clean not in links` de-duplication has no repeats, has exactly the elements of its input, and is no longer than it |
| Seqs.Without | scraper/web_scraper.py:263-265 | dropping the visited URLs keeps exactly the elements outside the set |
| Seqs.DistinctOrder | scraper/web_scraper.py:184-185 | de-duplication keeps first occurrences in their original order |
| Seqs.WithoutOrder | scraper/web_scraper.py:184 | dropping visited URLs keeps the relative order of the rest |
| Seqs.WithoutDisjoint | scraper/web_scraper.py:263-265 | filtering links that are already unvisited changes nothing, so the enqueue loop appends every mined link |
| Seqs.NoDupCard | scraper/web_scraper.py:213-217 | a list without repeats has as many distinct elements as entries (used to show the visited set grows by one per counted page) |
| Seqs.FlattenAppend | scraper/exporter.py:163-191 | the text a run of writes leaves is the text of its first part followed by that of the rest |
| Seqs.FlattenAt | scraper/exporter.py:176-191 | the text a run of writes leaves holds write `i` right after the text of the writes before it and right before that of the writes after it |
| Text.Lower | scraper/web_scraper.py:37 | lower-casing keeps the length and maps every character through the ASCII lower-case map |
| Text.LStrip | scraper/web_scraper.py:145 | the result is a suffix of the input, everything cut off is whitespace, and it does not start with whitespace |
| Text.RStrip | scraper/web_scraper.py:145 | the result is a prefix of the input, everything cut off is whitespace, and it does not end with whitespace |
| Text.Strip | scraper/web_scraper.py:145 | `str.strip()` is a contiguous piece of its input with no whitespace at either end, and everything cut off on either side is whitespace |
| Text.RStripChar | scraper/web_scraper.py:183 | `path.rstrip('/')` is a prefix of the path, only `/` characters are cut, and it does not end in `/` |
| Text.LStripChar | scraper/social_scraper.py:387 | the leading-`/` half of `path.strip("/")`: a suffix, only `/` cut, no leading `/` left |
| Text.StripChar | scraper/social_scraper.py:387 | `path.strip("/")` is a contiguous piece of the path that neither starts nor ends with `/`, and everything cut off on either side is `/` |
| Text.Split | scraper/web_scraper.py:144 | `text.split('\n')` yields at least one piece and no piece contains the separator |
| Text.JoinSplit | scraper/web_scraper.py:144-149 | joining the pieces of a split with the same separator gives back the text |
| Text.SplitJoin | scraper/web_scraper.py:144-149 | splitting a join of separator-free pieces gives back the pieces |
| Text.JoinAt | scraper/social_scraper.py:75 | `sep.join(parts)` is the join of the parts before any inner position, the separator, and the join of the parts from there on |
| Text.JoinAround | scraper/social_scraper.py:75 | in `sep.join(parts)` an inner part sits between separators, after the join of the parts before it and before the join of the parts after it |
| Text.Words | scraper/web_scraper.py:232 | `content.split()` yields non-empty runs of non-whitespace, the first starting at the first character when that is not whitespace |
| Text.WordsAppend | scraper/web_scraper.py:232 | a whitespace character separates words: the words of `a + ws + b` are the words of `a` followed by those of `b` |
| Text.SingleWord | scraper/web_scraper.py:232 | a non-empty run without whitespace is exactly one word |
| Text.WordsOfJoin | scraper/web_scraper.py:232 | joining non-empty space-free words with spaces and splitting again returns the words |
| Numbers.NatToString | scraper/exporter.py:170 | the decimal rendering of a count is non-empty, all digits, without a leading zero |
| Numbers.IntToString | scraper/social_scraper.py:66 | an integer field rendered in an f-string starts with `-` exactly when it is negative |
| Numbers.ParseNatToString | scraper/exporter.py:170 | reading the decimal rendering back gives the number |
| Numbers.GroupedDigits | scraper/exporter.py:171-172 | the `{n:,}` rendering with its commas removed is the plain decimal rendering |
| Url.ParseBack | scraper/web_scraper.py:171-183 | re-parsing `https://` + netloc + path, for parts as `urlparse` returns them with an empty or absolute path, gives back the netloc, and the path without the `;params` of its last segment |
| Url.CanonicalParts | scraper/web_scraper.py:183 | the cleaned link re-parses to the resolved netloc and to the resolved path without trailing `/` and without the `;params` of its last segment |
| Url.HomeParts | scraper/web_scraper.py:194-196 | the seed `https://` + base domain re-parses to the base domain as netloc and an empty path |
| Url.ReadWellFormed | scraper/web_scraper.py:35 | the netloc and path read from any `https` URL meet what `urlparse` guarantees of its parts |
| Url.ReadHttps | scraper/web_scraper.py:35 | `urlparse` of an `https` URL is a well-formed pair of the netloc and path read from the text |
| Url.UrlparseExists | scraper/web_scraper.py:35 | a parser that reads every `https` URL as `urlparse` does exists, so requiring one excludes no crawl |
| Url.SplitParams | scraper/web_scraper.py:35 | `urlparse` drops the parameters of the last path segment only: the path is cut at the first `;` after its last `/`, and a path with no such `;` is unchanged |
| Url.LastSegmentParams | scraper/web_scraper.py:35 | `/home;v=1` is read as the path `/home` |
| Url.InnerSegmentParams | scraper/web_scraper.py:35 | `/a;v=1/b` keeps the parameters of its inner segment |
| PageClassifier.Classify | scraper/web_scraper.py:35-54 | the score is one of 100, 90, 85, 80, 60, 50 and fixed by the type; the type is homepage exactly for `/`, ``, `/home`, `/index.html` after lower-casing; `other` paths contain neither `/blog` nor `/about` |
| PageClassifier.FirstMatch | scraper/web_scraper.py:39-54 | reference definition: the index of the first rule of the precedence table that matches, no earlier rule matching |
| PageClassifier.ClassifyIsFirstMatch | scraper/web_scraper.py:37-54 | the if/elif chain picks the type of the first matching row of the precedence table on the lower-cased path |
| PageClassifier.BlogAboutIsAbout | scraper/web_scraper.py:41-52 | `/blog/about-us` is classified as about (90), not blog, because the about rule comes first |
| PageClassifier.RootIsHomepage | scraper/web_scraper.py:39-40 | ``, `/`, `/Home` and `/INDEX.html` are the homepage with score 100 |
| PageClassifier.GetPageType | scraper/web_scraper.py:34-54 | `get_page_type(url)` classifies `urlparse(url).path`; `PageTypeOfUrl` states it for the path spelled in an `https` URL, and `HomeIsHomepage` for the seed |
| PageClassifier.PageTypeOfUrl | scraper/web_scraper.py:34-35 | for an `https` URL read as `urlparse` reads it, the type and score are those of the path spelled in the URL |
| PageClassifier.HomeIsHomepage | scraper/web_scraper.py:34-40 | the seed `https://{netloc}` is a homepage with score 1.0 |
| ContentExtractor.PageTitle | scraper/web_scraper.py:126-128 | the title is "Untitled" when the page has none, otherwise the first `min(100, len)` characters of the trimmed title text |
| ContentExtractor.CleanLines | scraper/web_scraper.py:143-147 | every kept line is trimmed and longer than 5 characters, and there are no more kept lines than input lines |
| ContentExtractor.CleanLinesComplete | scraper/web_scraper.py:143-147 | every line whose trimmed form is longer than 5 characters is kept, trimmed |
| ContentExtractor.CleanLinesSound | scraper/web_scraper.py:143-147 | every kept line is the trimmed form of some input line |
| ContentExtractor.CleanLinesSingleLine | scraper/web_scraper.py:144-147 | lines split at newlines stay free of newlines after trimming and filtering |
| ContentExtractor.BodyLines | scraper/web_scraper.py:136-147 | the lines kept from the body text are newline-free, trimmed and longer than 5 characters |
| ContentExtractor.JoinLinesRoundTrip | scraper/web_scraper.py:149 | `'\n'.join(lines)` of newline-free lines is empty for no lines, and splitting it at newlines gives the lines back |
| ContentExtractor.ExtractText | scraper/web_scraper.py:121-154 | the content is the header `=== title ===\nURL: url\n\n` followed by a body that is empty without kept lines and otherwise splits at newlines into exactly the kept lines |
| ContentExtractor.CountAppend | scraper/web_scraper.py:232 | the word count of two texts joined by whitespace is the sum of their counts |
| ContentExtractor.TailWordCount | scraper/web_scraper.py:152 | after the title, the header adds the words `===` and `URL:` and the URL's words before the body's |
| ContentExtractor.HeaderWordCount | scraper/web_scraper.py:231-232 | a page's word count is 3 plus the words of title, URL and body |
| ContentExtractor.ThinPage | scraper/web_scraper.py:232-237 | a page is rejected as too short exactly when title, URL and kept lines together hold fewer than 17 words |
| LinkDiscoverer.Candidate | scraper/web_scraper.py:161-183 | a kept href is not empty, `#…`, `javascript:`, `mailto:` or `tel:`; it resolves to the base domain, not to a file extension; it becomes `https://` + base + path without trailing `/`; and for a non-empty base domain that link re-parses to the base domain and to the path without its last segment's `;params` |
| LinkDiscoverer.Candidates | scraper/web_scraper.py:161-183 | all qualifying links are on the site (their netloc is the base domain when that is non-empty), at most one per href |
| LinkDiscoverer.Links | scraper/web_scraper.py:161-187 | `_find_links` returns at most 20 links, without repeats, none visited, all on the site, all qualifying links of the page |
| LinkDiscoverer.LinksDocumentOrder | scraper/web_scraper.py:161-187 | the returned links keep the order in which they first qualify in the document |
| LinkDiscoverer.LinksComplete | scraper/web_scraper.py:184-187 | the cap applies after de-duplication: the result has `min(20, distinct unvisited qualifying links)` entries, and below the cap every unvisited qualifying link is returned |
| LinkDiscoverer.CollectStep | scraper/web_scraper.py:161-185 | one iteration of the href loop appends the href's cleaned link when it qualifies, is unvisited and not yet collected |
| LinkDiscoverer.FindLinks | scraper/web_scraper.py:156-187 | the loop over the hrefs computes the functional definition of the links |
| CrawlEngine.MakePage | scraper/web_scraper.py:226-259 | the stored record has the URL, title and links count it was built with, the content `_extract_text` gives (starting with the page header), a word count equal to the content's, and the type and score `get_page_type(url)` gives |
| CrawlEngine.ScrapeSinglePage | scraper/web_scraper.py:276-305 | no page when loading fails; otherwise the URL, cleaned content, title and word count of the page, with the type and score `get_page_type` gives the lower-cased `urlparse` path of the URL, no links counted and no word threshold |
| CrawlEngine.SinglePageAgrees | scraper/web_scraper.py:296-305 | a page stored by the crawl is what `scrape_single_page` returns for its URL, except `links_found` |
| CrawlEngine.InitInv | scraper/web_scraper.py:194-201 | the reset state (queue holds only the home page, nothing visited or stored) satisfies the crawl invariant |
| CrawlEngine.SkipStep | scraper/web_scraper.py:211-214 | popping an already visited URL keeps the frontier invariant without counting it |
| CrawlEngine.VisitStep | scraper/web_scraper.py:211-217 | popping an unvisited URL adds it to the visited set and counts it once |
| CrawlEngine.EnqueueStep | scraper/web_scraper.py:263-265 | appending mined links to the back of the queue keeps the queue the unconsumed suffix of everything enqueued |
| CrawlEngine.RejectStep | scraper/web_scraper.py:225-239 | a URL that fails to load or has under 20 words is visited but not stored |
| CrawlEngine.AcceptStep | scraper/web_scraper.py:241-265 | a URL with at least 20 words is stored once, with the links mined from it, and those links go to the back of the queue |
| CrawlEngine.NotYetStored | scraper/web_scraper.py:213-216 | an unvisited URL has no stored page yet |
| CrawlEngine.AcceptRecords | scraper/web_scraper.py:250-260 | after storing, the pages are still one per URL and each is the record built from its own rendering |
| CrawlEngine.AcceptCovers | scraper/web_scraper.py:226-260 | after storing, a visited URL is stored exactly when it rendered with at least 20 words |
| CrawlEngine.AcceptHome | scraper/web_scraper.py:260 | if the home page is stored, it is the first page, mined while only it was visited |
| CrawlEngine.HomeFirst | scraper/web_scraper.py:201-211 | the first counted URL is the home page |
| CrawlEngine.HomeLinksNext | scraper/web_scraper.py:201-265 | breadth-first order: after the home page, its mined links are counted next, in order |
| CrawlEngine.MinedLinksUnvisited | scraper/web_scraper.py:184-187 | a stored page's links have no repeats and none was visited when it was mined |
| CrawlEngine.Enqueue | scraper/web_scraper.py:263-265 | the queue grows by the mined links not in the visited set, in their order |
| CrawlEngine.BudgetStep | scraper/web_scraper.py:209-222 | counting one more page below the budget keeps the count within `max_pages`; the callback gets `page_count - 1` |
| CrawlEngine.SkipInv | scraper/web_scraper.py:211-214 | skipping a visited URL keeps the whole crawl invariant |
| CrawlEngine.RejectInv | scraper/web_scraper.py:216-239 | counting a URL that is not kept keeps the whole crawl invariant |
| CrawlEngine.AcceptInv | scraper/web_scraper.py:216-265 | counting and storing a kept URL and enqueuing its links keeps the whole crawl invariant |
| CrawlEngine.OriginStep | scraper/web_scraper.py:263-265 | everything ever enqueued stays on the crawled site |
| CrawlEngine.CrawlStep | scraper/web_scraper.py:210-268 | one loop iteration keeps the invariant and either counts one more URL or shortens the queue without counting |
| CrawlEngine.VisitNew | scraper/web_scraper.py:216-239 | after popping an unvisited URL, the invariant holds again with exactly one more URL counted, whether the page is dropped or kept |
| CrawlEngine.Keep | scraper/web_scraper.py:241-265 | storing a kept page and enqueuing its unvisited links keeps the invariant and counts one URL |
| CrawlEngine.Crawl | scraper/web_scraper.py:199-268 | the loop starts from the reset state, keeps the invariant, and once the queue is empty or the budget spent leaves what `Settled`, `MarkOutcome` and `SeenOutcome` name |
| CrawlEngine.KeptUrls | scraper/web_scraper.py:225-260 | reference definition of the stored order: the counted URLs that render with at least 20 words, in counting order |
| CrawlEngine.KeptSnoc | scraper/web_scraper.py:216-260 | counting one more URL extends the kept URLs by it exactly when it is kept |
| CrawlEngine.OrderReject | scraper/web_scraper.py:225-239 | a dropped URL leaves the stored pages equal to the kept URLs of the longer count |
| CrawlEngine.OrderAccept | scraper/web_scraper.py:250-260 | a stored page goes after the pages stored before it, so the stored pages stay the kept URLs in counting order |
| CrawlEngine.QueueVisit | scraper/web_scraper.py:211-222 | the queue length reported for a newly counted URL is everything enqueued so far minus everything popped, this URL included |
| CrawlEngine.QueueKept | scraper/web_scraper.py:221-222 | counting a URL leaves the reported queue lengths of earlier URLs accounted for |
| CrawlEngine.QueueGrow | scraper/web_scraper.py:263-265 | enqueuing a page's links leaves the reported queue lengths of earlier URLs accounted for |
| CrawlEngine.MarkFacts | scraper/web_scraper.py:221-222 | every reported queue length is the number of URLs enqueued before that visit (the home page and the links of the pages stored by then) minus the number popped |
| CrawlEngine.SeenKept | scraper/web_scraper.py:216 | counting one more URL leaves the visited set recorded for every earlier kept URL unchanged: the URLs counted up to and including it |
| CrawlEngine.SeenAtKept | scraper/web_scraper.py:216 | the visited-set record of one earlier counted URL survives counting another URL |
| CrawlEngine.SeenReject | scraper/web_scraper.py:216-239 | a dropped URL keeps the visited-set record of every kept URL |
| CrawlEngine.SeenAccept | scraper/web_scraper.py:216-246 | a stored page's links are mined while the visited set is exactly the URLs counted so far, this one included, and every earlier record stays |
| CrawlEngine.SeenAtNew | scraper/web_scraper.py:216-246 | the newly stored page's record is the visited set over the whole count, this URL included |
| CrawlEngine.VisitedCounted | scraper/web_scraper.py:216 | the visited set is exactly the set of counted URLs |
| CrawlEngine.SeenFacts | scraper/web_scraper.py:216-246 | when the loop stops, every kept URL's stored page was mined with the visited set equal to the URLs counted up to and including it; if the home page was stored, its visited set was `{home}` |
| CrawlEngine.SettledFacts | scraper/web_scraper.py:209-271 | the crawl invariant together with the stop condition gives everything `Settled` names |
| CrawlEngine.TypedFacts | scraper/web_scraper.py:241-259 | when `urlparse` reads `https` URLs as it does, every stored page's type and score are those of the path spelled in its URL, and a stored seed page is first and a homepage worth 1.0 |
| CrawlEngine.PagesSameOrigin | scraper/web_scraper.py:174-175 | every stored page is on the crawled site (its netloc is the base domain when that is non-empty) |
| CrawlEngine.VisitedSameOrigin | scraper/web_scraper.py:174-175 | every URL taken from a queue of on-site links is on the site |
| CrawlEngine.FrontierFacts | scraper/web_scraper.py:209-217 | when the loop stops, the home page was counted first (if the budget allows any page), no URL was counted twice, and below the budget every enqueued URL was visited |
| CrawlEngine.CrawlFacts | scraper/web_scraper.py:209-271 | what the loop guarantees on exit: home page first, each URL counted once, stored pages same-site, the home page's links next in order, closure under discovered links below the budget |
| CrawlEngine.ScrapeWebsite | scraper/web_scraper.py:189-271 | `scrape_website`: the base domain is the `urlparse` netloc of the start URL. At most `max_pages` URLs are counted, home page first, each once, with callback numbers 0, 1, …. The counted URLs are the visited set. Stored pages are one per URL, on the site, each the record of its own rendering with at least 20 words, in the order their URLs were counted. A visited URL is stored exactly when it has 20 words. The order is breadth-first over a FIFO queue. Each callback's queue length is what was enqueued before that visit minus what was popped. Each stored page's links were mined with the visited set equal to the URLs counted up to and including that page, and the home page's with the home page alone. With `urlparse` reading `https` URLs as it does, each stored page's type and score are those of the path spelled in its URL, and a stored home page comes first as a homepage with score 1.0. Below the budget, every discovered link is visited |
| ContentAssembly.Insert | scraper/web_scraper.py:313 | inserting into a list sorted by non-increasing score keeps it sorted and adds exactly that page |
| ContentAssembly.SortByScore | scraper/web_scraper.py:313 | the sort yields a permutation of the pages in non-increasing score order |
| ContentAssembly.InsertWithScore | scraper/web_scraper.py:313 | an inserted page goes after every page of its own score |
| ContentAssembly.SortStable | scraper/web_scraper.py:313 | stability: for every score, the pages of that score keep their insertion order |
| ContentAssembly.Parts | scraper/web_scraper.py:312-315 | the parts list holds two entries per page |
| ContentAssembly.GetAllContent | scraper/web_scraper.py:310-316 | no pages give the empty string |
| ContentAssembly.Blocks | scraper/web_scraper.py:315 | one block per page |
| ContentAssembly.JoinParts | scraper/web_scraper.py:316 | joining content and separator parts is joining per-page blocks "content, newline, separator" |
| ContentAssembly.AllContentBlocks | scraper/web_scraper.py:310-316 | the assembled text is the blocks of the sorted pages; every page appears once and equal-score pages keep insertion order |
| ContentAssembly.TopPageFirst | scraper/web_scraper.py:313-316 | the text starts with the block of a stored page whose score is the highest |
| AiParser.EmptyMemory | scraper/ai_parser.py:49-51 | a new memory holds no entries |
| AiParser.Add | scraper/ai_parser.py:56-57 | `add` appends exactly the given entry and keeps the earlier ones |
| AiParser.Clear | scraper/ai_parser.py:67-68 | `clear` leaves no entries |
| AiParser.Hits | scraper/ai_parser.py:59-64 | the uncapped hits are exactly the memories containing the query case-insensitively |
| AiParser.HitsStep | scraper/ai_parser.py:62-64 | one loop iteration appends the memory when it matches |
| AiParser.Search | scraper/ai_parser.py:59-65 | the loop and the cut return the first five hits in insertion order |
| AiParser.SearchSpec | scraper/ai_parser.py:59-65 | search returns at most 5 matching memories, a prefix of all hits, and all of them when there are at most 5 |
| AiParser.EmptyQueryHitsAll | scraper/ai_parser.py:61-64 | the empty query matches every memory |
| AiParser.AddThenHits | scraper/ai_parser.py:56-64 | after `add`, the hits are the old hits plus the new entry if it matches |
| AiParser.NewChat | scraper/ai_parser.py:72-79 | a new chat has empty history and holds the content in memory once when it is non-empty, and not at all otherwise |
| AiParser.SetContext | scraper/ai_parser.py:81-83 | `set_context` replaces the content and appends it to memory, keeping history |
| AiParser.SystemPromptData | scraper/ai_parser.py:89-98 | the data section of the system prompt is the first `min(30000, len)` characters of the content |
| AiParser.Request | scraper/ai_parser.py:100-102 | the request is the system prompt, the last at most 10 history entries, then the user message: between 2 and 12 messages |
| AiParser.Chat | scraper/ai_parser.py:85-110 | without a key: the fixed error and nothing changes. On failure: "Error: " + message and history unchanged. On success: the reply, with history extended by the user message then the reply. Content and memory never change |
| AiParser.ClearChat | scraper/ai_parser.py:112-113 | `clear` empties history only |
| AiParser.ChatKeepsAlternating | scraper/ai_parser.py:104-113 | history stays a sequence of user/assistant pairs through `chat`, `clear` and `set_context` |
| AiParser.WindowStartsWithUser | scraper/ai_parser.py:100-107 | the history window sent with a request is itself alternating, starting with a user message |
| AiParser.WindowAlternating | scraper/ai_parser.py:101 | the last 10 entries of an alternating history are alternating |
| AiParser.ChatHistoryLength | scraper/ai_parser.py:104-110 | history grows by exactly two entries when the provider answers, and not at all otherwise |
| AiParser.PromptSeesPrefix | scraper/ai_parser.py:120-130 | each `AIParser` prompt depends only on the first 25000 characters of the content and embeds exactly them between its fixed head and tail |
| SocialScraper.NewPost | scraper/social_scraper.py:25-50 | omitted counts are 0 and omitted media, hashtags, mentions and raw data are empty, never missing |
| SocialScraper.NewProfile | scraper/social_scraper.py:78-96 | omitted counts are 0, omitted strings empty, verification false and raw data empty |
| SocialScraper.PostLinesNoNewline | scraper/social_scraper.py:57-73 | for single-line fields, every line of a post's text is newline-free |
| SocialScraper.PostTextLines | scraper/social_scraper.py:55-75 | for fields without newlines: a post's text splits into 9 lines plus one for non-empty hashtags and one for non-empty mentions; it shows "Unknown" for a missing or empty timestamp; and the content sits on line 7 |
| SocialScraper.PostTextAroundContent | scraper/social_scraper.py:55-75 | for any fields: a post's text is the six header lines from `Platform:` to `Content:`, a newline, the content as given, a newline, and the remaining lines with the optional hashtags and mentions |
| SocialScraper.PostText | scraper/social_scraper.py:55-75 | `SocialPost.to_text`: the lines joined by newlines, laid out as `PostTextAroundContent` and `PostTextLines` state |
| SocialScraper.ProfileLinesNoNewline | scraper/social_scraper.py:104-117 | for single-line fields, every line of a profile's text is newline-free |
| SocialScraper.ProfileTextLines | scraper/social_scraper.py:101-119 | for fields without newlines: a profile's text has the verified mark after the username exactly when verified, the bio on line 7, and a 10th line with the website exactly when it is non-empty |
| SocialScraper.ProfileTextAroundBio | scraper/social_scraper.py:101-119 | for any fields: a profile's text is the six header lines (with the verified mark exactly when verified) up to `Bio:`, a newline, the bio as given, a newline, and the remaining lines with the website line exactly when it is non-empty |
| SocialScraper.ProfileText | scraper/social_scraper.py:101-119 | `SocialProfile.to_text`: the lines joined by newlines, laid out as `ProfileTextAroundBio` and `ProfileTextLines` state |
| SocialScraper.FirstHit | scraper/social_scraper.py:365-382 | reference definition: the first platform of the precedence list whose domain patterns occur in the netloc |
| SocialScraper.DetectIsFirstHit | scraper/social_scraper.py:365-382 | `detect_platform` returns the first platform in the order instagram, facebook, twitter, linkedin, tiktok, youtube whose pattern occurs in the lower-cased netloc, and None exactly when none occurs |
| SocialScraper.BoxIsTwitter | scraper/social_scraper.py:373-374 | matching is by substring: `box.com` contains `x.com` and is detected as twitter |
| SocialScraper.ExtractUsername | scraper/social_scraper.py:384-404 | a username is returned exactly for instagram, twitter and facebook; it is the part of the stripped path before the first `/` |
| SocialScraper.SplitHead | scraper/social_scraper.py:391-392 | the first piece of a split is the prefix up to the first separator |
| SocialScraper.UsernameRoundTrip | scraper/social_scraper.py:386-392 | the username of `/u` and of `/u/` is `u` |
| SocialScraper.EmptyPathEmptyUsername | scraper/social_scraper.py:387-392 | an empty or all-`/` path gives the empty username, not None |
| SocialScraper.PostTexts | scraper/social_scraper.py:433 | one text per post, in order |
| SocialScraper.Scrape | scraper/social_scraper.py:406-447 | unsupported-platform error when no platform is detected. Username error when the username is None or empty. Otherwise: the platform, the username and the profile from that platform's fetcher, with posts exactly for instagram with a profile when posts are requested |
| SocialScraper.ProfileUrlReachesFetcher | scraper/social_scraper.py:413-428 | a URL with path `/u` on instagram, facebook or twitter gets past both error returns with username `u` |
| SocialScraper.GetScrapedText | scraper/social_scraper.py:449-461 | a result with neither text entry gives the empty string |
| SocialScraper.ScrapedTextSections | scraper/social_scraper.py:449-461 | the text starts with the profile header exactly when there is a profile text; the profile section precedes the posts section; each appears only when present |
| Exporter.Sanitize | scraper/exporter.py:24 | the safe name has the same length, only letters, digits, `-` and `_`, keeps those characters and turns every other character into `_` |
| Exporter.SanitizeIdempotent | scraper/exporter.py:24 | sanitising twice is sanitising once, and a name is unchanged exactly when it is already safe |
| Exporter.FilenameStaysInDir | scraper/exporter.py:21-25 | the generated path is the output directory, `/`, and a leaf without `/` that starts with the safe name and `_` |
| Exporter.GenerateFilename | scraper/exporter.py:21-25 | `_generate_filename` for a normalised output directory: `FilenameStaysInDir` states that the file lands directly in it, named by the safe name and `_` |
| Exporter.Truncate | scraper/exporter.py:52 | the written content is the prefix of length `min(len, limit)` |
| Exporter.CsvRows | scraper/exporter.py:48-53 | a header row `URL, Content` and one row per entry |
| Exporter.CsvRowOfEntry | scraper/exporter.py:50-53 | row i+1 holds entry i's URL and the first `min(len, 32000)` characters of its content |
| Exporter.CsvBody | scraper/exporter.py:50-53 | one row per entry, in order, each the URL and its truncated content |
| Exporter.MarkdownView | scraper/exporter.py:91-98 | a Markdown page shows its number and URL, the first `min(len, 5000)` characters, and the full length exactly when the content exceeds 5000 |
| Exporter.MarkdownPages | scraper/exporter.py:91-98 | pages are numbered consecutively from the start number in entry order |
| Exporter.TruncationVisible | scraper/exporter.py:95-100 | a rendered Markdown page ends with the truncation note exactly when the content exceeds 5000 characters |
| Exporter.ToMarkdown | scraper/exporter.py:81-102 | `to_markdown`'s file text: `MarkdownEntryInOrder` places every entry's section in map order behind the heading, `MarkdownView` fixes what a section shows, `TruncationVisible` when it is cut |
| Exporter.MarkdownEntryInOrder | scraper/exporter.py:86-100 | the Markdown file is its heading with the page count, then entry `i`'s section, numbered `i + 1`, between the sections of the entries before and after it |
| Exporter.TextPages | scraper/exporter.py:114-119 | text blocks are numbered consecutively from the start number in entry order |
| Exporter.TextPageHoldsContent | scraper/exporter.py:114-119 | a text block is its heading, the whole untruncated content, and an 84-character trailer |
| Exporter.ToText | scraper/exporter.py:104-121 | `to_text`'s file text: `TextEntryInOrder` places every entry's block in map order behind the heading, and `TextPageHoldsContent` keeps each content whole |
| Exporter.TextEntryInOrder | scraper/exporter.py:109-119 | the text file is its heading with the page count, then entry `i`'s block, numbered `i + 1`, between the blocks of the entries before and after it |
| Exporter.Preview | scraper/exporter.py:190 | the preview is the content when at most 500 characters, otherwise its first 500 characters plus `...`; never more than 503 |
| Exporter.Summarize | scraper/exporter.py:169-172 | no summary for empty data; otherwise the page count, the total, and the floor of total over pages |
| Exporter.SummaryReport | scraper/exporter.py:163-191 | the report fails with a division by zero exactly for empty data, after writing the heading and the zero counts. Otherwise it is the heading, the counts, the average line with the summary's floor average, the numbered URL section, the AI section exactly when the parsed results are non-empty, and the preview section |
| Exporter.UrlLines | scraper/exporter.py:176-177 | one line per entry, line `i` being the number `from + i`, `. ` and entry `i`'s URL |
| Exporter.PreviewBlocks | scraper/exporter.py:188-191 | one block per entry, in order, each the entry's URL heading and its preview |
| Exporter.HeadText | scraper/exporter.py:164-171 | the first five writes leave the heading, the generation stamp, the summary heading and the two counts |
| Exporter.TailText | scraper/exporter.py:172-191 | the writes after the counts leave the average line, the URL section, the AI section and the preview section, in that order |
| Exporter.UrlText | scraper/exporter.py:175-178 | the URL section's writes leave its heading, the numbered lines and a blank line |
| Exporter.MidText | scraper/exporter.py:181-184 | the AI section's writes leave nothing for absent or empty results and otherwise the heading, the results and a blank line |
| Exporter.PreviewText | scraper/exporter.py:188-191 | the two writes per entry of the preview loop leave the entries' preview blocks in order |
| Exporter.ReportEntryInOrder | scraper/exporter.py:175-191 | entry `i` is listed as URL line `i + 1` and previewed between the entries before and after it |

## Left out

- Selenium (`_create_driver`, `_load_page`, `_close_driver`, scroll scripts and waits): replaced by the renderer parameter. A load that raises is the renderer returning `None`.
- BeautifulSoup parsing and element removal: the renderer hands back the title, the body text after noise removal, and the hrefs in document order.
- `urljoin` and `urlparse`: a resolver parameter returns the `(netloc, path)` split of a resolved link, and a `UrlParser` parameter is `urlparse` reduced to netloc and path. Both are constrained only by what `urlparse` guarantees of the two parts. The crawl requires its parser to read every `https` URL as `urlparse` does (`Url.ReadsLikeUrlparse`, built on `Url.Authority` and `Url.PathOf`); on other strings it is constrained only by what `urlparse` guarantees of its parts. The `ValueError` `urlparse` raises for a malformed IPv6 bracket is not modelled.
- CrawlEngine.ScrapeWebsite: promises that stored pages are on the site only for a non-empty base domain. With an empty base domain a link without a netloc passes the netloc test, and its cleaned form can name another host.
- SocialScraper.PostTextLines: states the line-by-line layout only for fields without newlines, because a newline inside a field adds lines. `PostTextAroundContent` states the layout for any fields.
- SocialScraper.ProfileTextLines: states the line-by-line layout only for fields without newlines, because a newline inside a field adds lines. `ProfileTextAroundBio` states the layout for any fields.
- `QuickScraper`: an HTTP fetch plus a parser library, with no logic of its own.
- `time.strftime`, `datetime.now` and the `print` logging: timestamps are a clock parameter or a string argument. Logging has no effect on state.
- `time.sleep` delays: they have no effect on state.
- Unicode case folding and `str.isalnum`: `lower` and `isalnum` are modelled on ASCII only. Whitespace is Python's `str.isspace` set.
- Float arithmetic on `value_score`: modelled as integer hundredths.
- Exceptions other than the ones the code catches: not modelled.
- Python `dict`s are insertion-ordered sequences. Repeated URLs, which a dict cannot hold, are not excluded in the exporter's entry lists.
- Exporter.GenerateFilename: joins the directory and the leaf with one `/`, which is what `Path`'s `/` gives for a non-empty directory without a trailing `/`, such as the default `exports` every caller uses. `Path("")` would give the bare leaf, and `Path("exports/")` a single separator.
- CrawlEngine.ScrapeSinglePage: does not model that `scrape_single_page` overwrites the scraper's `base_domain`. It returns only the page.
- The Groq client, the model name, temperature and token limit, and `.env` loading: the provider is a parameter and the API key an availability flag. `is_groq_configured`, `is_supermemory_configured` and the SuperMemory API key only read the environment.
- AiParser.Ask: has no contract of its own. What it sends is stated by `AiParser.PromptSeesPrefix`; the answer is the provider's.
- The Instagram, Facebook and Twitter fetchers and their hashtag extraction: network, Selenium and instaloader code, passed to `Scrape` as functions.
- `to_dict` / `asdict`: a record is its own dictionary. `raw_data` values are modelled as strings.
- SocialScraper.Scrape: returns the records themselves instead of their dictionaries. The `profile_text` and `posts_text` entries are derived from them by `ProfileTextEntry` and `PostsTextEntry`.
- SocialScraper.DetectPlatform: its contract is stated by `DetectIsFirstHit` against the reference `FirstHit`.
- SocialScraper.GetScrapedText: takes the two optional text entries rather than the whole dictionary.
- File writing, `mkdir`, CSV quoting, JSON export, `save_session`, `load_session` and the pandas Excel export: I/O and library behaviour. The model stops at the strings and rows that would be written.
- The Streamlit applications, the test script and the package `__init__`: UI and re-exports.
