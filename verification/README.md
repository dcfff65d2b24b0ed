# Pagination scraping engine — a Dafny model

This project models the Python scraping engine of the scrappy backend,
`backend/python/pagination_scraper.py`. The Node server runs it as a
subprocess with a URL and some flags. It scrapes one page, or it follows a
site's pagination and combines the pages into one result, and prints that
result as JSON. The model covers four parts:

- **Pagination-link detection** (`find_pagination_links`, modules `Ranking` and
  `Selection`). Each `<a>` link of a page gets an additive confidence from fixed
  tests. Links that are blank or carry an exclusion mark are skipped, and so is
  the page's own URL. A URL reached by several links keeps its best score.
  Buttons and forms then add URLs not yet present with fixed scores 8 and 6.
  The URL → score table is an insertion-ordered dict. It is stably sorted by
  score, highest first, and at most three URLs scoring at least 5 are returned.
- **The crawl loop** (the `while` loop of `scrape_with_pagination`, module
  `Crawl`). The loop keeps a visited set, a page counter and the pages scraped.
  It picks the next URL among each page's pagination links: the first one whose
  anchor text says "next", else the best-scored one. A failure on the first page
  is returned as the error. A later failure ends the walk with the pages
  gathered so far.
- **The merge** (the rest of `scrape_with_pagination`, module `Merge`). Page
  texts are joined under numbered headers with a PAGE BREAK separator. The
  pages' JSON objects are merged key by key, and a repeated key collects its
  values in a list. `pagination_info` and the pagination metadata are attached.
  Media and links are unioned, the last page winning.
- **The command line** (`main`, module `Cli`). It reads the URL, `--pagination`,
  `--max-pages=N` and the extraction strategy: the first other argument that
  decodes to a true JSON value, or else the last one that decodes. A missing URL or a bad page limit gives an error and exit status 1.

The loops of the source are Dafny methods with loop invariants:

- `Ranking.RankAnchors`, `Ranking.AddButtonLinks`, `Ranking.AddFormLinks`;
- `Crawl.FollowPages`, `Crawl.ChooseNext`;
- `Merge.CombineResults`, `Merge.MergeJson`, `Merge.MergeFields`;
- `Cli.ParseArgs`.

Each is proved equal to a specification function: `LinkTable`, `AddMissing`,
`WalkFrom`, `NextLink`, `Combine`, `MergeItems`, `Parse`. The properties are
then proved about those functions as lemmas.

Python's libraries are not modelled. The regular-expression searches and
`re.findall` extractions, `str.lower`, `str.isdigit`, `int()`, `json.loads` and
`urljoin` (reference resolution, section 5.2 of RFC 3986) are fields of the
record `Lib.Lib`. No property of the model assumes anything about them. The
string operations the engine's logic depends on are written out in module
`Text`:

- `str.strip` with Python's whitespace set;
- `str.replace`, `in` and `startswith`;
- `str.join`;
- decimal formatting;
- `split("=")`.

Python dicts are lists of items in insertion order (module `Dicts`), because
that order decides ties in the sort and the order of the merged output.
Scraping one URL is the parameter `Crawl.Site`: whether the crawling library
is installed, and what scraping a URL with a strategy gives once it is.

The Node server that launches the engine (its admission control, circuit
breaker and subprocess timeouts) is not part of this model.

## Model

| member | source | states |
|---|---|---|
| Dicts.Find | backend/python/pagination_scraper.py:281-285 | `url in candidates`: the position found holds the key and no earlier item does; nothing is found exactly when no item has the key |
| Dicts.Set | backend/python/pagination_scraper.py:282-285 | `candidates[url] = score`: the key then maps to the value and every other key keeps its value; an existing key keeps its place, a new one goes last; keys stay distinct |
| Dicts.Keys | backend/python/pagination_scraper.py:321 | the URLs of a list of items, in order |
| Text.TrimLeftFacts | backend/python/pagination_scraper.py:205-210 | left strip keeps the suffix that starts at the first non-whitespace character and drops only whitespace |
| Text.TrimRightFacts | backend/python/pagination_scraper.py:205-210 | right strip keeps the prefix that ends at the last non-whitespace character and drops only whitespace |
| Text.Strip | backend/python/pagination_scraper.py:205-210 | `str.strip()`: the left strip, then the right strip; what it keeps is stated by `Text.TrimLeftFacts`, `Text.TrimRightFacts` and `Text.StripEmptyIffBlank` |
| Text.StripEmptyIffBlank | backend/python/pagination_scraper.py:205-206 | `not href.strip()` holds exactly when the href is all whitespace |
| Text.Contains | backend/python/pagination_scraper.py:382 | `sub in s`, by scanning; `Text.ContainsIffOccurs` states what it means |
| Text.ContainsIffOccurs | backend/python/pagination_scraper.py:312 | `sub in s` holds exactly when `sub` starts at some index of `s` |
| Text.Replace | backend/python/pagination_scraper.py:219 | `str.replace(pat, rep)`, every non-overlapping occurrence left to right; stated by `Text.ReplaceAbsent` and `Text.ReplaceFirst` |
| Text.ReplaceAbsent | backend/python/pagination_scraper.py:219 | `replace` leaves a string without the pattern unchanged |
| Text.FirstOccurrence | backend/python/pagination_scraper.py:219 | a pattern that occurs has a first occurrence, so `Text.ReplaceFirst` applies whenever it occurs |
| Text.ReplaceFirst | backend/python/pagination_scraper.py:219 | at the first occurrence, `replace` keeps the text before it, puts the replacement in its place and goes on with the text after it |
| Text.Join | backend/python/pagination_scraper.py:415-417 | `sep.join(parts)`; where each part lands is stated by `Text.JoinAt`, `Text.JoinPrefix` and `Text.JoinSnoc` |
| Text.JoinPrefix | backend/python/pagination_scraper.py:415-417 | the first k parts joined begin the joined string, and a separator follows them when parts remain |
| Text.JoinAt | backend/python/pagination_scraper.py:415-417 | the joined string holds every part in order at its offset, with the separator between neighbours and nothing after the last part |
| Text.JoinPartAt | backend/python/pagination_scraper.py:415-417 | part i of the join sits at its offset |
| Text.JoinSnoc | backend/python/pagination_scraper.py:415-417 | joining one more part appends the separator and that part |
| Text.NatToString | backend/python/pagination_scraper.py:407 | `f"{i + 1}"` is a non-empty digit string without a leading zero |
| Text.NatToStringRoundTrip | backend/python/pagination_scraper.py:407 | the formatted page number reads back as the number |
| Text.Before | backend/python/pagination_scraper.py:486 | `s.split(c)` element: the longest prefix without `c`, followed by `c` or the end |
| Seqs.FirstWhere | backend/python/pagination_scraper.py:215-221 | the index where a `for x in s: if test(x): ...; break` loop stops, within the sequence; used by the keyword, URL-shape and button loops and the next-link loop (:374-387) |
| Seqs.FirstWhereFacts | backend/python/pagination_scraper.py:374-387 | the element found passes the test and no earlier one does; none is found exactly when no element passes |
| Ranking.FirstMatching | backend/python/pagination_scraper.py:215-221 | the `for ... if re.search: ... break` loop finds that first matching pattern |
| Ranking.LinkConfidence | backend/python/pagination_scraper.py:212-259 | the scoring loops compute the fixed sum: +10 first keyword (+5 exact), +8 digits (+3 for 2..10), +5 one URL shape, +15 rel=next, +7 nav class, each at most once |
| Ranking.KeywordConfidence | backend/python/pagination_scraper.py:215-221 | the keyword loop gives +10 at the first keyword pattern found and +5 more when the text is exactly that keyword |
| Ranking.ExactForm | backend/python/pagination_scraper.py:219 | the text a keyword must equal for the +5 bonus: the pattern with `\s*` replaced by a space and `\d+` removed, then stripped |
| Ranking.Points | backend/python/pagination_scraper.py:212-259 | the confidence of one link as the sum of its signals; `Ranking.LinkConfidence` proves the scoring loops compute it and `Ranking.PointsRange` bounds it |
| Ranking.ShouldExclude | backend/python/pagination_scraper.py:262-276 | the exclusion loop is true exactly when some mark occurs in the lower-cased href or text |
| Ranking.Excluded | backend/python/pagination_scraper.py:262-276 | some exclusion mark occurs in the lower-cased href or text; `Ranking.ShouldExclude` proves the loop computes exactly this |
| Ranking.Eligible | backend/python/pagination_scraper.py:205-278 | a link strategy 1 keeps: its href is not blank (:205-206), it carries no exclusion mark (:262-276) and its confidence is positive (:278) |
| Ranking.PointsRange | backend/python/pagination_scraper.py:212-259 | a link scores 0 or between 5 and 53 |
| Ranking.LinkStep | backend/python/pagination_scraper.py:278-285 | one kept link entered in the table: a new URL other than the page's own is added, a known one keeps the higher confidence |
| Ranking.LinkTable | backend/python/pagination_scraper.py:204-285 | the strategy-1 table has each URL once |
| Ranking.Best | backend/python/pagination_scraper.py:283-285 | the largest confidence any kept link offers for a URL, attained by one of them when positive |
| Ranking.LinkTableLookup | backend/python/pagination_scraper.py:278-285 | strategy 1 never enters the base URL; any other URL maps to the best confidence its kept links offer, whatever their order |
| Ranking.RankLink | backend/python/pagination_scraper.py:204-285 | one iteration of the link loop is one step of the strategy-1 table |
| Ranking.EnterLink | backend/python/pagination_scraper.py:278-285 | a kept link enters the table as strategy 1 says: a new URL other than the page's own is added, a known one keeps the higher confidence |
| Ranking.RankAnchors | backend/python/pagination_scraper.py:201-285 | the link loop builds the strategy-1 table over all matched anchors |
| Ranking.AddMissing | backend/python/pagination_scraper.py:301-302 | adding URLs only when absent keeps the keys distinct |
| Ranking.AddMissingLookup | backend/python/pagination_scraper.py:301-302 | strategies 2 and 3 never change a score already present; an added URL gets the fixed score |
| Ranking.ButtonTarget | backend/python/pagination_scraper.py:291-302 | the URL a button contributes: its onclick target joined to the page URL, when its cleaned, lower-cased text holds a keyword |
| Ranking.AddButton | backend/python/pagination_scraper.py:289-303 | one button adds its onclick target with score 8 when its text holds a keyword and the table does not have it yet |
| Ranking.AddButtonLinks | backend/python/pagination_scraper.py:288-303 | the button loop adds, with score 8, each onclick target of a button whose text holds a keyword |
| Ranking.FormTarget | backend/python/pagination_scraper.py:310-313 | the URL a form contributes: its action with `&` or `?` (by whether it holds `?`) and `page=<value>`, when the value is a non-empty digit string |
| Ranking.AddFormLinks | backend/python/pagination_scraper.py:306-315 | the form loop adds, with score 6, each action with `page=<digits>` appended |
| Ranking.CandidateTable | backend/python/pagination_scraper.py:195-315 | the finished candidate table has each URL once |
| Ranking.AssessedAtLeastFive | backend/python/pagination_scraper.py:212-278 | every link strategy 1 keeps offers a confidence of at least 5 |
| Ranking.CandidateTableLookup | backend/python/pagination_scraper.py:195-315 | a URL's final score is its best strategy-1 score, else 8 if a button names it, else 6 if a form yields it; otherwise it is absent |
| Ranking.CandidateScoresAtLeastFive | backend/python/pagination_scraper.py:278-321 | every score in the table is at least 5 |
| Ranking.FindPaginationLinks | backend/python/pagination_scraper.py:184-321 | at most 3 URLs, no duplicates, each in the table with score ≥ 5, in non-increasing score order; a table URL is missing only when three URLs scoring no less are returned |
| Selection.SortIsSorted | backend/python/pagination_scraper.py:318 | the sort orders by score, highest first |
| Selection.SortIsPermutation | backend/python/pagination_scraper.py:318 | the sort is a permutation of the table's items |
| Selection.SortElements | backend/python/pagination_scraper.py:318 | the sort keeps the length and exactly the items of the table |
| Selection.SortIsStable | backend/python/pagination_scraper.py:318 | items of equal score keep their insertion order (Python's sort is stable) |
| Selection.SortByScore | backend/python/pagination_scraper.py:318 | `sorted(items, key=score, reverse=True)` as an insertion sort; `Selection.SortIsSorted`, `Selection.SortIsPermutation` and `Selection.SortIsStable` state that it is Python's stable descending sort |
| Selection.SortKeepsKeysDistinct | backend/python/pagination_scraper.py:318 | sorting a dict's items keeps each URL once |
| Selection.AtLeastElements | backend/python/pagination_scraper.py:321 | the `if confidence >= 5` filter keeps exactly the items scoring at least 5 |
| Selection.AtLeastKeepsAll | backend/python/pagination_scraper.py:321 | the filter keeps everything when every score passes |
| Selection.AtLeastKeepsOrder | backend/python/pagination_scraper.py:321 | the filter keeps sortedness and distinct URLs |
| Selection.SelectedFacts | backend/python/pagination_scraper.py:318-321 | the selected items: at most 3, distinct, sorted, from the table with score ≥ 5; an omitted qualifying item implies three selected scoring no less |
| Selection.Selected | backend/python/pagination_scraper.py:317-321 | the first three sorted items, then the `>= 5` filter; stated by `Selection.SelectedFacts` |
| Selection.TopCandidatesFacts | backend/python/pagination_scraper.py:317-321 | the returned URLs: at most 3, distinct, each with table score ≥ 5, non-increasing, and a qualifying URL is left out only behind three that score no less |
| Selection.TopCandidates | backend/python/pagination_scraper.py:321 | the URLs of the selected items; stated by `Selection.TopCandidatesFacts` |
| Selection.ThresholdRemovesNothing | backend/python/pagination_scraper.py:321 | when every score is at least 5 the result is the first three URLs of the sorted table |
| Merge.Urls | backend/python/pagination_scraper.py:434 | `[r["url"] for r in all_results]` lists each page's URL in order |
| Merge.NoItems | backend/python/pagination_scraper.py:459-463 | the error reply when a value is not a dict: the "Error during pagination scraping" prefix and the `AttributeError` text naming its type (:422, :447-448) |
| Merge.ObjectFieldsFacts | backend/python/pagination_scraper.py:421-463 | `.items()` over the pages' JSON succeeds exactly when every value is a dict; otherwise the result is the "Error during pagination scraping" message naming the type of the first value that is not |
| Merge.MergeItemsLookup | backend/python/pagination_scraper.py:420-429 | each merged key maps to the merge of its values in page order |
| Merge.MergedSnoc | backend/python/pagination_scraper.py:423-429 | a new key takes its value; a repeated key turns the earlier value into a list (a list stays itself) and appends the new one |
| Merge.Merged | backend/python/pagination_scraper.py:423-429 | what a key's values merge to: nothing, the one value, or a list; `Merge.MergedSnoc` states how one more value changes it |
| Merge.MergeStep | backend/python/pagination_scraper.py:423-429 | one field merged: a new key takes its value, a repeated key turns the earlier value into a list (a list stays itself) and appends the new one |
| Merge.MergeItems | backend/python/pagination_scraper.py:420-429 | the merge of all the pages' fields, one step per field; `Merge.MergeItemsLookup` and `Merge.MergeItemsDistinct` state what it holds |
| Merge.MergeItemsDistinct | backend/python/pagination_scraper.py:420-429 | every merged key appears once |
| Merge.UnionItems | backend/python/pagination_scraper.py:447-448 | the dict comprehension has each key once |
| Merge.UnionItemsLookup | backend/python/pagination_scraper.py:447-448 | each key of the union holds its last value |
| Merge.CombineSucceeds | backend/python/pagination_scraper.py:419-448 | combining succeeds exactly when every page's JSON, media and links is a dict |
| Merge.Combine | backend/python/pagination_scraper.py:400-457 | the combined result, or the error raised on the way; stated by `Merge.CombineSucceeds`, `Merge.CombinedMeta`, the `Merge.Combined...HoldsPages` lemmas and `Merge.CombinedJsonFacts` |
| Merge.CombinedMeta | backend/python/pagination_scraper.py:438-456 | the result reports the start URL and the first page's title ("" without pages); its metadata counts the pages, holds the limit asked for and lists each page's URL |
| Merge.CombineNoPages | backend/python/pagination_scraper.py:400-457 | with no pages the result is a success with empty texts and title, only `pagination_info`, no media or links |
| Merge.PageHeader | backend/python/pagination_scraper.py:407 | the markdown header `# Page i+1 - title` followed by `*Source: url*` |
| Merge.HtmlHeader | backend/python/pagination_scraper.py:411 | the comment `<!-- PAGE i+1: title - url -->` before a page's HTML and cleaned HTML |
| Merge.CombinedMarkdownHoldsPages | backend/python/pagination_scraper.py:405-415 | page i's section is `# Page i+1 - title ... *Source: url*` followed by its markdown, at its offset in the combined markdown |
| Merge.CombinedHtmlHoldsPages | backend/python/pagination_scraper.py:410-416 | page i's section is its `<!-- PAGE i+1 ... -->` comment followed by its HTML, at its offset in the combined HTML |
| Merge.CombinedCleanedHoldsPages | backend/python/pagination_scraper.py:410-417 | page i's section is its `<!-- PAGE i+1 ... -->` comment followed by its cleaned HTML, at its offset in the combined cleaned HTML |
| Merge.PaginationInfo | backend/python/pagination_scraper.py:432-436 | `pagination_info`: the page count, the pages' URLs and the result count |
| Merge.CombinedJsonFacts | backend/python/pagination_scraper.py:419-436 | the merged JSON has distinct keys; `pagination_info` holds the page count and URLs and overrides any page key of that name; every other key is the merge of its values |
| Merge.CombinedUnionFacts | backend/python/pagination_scraper.py:447-448 | in the combined media and links each key holds the value of the last page that has it |
| Merge.CombineResults | backend/python/pagination_scraper.py:400-457 | the merge code computes the combined result or the error raised on the way |
| Merge.MergeJson | backend/python/pagination_scraper.py:419-429 | the nested merge loop fails exactly when some page's JSON is not a dict, else gives the merged items |
| Merge.MergeFields | backend/python/pagination_scraper.py:422-429 | the inner loop merges one page's fields into the JSON collected so far |
| Merge.ObjectFieldsPrefixErr | backend/python/pagination_scraper.py:422 | once a page's JSON is not a dict, the whole merge fails with that error |
| Crawl.ContainsAnyFacts | backend/python/pagination_scraper.py:382 | `any(p in text for p in words)` holds exactly when some word occurs in the text |
| Crawl.AnySaysNextFacts | backend/python/pagination_scraper.py:379-384 | some anchor text of the link says "next" exactly when one cleaned text contains a next word |
| Crawl.NextLink | backend/python/pagination_scraper.py:370-391 | the URL chosen among the page's links: the first that says "next", else the first, else none; stated by `Crawl.NextLinkFacts` |
| Crawl.NextLinkFacts | backend/python/pagination_scraper.py:370-391 | no links gives no next URL; otherwise it is one of them: the first that says "next", else the first |
| Crawl.ChooseNext | backend/python/pagination_scraper.py:370-391 | the selection loops compute that choice |
| Crawl.NextUrl | backend/python/pagination_scraper.py:368-393 | finding the page's links and choosing among them gives the URL the walk steps to |
| Crawl.WalkFrom | backend/python/pagination_scraper.py:347-393 | the walk from a URL: URLs asked for, pages scraped and why it stopped; stated by the `Crawl.Walk...` lemmas |
| Crawl.Crawl | backend/python/pagination_scraper.py:347-365 | the loop run on from one of its states; `Crawl.CrawlIsWalk` ties it to the walk |
| Crawl.CrawlIsWalk | backend/python/pagination_scraper.py:347-365 | running the loop on from any state gives the pages so far followed by the walk from there, or the error when no page was scraped |
| Crawl.WalkCounts | backend/python/pagination_scraper.py:344-365 | one URL asked for per page, plus one when the last scrape failed; at most `max_pages` pages; the limit stops the walk only once it is reached |
| Crawl.WalkFetches | backend/python/pagination_scraper.py:341-393 | the walk starts at the URL, never asks for "" or a visited URL; page i is what URL i gave; each later URL is the one chosen on the page before |
| Crawl.WalkDistinct | backend/python/pagination_scraper.py:348-351 | no URL is scraped twice |
| Crawl.WalkStep | backend/python/pagination_scraper.py:347-393 | a walk whose first page is scraped is that page followed by the walk from the chosen URL |
| Crawl.WalkStops | backend/python/pagination_scraper.py:347-349 | the walk stops for no next URL exactly when the URL after its last page is empty; a stop for the limit or a revisit has a next URL, and the limit is reached |
| Crawl.WalkFails | backend/python/pagination_scraper.py:355-362 | a failed walk's last URL asked for is the one after its last page, was not visited, and its scrape gave the reported error |
| Crawl.WalkRevisits | backend/python/pagination_scraper.py:348-349 | a walk stopped by a revisit stopped at a URL already asked for |
| Crawl.PaginateWith | backend/python/pagination_scraper.py:335-457 | the install check, the walk and the merge, for any next-URL choice; stated by `Crawl.PaginateOutcome` |
| Crawl.Paginate | backend/python/pagination_scraper.py:323-457 | `scrape_with_pagination` with the engine's own next-link choice; computed by `Crawl.ScrapeWithPagination` |
| Crawl.PaginateOutcome | backend/python/pagination_scraper.py:335-365 | install message without the crawler; the first page's error when it fails; an empty success for no URL or `max_pages <= 0`; otherwise a result with the start URL, the limit and at most that many pages |
| Crawl.FollowPages | backend/python/pagination_scraper.py:341-398 | the crawl loop returns the walk's pages, or the first page's error when it fails before any page was scraped |
| Crawl.CrawlAndCombine | backend/python/pagination_scraper.py:335-457 | the install check, the crawl loop, then the merge, as the walk-and-combine function says |
| Crawl.ScrapeWithPagination | backend/python/pagination_scraper.py:323-457 | `scrape_with_pagination` with the engine's own next-link choice |
| Crawl.ScrapeSingle | backend/python/pagination_scraper.py:111-115 | `scrape_single_page`: the install message without the crawling library, else what the library gives for the URL |
| Cli.MaxPagesValue | backend/python/pagination_scraper.py:486 | `arg.split("=")[1]` is the text after `--max-pages=` up to the next `=`: it holds no `=`, and an `=` follows it unless it runs to the end |
| Cli.ReadOne | backend/python/pagination_scraper.py:481-497 | one argument: `--pagination` turns pagination on, `--max-pages=` sets the limit or fails, while the strategy is falsy, any other argument that decodes as JSON replaces it, and one that does not decode is skipped |
| Cli.ReadOptions | backend/python/pagination_scraper.py:480-497 | the arguments after the URL read in turn, stopping at the first bad page limit; stated by the `Cli.ReadOptions...` lemmas |
| Cli.Parse | backend/python/pagination_scraper.py:467-497 | `main`'s reading of `sys.argv`: a URL is required, then the options; stated by `Cli.ParseFacts` |
| Cli.ParseArgs | backend/python/pagination_scraper.py:467-497 | the argv loop computes the parse, stopping at the first bad page limit |
| Cli.ReadOptionsFails | backend/python/pagination_scraper.py:484-492 | reading fails exactly when some argument is a page limit `int()` rejects, with "Invalid max-pages value"; the URL is kept |
| Cli.ReadOptionsPagination | backend/python/pagination_scraper.py:482-483 | pagination is on exactly when `--pagination` is among the arguments (or it was on) |
| Cli.ReadOptionsMaxPages | backend/python/pagination_scraper.py:477-486 | the page limit is the value of the last `--max-pages=` setting, or the previous one when there is none |
| Json.Truthy | backend/python/pagination_scraper.py:493 | Python truthiness of a decoded JSON value: `null`, `false`, the numbers zero and empty strings, lists and objects are falsy |
| Cli.ReadOptionsStrategyKept | backend/python/pagination_scraper.py:493-497 | a true strategy is never replaced, and no strategy is set when no other argument decodes as JSON |
| Cli.ReadOptionsStrategyFirst | backend/python/pagination_scraper.py:493-497 | without a true strategy, the strategy becomes the first other argument that decodes to a true value |
| Cli.ReadOptionsStrategyLast | backend/python/pagination_scraper.py:493-497 | when no candidate decodes to a true value but some decode, the strategy is the value of the last one that decodes |
| Cli.ParseFacts | backend/python/pagination_scraper.py:467-497 | a URL is required; the parse fails exactly on a bad page limit; pagination is on exactly with `--pagination`; the limit defaults to 5; the strategy defaults to none |
| Cli.RunFacts | backend/python/pagination_scraper.py:465-516 | exit status 1 exactly when the arguments are rejected; a failed scrape is still printed with status 0; without `--pagination` one page is scraped; without the crawling library either mode prints the install message (:111-115, :335-339) |
| Cli.Run | backend/python/pagination_scraper.py:499-516 | `main`'s outcome as the reply printed and the exit status; stated by `Cli.RunFacts` |

## Left out

- `backend/python/scraper.py` is not part of this model. It is a separate, simpler entry point over the same crawling library.
- `scrape_single_page` (backend/python/pagination_scraper.py:100-182), past its install check (`Crawl.ScrapeSingle`), is the `fetch` field of `Crawl.Site`. It only drives an external browser, so what it returns for a URL is a parameter. A page's `metadata` field (:162) is not modelled: the merge does not read it, and the single-page reply of `Crawl.ScrapeSingle` and `Cli.Run` leaves it out, though `main` prints it (:505).
- The first page's failure is modelled as its error text. The source returns that failure dict unchanged, and its only other field is `success: False`.
- Regular expressions, `str.lower`, `str.isdigit`, `int()`, `json.loads` and `urljoin` are uninterpreted fields of `Lib.Lib`. Each of the engine's fixed patterns is asked about through `search`. The regex built from a candidate link at :376 is the field `anchorTexts`, the anchor texts found for that link. The model holds for any behaviour of these library functions.
- `asyncio.run`, `asyncio.sleep`, printing to stderr, browser cleanup and the stdout UTF-8 set-up (:14-19) are left out, as I/O without effect on the result.
- `json.dumps` of the result and its "Script error" path (:507-516) are left out: serialising is I/O, and the model produces the result value instead. `Cli.Run` returns the reply and the exit status in place of printing and `sys.exit`.
- Values `None` inside a page's JSON are the `Null` JSON value; a JSON float is a `real`, so NaN and infinities are not represented.
- An exception other than the `AttributeError` of `.items()` on a non-dict (:422, :447-448) is not modelled inside `scrape_with_pagination`. The page fields the merge reads are always present in `scrape_single_page`'s result.
- The walk's specification takes the next-URL choice as a function value `step`. The loop methods receive it as a ghost parameter tied to the engine's choice by `Crawl.Follows`, and still call the engine's own link detection and choice.
- The Node server (admission control, circuit breaker, subprocess timeout, stripping the JSON payload out of log noise) is not part of this model.
