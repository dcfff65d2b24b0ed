/**
 * The first half of `scrape_with_pagination`: from the start URL, scrape a
 * page, pick the next URL among its pagination links, and go on until there
 * is no next URL, the page budget is spent, a URL comes round again or a
 * page fails. The pages scraped are then combined (module Merge).
 */
module Crawl {
  import opened Wrappers
  import opened Seqs
  import opened Text
  import opened Json
  import opened Lib
  import opened Selection
  import opened Ranking
  import opened Merge

  /** What `scrape_single_page` returns: the page's data, or the error text of a failed scrape. */
  datatype Fetched = Fetched(page: Page) | FetchFailed(error: string)

  /**
   * The crawler as the engine sees it: whether the crawling library could be
   * imported, and what scraping a URL with an extraction strategy (`Null`
   * for none) returns once it is.
   */
  datatype Site = Site(available: bool, fetch: (string, Json) -> Fetched)

  const NotInstalled: string := "Crawl4AI is not installed. Please install it using: pip install crawl4ai"

  /**
   * `scrape_single_page(url, strategy)`, which first checks that the library
   * is installed. The walk calls `fetch` directly: it only runs after
   * `scrape_with_pagination` has made the same check.
   */
  function ScrapeSingle(site: Site, url: string, strategy: Json): Fetched {
    if !site.available then FetchFailed(NotInstalled) else site.fetch(url, strategy)
  }

  /** The words that make a link's text read as "next". */
  function NextWords(): seq<string> {
    ["next", "siguiente", "suivant", "nächste", "下一页", "次へ", "다음"]
  }

  /** Some word of `words` occurs in the text: `any(w in text for w in words)`. */
  predicate ContainsAny(text: string, words: seq<string>) {
    words != [] && (Contains(text, words[0]) || ContainsAny(text, words[1..]))
  }

  lemma {:induction false} ContainsAnyFacts(text: string, words: seq<string>)
    ensures ContainsAny(text, words) <==> exists j :: 0 <= j < |words| && Contains(text, words[j])
  {
    if words != [] {
      ContainsAnyFacts(text, words[1..]);
      assert forall j :: 0 < j < |words| ==> words[j] == words[1..][j - 1];
    }
  }

  /** Some "next" word occurs in the text. */
  predicate SaysNext(text: string) {
    ContainsAny(text, NextWords())
  }

  /** `re.sub(r'<[^>]+>', '', text).strip().lower()` */
  function LinkText(markup: string, lib: Lib): string {
    lib.lower(CleanText(markup, lib))
  }

  /** Some of the anchor texts says "next" once cleaned. */
  predicate AnySaysNext(texts: seq<string>, lib: Lib) {
    texts != [] && (SaysNext(LinkText(texts[0], lib)) || AnySaysNext(texts[1..], lib))
  }

  lemma {:induction false} AnySaysNextFacts(texts: seq<string>, lib: Lib)
    ensures AnySaysNext(texts, lib) <==> exists m :: 0 <= m < |texts| && SaysNext(LinkText(texts[m], lib))
  {
    if texts != [] {
      AnySaysNextFacts(texts[1..], lib);
      assert forall m :: 0 < m < |texts| ==> texts[m] == texts[1..][m - 1];
    }
  }

  /** Some anchor for `link` in the page has a text that says "next". */
  predicate LooksNext(html: string, current: string, link: string, lib: Lib) {
    AnySaysNext(lib.anchorTexts(html, link, current), lib)
  }

  /** The link the chooser would take on sight: not empty, and looking like "next". */
  predicate TakesOnSight(html: string, current: string, link: string, lib: Lib) {
    link != "" && LooksNext(html, current, link, lib)
  }

  /** The test `TakesOnSight` for the page `html` scraped from `current`, as a function value. */
  function Taken(html: string, current: string, lib: Lib): string -> bool {
    link => TakesOnSight(html, current, link, lib)
  }

  /** The URL the engine goes to next: the first link taken on sight, else the best-scored link, else none (`""`). */
  function NextLink(links: seq<string>, taken: string -> bool): string {
    match FirstWhere(links, taken)
    case Some(i) => links[i]
    case None => if links == [] then "" else links[0]
  }

  /**
   * The next URL is one of the links (or none when there are none); it is
   * the first link taken on sight when there is one, and the first link
   * otherwise.
   */
  lemma NextLinkFacts(links: seq<string>, taken: string -> bool)
    ensures links == [] ==> NextLink(links, taken) == ""
    ensures links != [] ==> NextLink(links, taken) in links
    ensures (exists k :: 0 <= k < |links| && taken(links[k])) ==>
      exists k :: (0 <= k < |links| && NextLink(links, taken) == links[k] && taken(links[k]) &&
        forall j :: 0 <= j < k ==> !taken(links[j]))
    ensures (forall k :: 0 <= k < |links| ==> !taken(links[k])) && links != [] ==> NextLink(links, taken) == links[0]
  {
    FirstWhereFacts(links, taken);
  }

  /** The engine's choice of the next URL: a loop over the links and, inside it, a loop over each link's anchor texts. */
  method ChooseNext(html: string, current: string, links: seq<string>, lib: Lib) returns (next: string)
    ensures next == NextLink(links, Taken(html, current, lib))
  {
    ghost var taken := Taken(html, current, lib);
    FirstWhereFacts(links, taken);
    next := "";
    if |links| > 0 {
      var i := 0;
      while i < |links|
        invariant 0 <= i <= |links|
        invariant next == ""
        invariant forall j :: 0 <= j < i ==> !taken(links[j])
      {
        var link := links[i];
        var texts := lib.anchorTexts(html, link, current);
        var t := 0;
        assert texts[0..] == texts;
        while t < |texts|
          invariant 0 <= t <= |texts|
          invariant next == ""
          invariant AnySaysNext(texts, lib) == AnySaysNext(texts[t..], lib)
        {
          assert texts[t..][1..] == texts[t + 1..];
          var clean := lib.lower(CleanText(texts[t], lib));
          if SaysNext(clean) {
            next := link;
            break;
          }
          t := t + 1;
        }
        assert taken(link) == TakesOnSight(html, current, link, lib);
        if next != "" {
          return;
        }
        i := i + 1;
      }
      next := links[0];
    }
  }

  /** Why the walk ended. */
  datatype Stop = NoNextUrl | PageLimit | Revisited | Failed(error: string)

  /** The URLs asked for, the pages they gave, and why the walk ended. */
  datatype Walk = Walk(requested: seq<string>, pages: seq<Page>, stop: Stop)

  /** The pagination links `find_pagination_links` finds in a page scraped from `current`. */
  function PageLinks(p: Page, current: string, lib: Lib): seq<string> {
    TopCandidates(CandidateTable(p.html, current, lib))
  }

  /** The URL the engine goes to after the page scraped from `current`. */
  function Successor(p: Page, current: string, lib: Lib): string {
    NextLink(PageLinks(p, current, lib), Taken(p.html, current, lib))
  }

  /** `Successor` as a function value. */
  function Step(lib: Lib): (Page, string) -> string {
    (p, current) => Successor(p, current, lib)
  }

  function Positive(n: int): nat {
    if n > 0 then n else 0
  }

  /**
   * The walk from `current`, with the URLs in `visited` already asked for,
   * `budget` pages left to scrape and `step` giving the URL after a page.
   */
  function WalkFrom(site: Site, strategy: Json, step: (Page, string) -> string, current: string, visited: set<string>, budget: int): Walk
    decreases Positive(budget)
  {
    if current == "" then Walk([], [], NoNextUrl)
    else if budget <= 0 then Walk([], [], PageLimit)
    else if current in visited then Walk([], [], Revisited)
    else match site.fetch(current, strategy)
      case FetchFailed(e) => Walk([current], [], Failed(e))
      case Fetched(p) =>
        var rest := WalkFrom(site, strategy, step, step(p, current), visited + {current}, budget - 1);
        Walk([current] + rest.requested, [p] + rest.pages, rest.stop)
  }

  /** The walk from `url` with `step` choosing the next URL, then the merge of its pages. */
  function PaginateWith(url: string, maxPages: int, strategy: Json, site: Site, step: (Page, string) -> string): Result<Combined, string> {
    if !site.available then Err(NotInstalled)
    else
      var w := WalkFrom(site, strategy, step, url, {}, maxPages);
      if w.pages == [] && w.stop.Failed? then Err(w.stop.error)
      else Combine(url, maxPages, w.pages)
  }

  /** `scrape_with_pagination(url, max_pages, extraction_strategy)` */
  function Paginate(url: string, maxPages: int, strategy: Json, site: Site, lib: Lib): Result<Combined, string> {
    PaginateWith(url, maxPages, strategy, site, Step(lib))
  }

  /** `step` chooses the next URL as the engine does. */
  ghost predicate Follows(step: (Page, string) -> string, lib: Lib) {
    forall p, current {:trigger Successor(p, current, lib)} :: step(p, current) == Successor(p, current, lib)
  }

  /** The pagination links of a page scraped from `current`, then the choice among them. */
  method NextUrl(page: Page, current: string, lib: Lib, ghost step: (Page, string) -> string) returns (next: string)
    requires Follows(step, lib)
    ensures next == step(page, current)
  {
    var links := FindPaginationLinks(page.html, current, lib);
    next := ChooseNext(page.html, current, links, lib);
    assert next == Successor(page, current, lib);
  }

  /**
   * The crawl loop run on from one of its states: `pages` scraped so far,
   * `current` the URL to go to, `visited` the URLs asked for and `budget`
   * pages left. Only a failure before any page was scraped is an error.
   */
  function Crawl(site: Site, strategy: Json, step: (Page, string) -> string,
                 pages: seq<Page>, current: string, visited: set<string>, budget: int): Result<seq<Page>, string>
    decreases Positive(budget)
  {
    if current == "" || budget <= 0 || current in visited then Ok(pages)
    else match site.fetch(current, strategy)
      case FetchFailed(e) => if pages == [] then Err(e) else Ok(pages)
      case Fetched(p) => Crawl(site, strategy, step, pages + [p], step(p, current), visited + {current}, budget - 1)
  }

  /**
   * Running the loop on from a state gives the pages so far followed by the
   * walk from that state, or the walk's error when no page was scraped at all.
   */
  lemma {:induction false} CrawlIsWalk(site: Site, strategy: Json, step: (Page, string) -> string,
                                       pages: seq<Page>, current: string, visited: set<string>, budget: int)
    ensures var w := WalkFrom(site, strategy, step, current, visited, budget);
      Crawl(site, strategy, step, pages, current, visited, budget) ==
        if pages == [] && w.pages == [] && w.stop.Failed? then Err(w.stop.error) else Ok(pages + w.pages)
    decreases Positive(budget)
  {
    if current != "" && budget > 0 && current !in visited && site.fetch(current, strategy).Fetched? {
      var p := site.fetch(current, strategy).page;
      var next := step(p, current);
      CrawlIsWalk(site, strategy, step, pages + [p], next, visited + {current}, budget - 1);
      var rest := WalkFrom(site, strategy, step, next, visited + {current}, budget - 1);
      assert (pages + [p]) + rest.pages == pages + ([p] + rest.pages);
    } else {
      assert pages + [] == pages;
    }
  }

  /**
   * One URL is asked for per page scraped, and one more when the last scrape
   * failed; no more pages are scraped than the budget allows, and the walk
   * stops for the limit only once the budget is spent.
   */
  lemma {:induction false} WalkCounts(site: Site, strategy: Json, step: (Page, string) -> string, current: string, visited: set<string>, budget: int)
    ensures var w := WalkFrom(site, strategy, step, current, visited, budget);
      && |w.requested| == |w.pages| + (if w.stop.Failed? then 1 else 0)
      && |w.pages| <= Positive(budget)
      && (w.stop == PageLimit ==> |w.pages| == Positive(budget))
    decreases Positive(budget)
  {
    if current != "" && budget > 0 && current !in visited && site.fetch(current, strategy).Fetched? {
      var p := site.fetch(current, strategy).page;
      WalkCounts(site, strategy, step, step(p, current), visited + {current}, budget - 1);
    }
  }

  /**
   * The walk starts at `current`, never asks for `""` or an already visited
   * URL, the `i`-th page is what scraping the `i`-th URL gave, and each URL
   * after the first is the one `step` chose on the page before it.
   */
  lemma {:induction false} WalkFetches(site: Site, strategy: Json, step: (Page, string) -> string, current: string, visited: set<string>, budget: int)
    ensures var w := WalkFrom(site, strategy, step, current, visited, budget);
      && |w.pages| <= |w.requested| <= |w.pages| + 1
      && (w.requested != [] ==> w.requested[0] == current)
      && (forall i :: 0 <= i < |w.requested| ==> w.requested[i] != "" && w.requested[i] !in visited)
      && (forall i :: 0 <= i < |w.pages| ==> site.fetch(w.requested[i], strategy) == Fetched(w.pages[i]))
      && (forall i :: 0 < i < |w.requested| ==> w.requested[i] == step(w.pages[i - 1], w.requested[i - 1]))
    decreases Positive(budget)
  {
    if current != "" && budget > 0 && current !in visited && site.fetch(current, strategy).Fetched? {
      var p := site.fetch(current, strategy).page;
      var next := step(p, current);
      var rest := WalkFrom(site, strategy, step, next, visited + {current}, budget - 1);
      WalkFetches(site, strategy, step, next, visited + {current}, budget - 1);
      var w := WalkFrom(site, strategy, step, current, visited, budget);
      assert w.requested == [current] + rest.requested && w.pages == [p] + rest.pages;
      assert forall i :: 0 < i < |w.requested| ==> w.requested[i] == rest.requested[i - 1];
      assert forall i :: 0 < i < |w.pages| ==> w.pages[i] == rest.pages[i - 1];
    }
  }

  /** No URL is asked for twice: a URL seen before stops the walk instead. */
  lemma {:induction false} WalkDistinct(site: Site, strategy: Json, step: (Page, string) -> string, current: string, visited: set<string>, budget: int)
    ensures var w := WalkFrom(site, strategy, step, current, visited, budget);
      forall i, j :: 0 <= i < j < |w.requested| ==> w.requested[i] != w.requested[j]
    decreases Positive(budget)
  {
    if current != "" && budget > 0 && current !in visited && site.fetch(current, strategy).Fetched? {
      var p := site.fetch(current, strategy).page;
      var next := step(p, current);
      var rest := WalkFrom(site, strategy, step, next, visited + {current}, budget - 1);
      WalkDistinct(site, strategy, step, next, visited + {current}, budget - 1);
      WalkFetches(site, strategy, step, next, visited + {current}, budget - 1);
      var w := WalkFrom(site, strategy, step, current, visited, budget);
      assert w.requested == [current] + rest.requested;
      assert forall i :: 0 < i < |w.requested| ==> w.requested[i] == rest.requested[i - 1];
    }
  }

  /** The URL the walk would have gone to after its last page: `current` when no page was scraped. */
  function After(w: Walk, current: string, step: (Page, string) -> string): string
    requires |w.pages| <= |w.requested|
  {
    if w.pages == [] then current else step(w.pages[|w.pages| - 1], w.requested[|w.pages| - 1])
  }

  /**
   * A walk whose first page is scraped is that page followed by the walk from
   * the URL after it, and both end by going to the same URL.
   */
  lemma WalkStep(site: Site, strategy: Json, step: (Page, string) -> string, current: string, visited: set<string>, budget: int)
    requires current != "" && budget > 0 && current !in visited && site.fetch(current, strategy).Fetched?
    ensures var p := site.fetch(current, strategy).page;
      var next := step(p, current);
      var w := WalkFrom(site, strategy, step, current, visited, budget);
      var rest := WalkFrom(site, strategy, step, next, visited + {current}, budget - 1);
      && w.requested == [current] + rest.requested && w.pages == [p] + rest.pages && w.stop == rest.stop
      && (|rest.pages| <= |rest.requested| ==> After(w, current, step) == After(rest, next, step))
  {
    var p := site.fetch(current, strategy).page;
    var next := step(p, current);
    var w := WalkFrom(site, strategy, step, current, visited, budget);
    var rest := WalkFrom(site, strategy, step, next, visited + {current}, budget - 1);
    if rest.pages != [] && |rest.pages| <= |rest.requested| {
      var k := |rest.pages| - 1;
      assert w.pages[k + 1] == rest.pages[k] && w.requested[k + 1] == rest.requested[k];
    }
  }

  /**
   * Why the walk stopped, in terms of the URL after its last page: there was
   * none; the budget was spent; or it had been visited already.
   */
  lemma {:induction false} WalkStops(site: Site, strategy: Json, step: (Page, string) -> string, current: string, visited: set<string>, budget: int)
    ensures var w := WalkFrom(site, strategy, step, current, visited, budget);
      && |w.pages| <= |w.requested|
      && var after := After(w, current, step);
      && (w.stop == NoNextUrl <==> after == "")
      && (w.stop == PageLimit ==> after != "" && |w.pages| == Positive(budget))
      && (w.stop == Revisited ==> after != "")
    decreases Positive(budget)
  {
    WalkCounts(site, strategy, step, current, visited, budget);
    if current != "" && budget > 0 && current !in visited && site.fetch(current, strategy).Fetched? {
      var next := step(site.fetch(current, strategy).page, current);
      WalkStops(site, strategy, step, next, visited + {current}, budget - 1);
      WalkStep(site, strategy, step, current, visited, budget);
    }
  }

  /**
   * A walk that failed asked for one URL more than it scraped pages: the URL
   * after its last page, not visited before, whose scrape gave the error the
   * walk reports.
   */
  lemma {:induction false} WalkFails(site: Site, strategy: Json, step: (Page, string) -> string, current: string, visited: set<string>, budget: int)
    ensures var w := WalkFrom(site, strategy, step, current, visited, budget);
      w.stop.Failed? ==>
        && |w.requested| == |w.pages| + 1
        && w.requested[|w.pages|] == After(w, current, step)
        && After(w, current, step) !in visited
        && site.fetch(After(w, current, step), strategy) == FetchFailed(w.stop.error)
    decreases Positive(budget)
  {
    WalkCounts(site, strategy, step, current, visited, budget);
    if current != "" && budget > 0 && current !in visited && site.fetch(current, strategy).Fetched? {
      var next := step(site.fetch(current, strategy).page, current);
      var rest := WalkFrom(site, strategy, step, next, visited + {current}, budget - 1);
      WalkFails(site, strategy, step, next, visited + {current}, budget - 1);
      WalkCounts(site, strategy, step, next, visited + {current}, budget - 1);
      WalkStep(site, strategy, step, current, visited, budget);
      var w := WalkFrom(site, strategy, step, current, visited, budget);
      if rest.stop.Failed? {
        assert w.requested[|w.pages|] == rest.requested[|rest.pages|];
      }
    }
  }

  /** A walk stopped by a revisit stopped at a URL visited before it or asked for earlier in the walk. */
  lemma {:induction false} WalkRevisits(site: Site, strategy: Json, step: (Page, string) -> string, current: string, visited: set<string>, budget: int)
    ensures var w := WalkFrom(site, strategy, step, current, visited, budget);
      && |w.pages| <= |w.requested|
      && (w.stop == Revisited ==> After(w, current, step) in visited || After(w, current, step) in w.requested)
    decreases Positive(budget)
  {
    WalkCounts(site, strategy, step, current, visited, budget);
    if current != "" && budget > 0 && current !in visited && site.fetch(current, strategy).Fetched? {
      var next := step(site.fetch(current, strategy).page, current);
      var rest := WalkFrom(site, strategy, step, next, visited + {current}, budget - 1);
      WalkRevisits(site, strategy, step, next, visited + {current}, budget - 1);
      WalkStep(site, strategy, step, current, visited, budget);
      if rest.stop == Revisited && After(rest, next, step) in rest.requested {
        assert After(rest, next, step) in [current] + rest.requested;
      }
    }
  }

  /**
   * What `scrape_with_pagination` returns: the install message when the
   * crawler is missing; the first page's error when scraping it fails; an
   * empty combination when there is no URL or no page to scrape; and
   * otherwise a combination that reports the start URL, the limit asked for
   * and at most that many pages. This holds whatever chooses the next URL;
   * `Paginate` is the case of the engine's own choice, `Step(lib)`.
   */
  lemma PaginateOutcome(url: string, maxPages: int, strategy: Json, site: Site, step: (Page, string) -> string)
    ensures !site.available ==> PaginateWith(url, maxPages, strategy, site, step) == Err(NotInstalled)
    ensures site.available && url != "" && maxPages > 0 && site.fetch(url, strategy).FetchFailed? ==>
      PaginateWith(url, maxPages, strategy, site, step) == Err(site.fetch(url, strategy).error)
    ensures site.available && (url == "" || maxPages <= 0) ==>
      PaginateWith(url, maxPages, strategy, site, step) ==
        Ok(Combined("", "", "", [("pagination_info", PaginationInfo([]))], url, "", [], [], Meta(0, maxPages, [])))
    ensures PaginateWith(url, maxPages, strategy, site, step).Ok? ==>
      var c := PaginateWith(url, maxPages, strategy, site, step).value;
      && c.url == url
      && c.metadata.maxPagesRequested == maxPages
      && c.metadata.pagesScraped <= Positive(maxPages)
      && |c.metadata.urls| == c.metadata.pagesScraped
  {
    var w := WalkFrom(site, strategy, step, url, {}, maxPages);
    WalkCounts(site, strategy, step, url, {}, maxPages);
    CombinedMeta(url, maxPages, w.pages);
    if site.available && (url == "" || maxPages <= 0) {
      CombineNoPages(url, maxPages);
    }
  }

  /** `scrape_with_pagination`: the crawl loop, then the merge. */
  method ScrapeWithPagination(url: string, maxPages: int, strategy: Json, site: Site, lib: Lib)
    returns (r: Result<Combined, string>)
    ensures r == Paginate(url, maxPages, strategy, site, lib)
  {
    r := CrawlAndCombine(url, maxPages, strategy, site, lib, Step(lib));
  }

  /** `scrape_with_pagination` with `step` standing for the engine's choice of the next URL: the crawl loop, then the merge. */
  method CrawlAndCombine(url: string, maxPages: int, strategy: Json, site: Site, lib: Lib, ghost step: (Page, string) -> string)
    returns (r: Result<Combined, string>)
    requires Follows(step, lib)
    ensures r == PaginateWith(url, maxPages, strategy, site, step)
  {
    if !site.available {
      return Err(NotInstalled);
    }
    var crawled := FollowPages(url, maxPages, strategy, site, lib, step);
    match crawled {
      case Err(e) =>
        r := Err(e);
      case Ok(pages) =>
        r := CombineResults(url, maxPages, pages);
    }
  }

  /**
   * The crawl loop: the pages of the walk from `url`, or the error of the
   * first page when scraping it fails.
   */
  method FollowPages(url: string, maxPages: int, strategy: Json, site: Site, lib: Lib, ghost step: (Page, string) -> string)
    returns (r: Result<seq<Page>, string>)
    requires Follows(step, lib)
    ensures var w := WalkFrom(site, strategy, step, url, {}, maxPages);
      r == if w.pages == [] && w.stop.Failed? then Err(w.stop.error) else Ok(w.pages)
  {
    var visited: set<string> := {};
    var allResults: seq<Page> := [];
    var currentUrl := url;
    var pagesScraped := 0;
    while currentUrl != "" && pagesScraped < maxPages
      invariant pagesScraped == |allResults|
      invariant Crawl(site, strategy, step, allResults, currentUrl, visited, maxPages - pagesScraped) ==
        Crawl(site, strategy, step, [], url, {}, maxPages)
      decreases maxPages - pagesScraped
    {
      if currentUrl in visited {
        break;
      }
      visited := visited + {currentUrl};
      var result := site.fetch(currentUrl, strategy);
      match result {
        case FetchFailed(e) =>
          if pagesScraped == 0 {
            CrawlIsWalk(site, strategy, step, [], url, {}, maxPages);
            return Err(e);
          }
          break;
        case Fetched(page) =>
          var nextUrl := NextUrl(page, currentUrl, lib, step);
          allResults := allResults + [page];
          pagesScraped := pagesScraped + 1;
          currentUrl := nextUrl;
      }
    }
    CrawlIsWalk(site, strategy, step, [], url, {}, maxPages);
    assert [] + WalkFrom(site, strategy, step, url, {}, maxPages).pages == WalkFrom(site, strategy, step, url, {}, maxPages).pages;
    r := Ok(allResults);
  }
}
