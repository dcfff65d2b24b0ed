/**
 * `find_pagination_links`: every link, button and form of a page is scored
 * by fixed tests, the candidates are collected in a URL -> confidence table
 * (an insertion-ordered dict), and the best three are returned (module
 * Selection).
 */
module Ranking {
  import opened Wrappers
  import opened Seqs
  import opened Text
  import opened Dicts
  import opened Lib
  import opened Selection

  /** The keyword patterns, tried in this order against the lower-cased link or button text. */
  function PaginationPatterns(): seq<string> {
    [
      // English
      "next\\s*page", "next\\s*>", ">\\s*next", "continue", "load\\s*more", "view\\s*more",
      "more\\s*results", "show\\s*more", "see\\s*more", "pagination", "next\\s*\\d+",
      // Spanish
      "siguiente", "próximo", "más\\s*resultados", "cargar\\s*más",
      // French
      "suivant", "page\\s*suivante", "plus\\s*de\\s*résultats",
      // German
      "nächste", "weiter", "mehr\\s*ergebnisse",
      // Chinese
      "下一页", "下页", "更多",
      // Japanese
      "次へ", "次のページ", "もっと見る",
      // Korean
      "다음", "다음\\s*페이지", "더\\s*보기",
      // Russian
      "следующая", "далее", "еще",
      // Portuguese
      "próxima", "avançar", "mais\\s*resultados",
      // Italian
      "successiva", "avanti", "altri\\s*risultati",
      // Arabic
      "التالي", "المزيد",
      // icon names
      "arrow.*right", "chevron.*right", "fa-arrow-right", "fa-chevron-right"
    ]
  }

  /** URL shapes that suggest a further page, tried in this order against the lower-cased href. */
  function UrlPatterns(): seq<string> {
    [
      "[?&]page=\\d+", "[?&]p=\\d+", "[?&]offset=\\d+", "[?&]start=\\d+",
      "/page/\\d+", "/p\\d+", "page\\d+", "next"
    ]
  }

  /**
   * Marks of the current page or of a non-navigation link. None of them holds a
   * regular-expression metacharacter, so searching for one is a substring test.
   */
  function ExcludePatterns(): seq<string> {
    [
      "current", "active", "disabled", "javascript:", "mailto:", "tel:", "#"
    ]
  }

  const KeywordPoints: int := 10
  const ExactKeywordPoints: int := 5
  const NumberPoints: int := 8
  const NearPageNumberPoints: int := 3
  const UrlShapePoints: int := 5
  const RelNextPoints: int := 15
  const NavClassPoints: int := 7
  /** The fixed score of a URL found in a button's onclick handler. */
  const ButtonScore: int := 8
  /** The fixed score of a URL built from a form with a numeric `page` input. */
  const FormScore: int := 6

  /** What the lower-cased link text must equal for the exact-match bonus: `pattern.replace(r'\s*', ' ').replace(r'\d+', '').strip()`. */
  function ExactForm(pattern: string): string {
    Strip(Replace(Replace(pattern, "\\s*", " "), "\\d+", ""))
  }

  /** `re.search(pattern, text)` for a fixed text, as a test of the pattern. */
  function Found(text: string, search: (string, string) -> bool): string -> bool {
    pattern => search(pattern, text)
  }

  /** The engine's `for pattern in patterns: if re.search(pattern, text): ...; break`. */
  method FirstMatching(patterns: seq<string>, text: string, lib: Lib) returns (r: Option<nat>)
    ensures r == FirstWhere(patterns, Found(text, lib.search))
  {
    FirstWhereFacts(patterns, Found(text, lib.search));
    var i := 0;
    while i < |patterns|
      invariant 0 <= i <= |patterns|
      invariant forall j :: 0 <= j < i ==> !lib.search(patterns[j], text)
    {
      if lib.search(patterns[i], text) {
        return Some(i);
      }
      i := i + 1;
    }
    return None;
  }

  /** `re.sub(r'<[^>]+>', '', markup).strip()` */
  function CleanText(markup: string, lib: Lib): string {
    Strip(lib.stripTags(markup))
  }

  /** +10 for the first keyword pattern found in the text, +5 more if the text is exactly that keyword. */
  function KeywordScore(textLower: string, lib: Lib): int {
    match FirstWhere(PaginationPatterns(), Found(textLower, lib.search))
    case None => 0
    case Some(i) =>
      KeywordPoints + (if textLower == ExactForm(PaginationPatterns()[i]) then ExactKeywordPoints else 0)
  }

  /** +8 for a text of digits only, +3 more if its number is between 2 and 10. */
  function NumberScore(textClean: string, lib: Lib): int {
    match lib.digitsValue(textClean)
    case None => 0
    case Some(n) => NumberPoints + (if 2 <= n <= 10 then NearPageNumberPoints else 0)
  }

  /** +5 if some URL shape is found in the href (once, however many are). */
  function UrlShapeScore(hrefLower: string, lib: Lib): int {
    if FirstWhere(UrlPatterns(), Found(hrefLower, lib.search)).Some? then UrlShapePoints else 0
  }

  /** The confidence of one link: the sum of its signals' points. */
  function Points(html: string, href: string, textClean: string, textLower: string, hrefLower: string, lib: Lib): int {
    KeywordScore(textLower, lib) + NumberScore(textClean, lib) + UrlShapeScore(hrefLower, lib)
    + (if lib.relNext(html, href) then RelNextPoints else 0)
    + (if lib.navClass(html, href) then NavClassPoints else 0)
  }

  /** The keyword loop of strategy 1: +10 at the first keyword found, +5 more for an exact match. */
  method KeywordConfidence(textLower: string, lib: Lib) returns (points: int)
    ensures points == KeywordScore(textLower, lib)
  {
    points := 0;
    var keyword := FirstMatching(PaginationPatterns(), textLower, lib);
    if keyword.Some? {
      points := points + KeywordPoints;
      if textLower == ExactForm(PaginationPatterns()[keyword.value]) {
        points := points + ExactKeywordPoints;
      }
    }
  }

  /** The scoring part of strategy 1 for one link, as the engine writes it: tests in a row, each loop left at its first hit. */
  method LinkConfidence(html: string, href: string, textClean: string, textLower: string, hrefLower: string, lib: Lib)
    returns (confidence: int)
    ensures confidence == Points(html, href, textClean, textLower, hrefLower, lib)
  {
    confidence := KeywordConfidence(textLower, lib);
    match lib.digitsValue(textClean) {
      case Some(pageNum) =>
        confidence := confidence + NumberPoints;
        if 2 <= pageNum <= 10 {
          confidence := confidence + NearPageNumberPoints;
        }
      case None =>
    }
    var shape := FirstMatching(UrlPatterns(), hrefLower, lib);
    if shape.Some? {
      confidence := confidence + UrlShapePoints;
    }
    if lib.relNext(html, href) {
      confidence := confidence + RelNextPoints;
    }
    if lib.navClass(html, href) {
      confidence := confidence + NavClassPoints;
    }
  }

  /** Some exclusion mark occurs in the lower-cased href or in the lower-cased text. */
  predicate Excluded(hrefLower: string, textLower: string) {
    exists j :: 0 <= j < |ExcludePatterns()| &&
      (Contains(hrefLower, ExcludePatterns()[j]) || Contains(textLower, ExcludePatterns()[j]))
  }

  /** The engine's exclusion loop, left at the first mark found. */
  method ShouldExclude(hrefLower: string, textLower: string) returns (exclude: bool)
    ensures exclude == Excluded(hrefLower, textLower)
  {
    exclude := false;
    var j := 0;
    while j < |ExcludePatterns()|
      invariant 0 <= j <= |ExcludePatterns()|
      invariant forall i :: 0 <= i < j ==>
        !Contains(hrefLower, ExcludePatterns()[i]) && !Contains(textLower, ExcludePatterns()[i])
    {
      if Contains(hrefLower, ExcludePatterns()[j]) || Contains(textLower, ExcludePatterns()[j]) {
        exclude := true;
        break;
      }
      j := j + 1;
    }
  }

  /** `href.lower().strip()` */
  function HrefLower(a: Anchor, lib: Lib): string {
    Strip(lib.lower(a.href))
  }

  function TextLower(a: Anchor, lib: Lib): string {
    lib.lower(CleanText(a.body, lib))
  }

  function Confidence(html: string, a: Anchor, lib: Lib): int {
    Points(html, a.href, CleanText(a.body, lib), TextLower(a, lib), HrefLower(a, lib), lib)
  }

  /** A link strategy 1 puts in the table: its href is not blank, it carries no exclusion mark, and it scores. */
  predicate Eligible(html: string, a: Anchor, lib: Lib) {
    && Strip(a.href) != []
    && !Excluded(HrefLower(a, lib), TextLower(a, lib))
    && Confidence(html, a, lib) > 0
  }

  function Max(a: int, b: int): int {
    if a >= b then a else b
  }

  /** A link strategy 1 keeps: the URL it resolves to and its confidence. */
  datatype Scored = Scored(url: string, confidence: int)

  /** What strategy 1 makes of one link: nothing, or the URL and confidence it offers for the table. */
  function Assess(html: string, base: string, a: Anchor, lib: Lib): Option<Scored> {
    if Eligible(html, a, lib) then Some(Scored(lib.urljoin(base, a.href), Confidence(html, a, lib))) else None
  }

  function Assessed(html: string, base: string, anchors: seq<Anchor>, lib: Lib): (r: seq<Option<Scored>>)
    ensures |r| == |anchors|
  {
    seq(|anchors|, k requires 0 <= k < |anchors| => Assess(html, base, anchors[k], lib))
  }

  /** What strategy 1 does with one assessed link. */
  function LinkStep(table: Dict<int>, base: string, c: Option<Scored>): Dict<int> {
    match c
    case None => table
    case Some(Scored(url, confidence)) =>
      if url != base && !HasKey(table, url) then Set(table, url, confidence)
      else if HasKey(table, url) then Set(table, url, Max(Lookup(table, url).value, confidence))
      else table
  }

  /** The table strategy 1 builds, one assessed link after another. */
  function LinkTable(base: string, cs: seq<Option<Scored>>): (t: Dict<int>)
    ensures DistinctKeys(t)
  {
    if cs == [] then []
    else LinkStep(LinkTable(base, cs[..|cs| - 1]), base, cs[|cs| - 1])
  }

  /** One more assessed link is one more step of strategy 1. */
  lemma LinkTableNext(base: string, cs: seq<Option<Scored>>, k: nat)
    requires k < |cs|
    ensures LinkTable(base, cs[..k + 1]) == LinkStep(LinkTable(base, cs[..k]), base, cs[k])
  {
    assert cs[..k + 1][..k] == cs[..k];
  }

  /** Resolves to `url` with confidence `c`. */
  predicate Offers(c: Option<Scored>, url: string) {
    c.Some? && c.value.url == url
  }

  /** The highest confidence any kept link offers for `url`; 0 when none is positive. */
  function Best(cs: seq<Option<Scored>>, url: string): (b: int)
    ensures b >= 0
    ensures forall k :: 0 <= k < |cs| && Offers(cs[k], url) ==> cs[k].value.confidence <= b
    ensures b > 0 ==> exists k :: 0 <= k < |cs| && Offers(cs[k], url) && cs[k].value.confidence == b
  {
    if cs == [] then 0
    else
      var front := cs[..|cs| - 1];
      var b := Best(front, url);
      assert forall k :: 0 <= k < |front| ==> front[k] == cs[k];
      if Offers(cs[|cs| - 1], url) then Max(b, cs[|cs| - 1].value.confidence) else b
  }

  /**
   * Strategy 1 never enters the page's own URL, and a URL reached by several
   * kept links ends with the highest of their confidences, whatever their order.
   */
  lemma {:induction false} LinkTableLookup(base: string, cs: seq<Option<Scored>>, url: string)
    requires forall k :: 0 <= k < |cs| && cs[k].Some? ==> cs[k].value.confidence > 0
    ensures Lookup(LinkTable(base, cs), url) == if url != base && Best(cs, url) > 0 then Some(Best(cs, url)) else None
  {
    if cs != [] {
      var front := cs[..|cs| - 1];
      assert forall k :: 0 <= k < |front| ==> front[k] == cs[k];
      LinkTableLookup(base, front, url);
    }
  }

  /** Strategy 1 over the page's links: the engine's first loop. */
  method RankAnchors(html: string, base: string, lib: Lib) returns (table: Dict<int>)
    ensures table == LinkTable(base, Assessed(html, base, lib.anchors(html), lib))
  {
    var anchors := lib.anchors(html);
    ghost var cs := Assessed(html, base, anchors, lib);
    table := [];
    var k := 0;
    while k < |anchors|
      invariant 0 <= k <= |anchors|
      invariant table == LinkTable(base, cs[..k])
    {
      LinkTableNext(base, cs, k);
      assert cs[k] == Assess(html, base, anchors[k], lib);
      table := RankLink(table, html, base, anchors[k], lib);
      k := k + 1;
    }
    WholePrefix(cs);
  }

  /** The body of the first loop: one link scored, checked and entered. */
  method RankLink(table: Dict<int>, html: string, base: string, a: Anchor, lib: Lib) returns (t: Dict<int>)
    ensures t == LinkStep(table, base, Assess(html, base, a, lib))
  {
    t := table;
    if Strip(a.href) == [] {
      return;
    }
    var textClean := CleanText(a.body, lib);
    var textLower := TextLower(a, lib);
    var hrefLower := HrefLower(a, lib);
    var confidence := LinkConfidence(html, a.href, textClean, textLower, hrefLower, lib);
    var exclude := ShouldExclude(hrefLower, textLower);
    assert Eligible(html, a, lib) <==> !exclude && confidence > 0;
    if !exclude && confidence > 0 {
      t := EnterLink(t, base, lib.urljoin(base, a.href), confidence);
    }
  }

  /** A kept link's entry: a new URL other than the page's own is added, a known one keeps the higher confidence. */
  method EnterLink(table: Dict<int>, base: string, fullUrl: string, confidence: int) returns (t: Dict<int>)
    ensures t == LinkStep(table, base, Some(Scored(fullUrl, confidence)))
  {
    t := table;
    if fullUrl != base && !HasKey(t, fullUrl) {
      t := Set(t, fullUrl, confidence);
    } else if HasKey(t, fullUrl) {
      t := Set(t, fullUrl, Max(Lookup(t, fullUrl).value, confidence));
    }
  }

  /** Adds each URL not yet in the table, with the given score; URLs already there keep theirs. */
  function AddMissing(table: Dict<int>, urls: seq<string>, score: int): (r: Dict<int>)
    ensures DistinctKeys(table) ==> DistinctKeys(r)
  {
    if urls == [] then table
    else
      var t := AddMissing(table, urls[..|urls| - 1], score);
      var u := urls[|urls| - 1];
      if HasKey(t, u) then t else Set(t, u, score)
  }

  lemma AddMissingSnoc(table: Dict<int>, urls: seq<string>, u: string, score: int)
    ensures AddMissing(table, urls + [u], score) ==
      var t := AddMissing(table, urls, score); if HasKey(t, u) then t else Set(t, u, score)
  {
    assert (urls + [u])[..|urls|] == urls;
  }

  /** Strategies 2 and 3 never change a score already in the table, and give each URL they add their fixed score. */
  lemma {:induction false} AddMissingLookup(table: Dict<int>, urls: seq<string>, score: int, url: string)
    ensures Lookup(AddMissing(table, urls, score), url) ==
      if HasKey(table, url) then Lookup(table, url) else if url in urls then Some(score) else None
  {
    if urls != [] {
      var front := urls[..|urls| - 1];
      AddMissingLookup(table, front, score, url);
      assert urls == front + [urls[|urls| - 1]];
    }
  }

  /** A button's text, without tags, stripped and lower-cased. */
  function ButtonText(b: Button, lib: Lib): string {
    lib.lower(CleanText(b.body, lib))
  }

  /** The URL a button contributes: its onclick target, when its text holds a keyword. */
  function ButtonTarget(base: string, b: Button, lib: Lib): Option<string> {
    if FirstWhere(PaginationPatterns(), Found(ButtonText(b, lib), lib.search)).Some? then
      match lib.onclickTarget(b.onclick)
      case Some(target) => Some(lib.urljoin(base, target))
      case None => None
    else None
  }

  function ButtonUrls(base: string, buttons: seq<Button>, lib: Lib): seq<string> {
    if buttons == [] then []
    else
      ButtonUrls(base, buttons[..|buttons| - 1], lib) +
      match ButtonTarget(base, buttons[|buttons| - 1], lib)
      case Some(u) => [u]
      case None => []
  }

  lemma ButtonUrlsSnoc(base: string, buttons: seq<Button>, k: nat, lib: Lib)
    requires k < |buttons|
    ensures ButtonUrls(base, buttons[..k + 1], lib) ==
      ButtonUrls(base, buttons[..k], lib) + match ButtonTarget(base, buttons[k], lib) case Some(u) => [u] case None => []
  {
    assert buttons[..k + 1][..k] == buttons[..k];
  }

  /** One button of strategy 2: its target is added with score 8 unless the table has it. */
  method AddButton(t: Dict<int>, base: string, b: Button, lib: Lib) returns (r: Dict<int>)
    ensures r == match ButtonTarget(base, b, lib)
      case Some(u) => (if HasKey(t, u) then t else Set(t, u, ButtonScore))
      case None => t
  {
    r := t;
    var keyword := FirstMatching(PaginationPatterns(), ButtonText(b, lib), lib);
    if keyword.Some? {
      match lib.onclickTarget(b.onclick) {
        case Some(target) =>
          var fullUrl := lib.urljoin(base, target);
          if !HasKey(t, fullUrl) {
            r := Set(t, fullUrl, ButtonScore);
          }
        case None =>
      }
    }
  }

  /** Strategy 2: the engine's loop over the page's buttons. */
  method AddButtonLinks(table: Dict<int>, html: string, base: string, lib: Lib) returns (t: Dict<int>)
    ensures t == AddMissing(table, ButtonUrls(base, lib.buttons(html), lib), ButtonScore)
  {
    var buttons := lib.buttons(html);
    t := table;
    var k := 0;
    while k < |buttons|
      invariant 0 <= k <= |buttons|
      invariant t == AddMissing(table, ButtonUrls(base, buttons[..k], lib), ButtonScore)
    {
      ghost var before := ButtonUrls(base, buttons[..k], lib);
      ButtonUrlsSnoc(base, buttons, k, lib);
      match ButtonTarget(base, buttons[k], lib) {
        case Some(u) => AddMissingSnoc(table, before, u, ButtonScore);
        case None => assert before + [] == before;
      }
      t := AddButton(t, base, buttons[k], lib);
      k := k + 1;
    }
    assert buttons[..k] == buttons;
  }

  /** The URL a form contributes: its action with `page=<value>` appended, when the value is a non-empty digit string. */
  function FormTarget(base: string, f: Form, lib: Lib): Option<string> {
    if f.pageValue != [] && lib.isDigit(f.pageValue) then
      var separator := if Contains(f.action, "?") then "&" else "?";
      Some(lib.urljoin(base, f.action + separator + "page=" + f.pageValue))
    else None
  }

  function FormUrls(base: string, forms: seq<Form>, lib: Lib): seq<string> {
    if forms == [] then []
    else
      FormUrls(base, forms[..|forms| - 1], lib) +
      match FormTarget(base, forms[|forms| - 1], lib)
      case Some(u) => [u]
      case None => []
  }

  lemma FormUrlsSnoc(base: string, forms: seq<Form>, k: nat, lib: Lib)
    requires k < |forms|
    ensures FormUrls(base, forms[..k + 1], lib) ==
      FormUrls(base, forms[..k], lib) + match FormTarget(base, forms[k], lib) case Some(u) => [u] case None => []
  {
    assert forms[..k + 1][..k] == forms[..k];
  }

  /** Strategy 3: the engine's loop over the page's forms. */
  method AddFormLinks(table: Dict<int>, html: string, base: string, lib: Lib) returns (t: Dict<int>)
    ensures t == AddMissing(table, FormUrls(base, lib.forms(html), lib), FormScore)
  {
    var forms := lib.forms(html);
    t := table;
    var k := 0;
    while k < |forms|
      invariant 0 <= k <= |forms|
      invariant t == AddMissing(table, FormUrls(base, forms[..k], lib), FormScore)
    {
      var f := forms[k];
      ghost var before := FormUrls(base, forms[..k], lib);
      FormUrlsSnoc(base, forms, k, lib);
      assert before + [] == before;
      if f.pageValue != [] && lib.isDigit(f.pageValue) {
        var separator := if Contains(f.action, "?") then "&" else "?";
        var fullUrl := lib.urljoin(base, f.action + separator + "page=" + f.pageValue);
        assert FormTarget(base, f, lib) == Some(fullUrl);
        AddMissingSnoc(table, before, fullUrl, FormScore);
        if !HasKey(t, fullUrl) {
          t := Set(t, fullUrl, FormScore);
        }
      } else {
        assert FormTarget(base, f, lib) == None;
      }
      k := k + 1;
    }
    assert forms[..k] == forms;
  }

  /** The finished URL -> confidence table of a page. */
  function CandidateTable(html: string, base: string, lib: Lib): (t: Dict<int>)
    ensures DistinctKeys(t)
  {
    var links := LinkTable(base, Assessed(html, base, lib.anchors(html), lib));
    var withButtons := AddMissing(links, ButtonUrls(base, lib.buttons(html), lib), ButtonScore);
    AddMissing(withButtons, FormUrls(base, lib.forms(html), lib), FormScore)
  }

  /** A link that scores at all scores between 5 and 53. */
  lemma PointsRange(html: string, href: string, textClean: string, textLower: string, hrefLower: string, lib: Lib)
    ensures var p := Points(html, href, textClean, textLower, hrefLower, lib); p == 0 || MinConfidence <= p <= 53
  {
    var keyword := KeywordScore(textLower, lib);
    var number := NumberScore(textClean, lib);
    assert keyword == 0 || keyword == 10 || keyword == 15;
    assert number == 0 || number == 8 || number == 11;
  }

  /** Every link strategy 1 keeps offers a confidence of at least 5. */
  lemma AssessedAtLeastFive(html: string, base: string, anchors: seq<Anchor>, lib: Lib)
    ensures forall k :: 0 <= k < |anchors| && Assessed(html, base, anchors, lib)[k].Some? ==>
      Assessed(html, base, anchors, lib)[k].value.confidence >= MinConfidence
  {
    var cs := Assessed(html, base, anchors, lib);
    forall k | 0 <= k < |anchors| && cs[k].Some? ensures cs[k].value.confidence >= MinConfidence {
      var a := anchors[k];
      assert cs[k] == Assess(html, base, a, lib);
      PointsRange(html, a.href, CleanText(a.body, lib), TextLower(a, lib), HrefLower(a, lib), lib);
    }
  }

  /**
   * The confidence a URL ends with: the best its kept links offer when
   * strategy 1 entered it, else 8 when a button names it, else 6 when a form
   * yields it; a URL none of them names is not in the table.
   */
  lemma CandidateTableLookup(html: string, base: string, lib: Lib, url: string)
    ensures var cs := Assessed(html, base, lib.anchors(html), lib);
      Lookup(CandidateTable(html, base, lib), url) ==
      if url != base && Best(cs, url) > 0 then Some(Best(cs, url))
      else if url in ButtonUrls(base, lib.buttons(html), lib) then Some(ButtonScore)
      else if url in FormUrls(base, lib.forms(html), lib) then Some(FormScore)
      else None
  {
    var cs := Assessed(html, base, lib.anchors(html), lib);
    var links := LinkTable(base, cs);
    var buttons := ButtonUrls(base, lib.buttons(html), lib);
    var withButtons := AddMissing(links, buttons, ButtonScore);
    AssessedAtLeastFive(html, base, lib.anchors(html), lib);
    LinkTableLookup(base, cs, url);
    AddMissingLookup(links, buttons, ButtonScore, url);
    AddMissingLookup(withButtons, FormUrls(base, lib.forms(html), lib), FormScore, url);
  }

  /** Every score in a page's table is at least 5, so the `>= 5` filter of the selection never removes a candidate. */
  lemma CandidateScoresAtLeastFive(html: string, base: string, lib: Lib)
    ensures forall k :: 0 <= k < |CandidateTable(html, base, lib)| ==> CandidateTable(html, base, lib)[k].1 >= MinConfidence
  {
    var t := CandidateTable(html, base, lib);
    var cs := Assessed(html, base, lib.anchors(html), lib);
    AssessedAtLeastFive(html, base, lib.anchors(html), lib);
    forall k | 0 <= k < |t| ensures t[k].1 >= MinConfidence {
      LookupItem(t, k);
      CandidateTableLookup(html, base, lib, t[k].0);
    }
  }

  /**
   * `find_pagination_links(html, base_url)`: at most three URLs of the page's
   * candidate table, none twice, each scoring at least 5, best first; a
   * candidate is left out only for three that score no less.
   */
  method FindPaginationLinks(html: string, base: string, lib: Lib) returns (links: seq<string>)
    ensures links == TopCandidates(CandidateTable(html, base, lib))
    ensures |links| <= MaxLinks
    ensures forall i, j :: 0 <= i < j < |links| ==> links[i] != links[j]
    ensures forall i :: 0 <= i < |links| ==>
      Lookup(CandidateTable(html, base, lib), links[i]).Some? &&
      Lookup(CandidateTable(html, base, lib), links[i]).value >= MinConfidence
    ensures forall i, j :: 0 <= i < j < |links| ==>
      Lookup(CandidateTable(html, base, lib), links[i]).GetOr(0) >= Lookup(CandidateTable(html, base, lib), links[j]).GetOr(0)
    ensures forall k :: 0 <= k < |CandidateTable(html, base, lib)| && CandidateTable(html, base, lib)[k].0 !in links ==>
      |links| == MaxLinks &&
      forall i :: 0 <= i < MaxLinks ==> Lookup(CandidateTable(html, base, lib), links[i]).GetOr(0) >= CandidateTable(html, base, lib)[k].1
  {
    var table := RankAnchors(html, base, lib);
    table := AddButtonLinks(table, html, base, lib);
    table := AddFormLinks(table, html, base, lib);
    links := TopCandidates(table);
    TopCandidatesFacts(table);
    CandidateScoresAtLeastFive(html, base, lib);
  }
}
