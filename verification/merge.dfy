/**
 * The second half of `scrape_with_pagination`: the pages scraped, in order,
 * become one result. Texts are joined under per-page headers, the pages'
 * JSON objects are merged key by key, and media and links are unioned.
 */
module Merge {
  import opened Wrappers
  import opened Text
  import opened Dicts
  import opened Json

  /** The `data` of one successful `scrape_single_page`, as far as the merge reads it. */
  datatype Page = Page(
    markdown: string,
    html: string,
    cleanedHtml: string,
    json: Json,
    url: string,
    title: string,
    media: Json,
    links: Json)

  /** The `metadata.pagination` record of a combined result. */
  datatype Meta = Meta(pagesScraped: nat, maxPagesRequested: int, urls: seq<string>)

  /** The `data` of a successful `scrape_with_pagination`. */
  datatype Combined = Combined(
    markdown: string,
    html: string,
    cleanedHtml: string,
    json: Dict<Json>,
    url: string,
    title: string,
    media: Dict<Json>,
    links: Dict<Json>,
    metadata: Meta)

  const MarkdownBreak: string := "\n\n--- PAGE BREAK ---\n\n"
  const HtmlBreak: string := "\n\n<!-- PAGE BREAK -->\n\n"
  const ErrorPrefix: string := "Error during pagination scraping: "

  /** The message of the `AttributeError` raised by `.items()` on a value that is not a dict. */
  function NoItems(j: Json): string {
    ErrorPrefix + "'" + TypeName(j) + "' object has no attribute 'items'"
  }

  /** The markdown header of the page at index `i` (numbered from 1). */
  function PageHeader(i: nat, p: Page): string {
    "# Page " + NatToString(i + 1) + " - " + p.title + "\n\n*Source: " + p.url + "*\n\n"
  }

  /** The comment put before the page's HTML and cleaned HTML. */
  function HtmlHeader(i: nat, p: Page): string {
    "<!-- PAGE " + NatToString(i + 1) + ": " + p.title + " - " + p.url + " -->\n\n"
  }

  function MarkdownParts(pages: seq<Page>): (parts: seq<string>)
    ensures |parts| == |pages|
  {
    seq(|pages|, i requires 0 <= i < |pages| => PageHeader(i, pages[i]) + pages[i].markdown)
  }

  function HtmlParts(pages: seq<Page>): (parts: seq<string>)
    ensures |parts| == |pages|
  {
    seq(|pages|, i requires 0 <= i < |pages| => HtmlHeader(i, pages[i]) + pages[i].html)
  }

  function CleanedParts(pages: seq<Page>): (parts: seq<string>)
    ensures |parts| == |pages|
  {
    seq(|pages|, i requires 0 <= i < |pages| => HtmlHeader(i, pages[i]) + pages[i].cleanedHtml)
  }

  function Urls(pages: seq<Page>): (urls: seq<string>)
    ensures |urls| == |pages| && forall i :: 0 <= i < |pages| ==> urls[i] == pages[i].url
  {
    seq(|pages|, i requires 0 <= i < |pages| => pages[i].url)
  }

  function JsonOf(pages: seq<Page>): (js: seq<Json>)
    ensures |js| == |pages| && forall i :: 0 <= i < |pages| ==> js[i] == pages[i].json
  {
    seq(|pages|, i requires 0 <= i < |pages| => pages[i].json)
  }

  function MediaOf(pages: seq<Page>): (js: seq<Json>)
    ensures |js| == |pages| && forall i :: 0 <= i < |pages| ==> js[i] == pages[i].media
  {
    seq(|pages|, i requires 0 <= i < |pages| => pages[i].media)
  }

  function LinksOf(pages: seq<Page>): (js: seq<Json>)
    ensures |js| == |pages| && forall i :: 0 <= i < |pages| ==> js[i] == pages[i].links
  {
    seq(|pages|, i requires 0 <= i < |pages| => pages[i].links)
  }

  /** The `(key, value)` pairs `.items()` yields over the values in turn, or the error of the first value that is not a dict. */
  function ObjectFields(values: seq<Json>): Result<Dict<Json>, string> {
    if values == [] then Ok([])
    else
      match ObjectFields(values[..|values| - 1])
      case Err(e) => Err(e)
      case Ok(items) =>
        match values[|values| - 1]
        case Object(fields) => Ok(items + fields)
        case _ => Err(NoItems(values[|values| - 1]))
  }

  /** The fields are listed only when every value is a dict; otherwise the error names the first value that is not. */
  lemma {:induction false} ObjectFieldsFacts(values: seq<Json>)
    ensures ObjectFields(values).Ok? <==> forall i :: 0 <= i < |values| ==> values[i].Object?
    ensures ObjectFields(values).Err? ==> exists i :: (0 <= i < |values| && !values[i].Object? &&
      (forall j :: 0 <= j < i ==> values[j].Object?) && ObjectFields(values).error == NoItems(values[i]))
  {
    if values != [] {
      var front := values[..|values| - 1];
      ObjectFieldsFacts(front);
      assert forall j :: 0 <= j < |front| ==> front[j] == values[j];
    }
  }

  /** `value` as a list: a list stays itself, anything else becomes a list of one. */
  function AsList(value: Json): seq<Json> {
    if value.Array? then value.items else [value]
  }

  /** One step of the JSON merge: a new key takes the value, a key seen before collects it in a list. */
  function MergeStep(acc: Dict<Json>, item: (string, Json)): Dict<Json> {
    match Lookup(acc, item.0)
    case None => Set(acc, item.0, item.1)
    case Some(prev) => Set(acc, item.0, Array(AsList(prev) + [item.1]))
  }

  function MergeItems(items: Dict<Json>): Dict<Json> {
    if items == [] then [] else MergeStep(MergeItems(items[..|items| - 1]), items[|items| - 1])
  }

  /** Merging one more field of a page is one more merge step. */
  lemma MergeItemsNext(seen: Dict<Json>, fields: Dict<Json>, j: nat)
    requires j < |fields|
    ensures MergeItems(seen + fields[..j + 1]) == MergeStep(MergeItems(seen + fields[..j]), fields[j])
  {
    var items := seen + fields[..j + 1];
    assert items[..|items| - 1] == seen + fields[..j];
  }

  /** The values `key` has among `items`, in order. */
  function ValuesOf(items: Dict<Json>, key: string): (vs: seq<Json>)
    ensures |vs| <= |items|
  {
    if items == [] then []
    else ValuesOf(items[..|items| - 1], key) + if items[|items| - 1].0 == key then [items[|items| - 1].1] else []
  }

  /** The merged JSON maps each key to the merge of its values, in page order. */
  lemma {:induction false} MergeItemsLookup(items: Dict<Json>, key: string)
    ensures Lookup(MergeItems(items), key) == Merged(ValuesOf(items, key))
  {
    if items != [] {
      var front := items[..|items| - 1];
      var last := items[|items| - 1];
      MergeItemsLookup(front, key);
      var vs := ValuesOf(front, key);
      if last.0 == key {
        MergedSnoc(vs, last.1);
      } else {
        assert ValuesOf(items, key) == vs + [] == vs;
      }
    }
  }

  /**
   * What a key's values merge to: nothing, the only value, or a list of the
   * first value's elements when it was a list (later values are appended to
   * it) or else of the first value itself, followed by the later values.
   */
  function Merged(vs: seq<Json>): Option<Json> {
    if vs == [] then None
    else if |vs| == 1 then Some(vs[0])
    else Some(Array(AsList(vs[0]) + vs[1..]))
  }

  lemma MergedSnoc(vs: seq<Json>, v: Json)
    ensures Merged(vs + [v]) == match Merged(vs) case None => Some(v) case Some(prev) => Some(Array(AsList(prev) + [v]))
  {
    if |vs| == 1 {
      assert (vs + [v])[1..] == [v];
    } else if |vs| > 1 {
      assert (vs + [v])[1..] == vs[1..] + [v];
      assert AsList(Array(AsList(vs[0]) + vs[1..])) + [v] == AsList(vs[0]) + (vs[1..] + [v]);
    }
  }

  /** Every key is listed once. */
  lemma {:induction false} MergeItemsDistinct(items: Dict<Json>)
    ensures DistinctKeys(MergeItems(items))
  {
    if items != [] {
      MergeItemsDistinct(items[..|items| - 1]);
    }
  }

  /** `{k: v for ... for k, v in items}`: a later value replaces an earlier one of the same key, which keeps its place. */
  function UnionItems(items: Dict<Json>): (r: Dict<Json>)
    ensures DistinctKeys(r)
  {
    if items == [] then [] else Set(UnionItems(items[..|items| - 1]), items[|items| - 1].0, items[|items| - 1].1)
  }

  /** The union holds each key's last value. */
  lemma {:induction false} UnionItemsLookup(items: Dict<Json>, key: string)
    ensures var vs := ValuesOf(items, key);
      Lookup(UnionItems(items), key) == if vs == [] then None else Some(vs[|vs| - 1])
  {
    if items != [] {
      var front := items[..|items| - 1];
      UnionItemsLookup(front, key);
      assert ValuesOf(front, key) + [] == ValuesOf(front, key);
    }
  }

  function StrList(ss: seq<string>): (r: seq<Json>)
    ensures |r| == |ss| && forall i :: 0 <= i < |ss| ==> r[i] == Str(ss[i])
  {
    seq(|ss|, i requires 0 <= i < |ss| => Str(ss[i]))
  }

  /** The `pagination_info` object put into the merged JSON. */
  function PaginationInfo(pages: seq<Page>): Json {
    Object([
      ("pages_scraped", Int(|pages|)),
      ("urls_scraped", Array(StrList(Urls(pages)))),
      ("total_results", Int(|pages|))])
  }

  /** The merged JSON: the pages' fields merged, then `pagination_info` set (replacing any page's value of that key). */
  function CombinedJson(items: Dict<Json>, pages: seq<Page>): Dict<Json> {
    Set(MergeItems(items), "pagination_info", PaginationInfo(pages))
  }

  /** The combined result, once the pages' JSON, media and links have been read as the field lists given. */
  function Assemble(url: string, maxPages: int, pages: seq<Page>, items: Dict<Json>, media: Dict<Json>, links: Dict<Json>): Combined {
    Combined(
      Join(MarkdownBreak, MarkdownParts(pages)),
      Join(HtmlBreak, HtmlParts(pages)),
      Join(HtmlBreak, CleanedParts(pages)),
      CombinedJson(items, pages),
      url,
      if pages == [] then "" else pages[0].title,
      UnionItems(media),
      UnionItems(links),
      Meta(|pages|, maxPages, Urls(pages)))
  }

  /**
   * The result of combining the pages, or the error raised on the way: the
   * pages' JSON values are read first, then their media, then their links.
   */
  function Combine(url: string, maxPages: int, pages: seq<Page>): Result<Combined, string> {
    match ObjectFields(JsonOf(pages))
    case Err(e) => Err(e)
    case Ok(items) =>
      match ObjectFields(MediaOf(pages))
      case Err(e) => Err(e)
      case Ok(media) =>
        match ObjectFields(LinksOf(pages))
        case Err(e) => Err(e)
        case Ok(links) => Ok(Assemble(url, maxPages, pages, items, media, links))
  }

  /** The combination fails exactly when some page's JSON, media or links is not a dict. */
  lemma CombineSucceeds(url: string, maxPages: int, pages: seq<Page>)
    ensures Combine(url, maxPages, pages).Ok? <==>
      forall i :: 0 <= i < |pages| ==> pages[i].json.Object? && pages[i].media.Object? && pages[i].links.Object?
  {
    ObjectFieldsFacts(JsonOf(pages));
    ObjectFieldsFacts(MediaOf(pages));
    ObjectFieldsFacts(LinksOf(pages));
  }

  /**
   * A combination reports the start URL, the first page's title (empty when
   * there is no page) and, in its metadata, how many pages it holds, the
   * limit asked for and each page's URL.
   */
  lemma CombinedMeta(url: string, maxPages: int, pages: seq<Page>)
    ensures Combine(url, maxPages, pages).Ok? ==>
      var c := Combine(url, maxPages, pages).value;
      && c.url == url
      && c.title == (if pages == [] then "" else pages[0].title)
      && c.metadata == Meta(|pages|, maxPages, Urls(pages))
  {
  }

  /** With no pages the combination holds no text, only `pagination_info`, and no media or links. */
  lemma CombineNoPages(url: string, maxPages: int)
    ensures Combine(url, maxPages, []) ==
      Ok(Combined("", "", "", [("pagination_info", PaginationInfo([]))], url, "", [], [], Meta(0, maxPages, [])))
  {
    assert JsonOf([]) == [] && MediaOf([]) == [] && LinksOf([]) == [] && Urls([]) == [];
    assert MarkdownParts([]) == [] && HtmlParts([]) == [] && CleanedParts([]) == [];
    assert !HasKey<Json>([], "pagination_info");
    assert CombinedJson([], []) == [("pagination_info", PaginationInfo([]))];
    assert Combine(url, maxPages, []) == Ok(Assemble(url, maxPages, [], [], [], []));
  }

  /** The combined markdown holds each page's header and markdown, in page order, separated by the page break. */
  lemma CombinedMarkdownHoldsPages(url: string, maxPages: int, pages: seq<Page>, i: nat)
    requires Combine(url, maxPages, pages).Ok? && i < |pages|
    ensures MarkdownParts(pages)[i] == PageHeader(i, pages[i]) + pages[i].markdown
    ensures var c := Combine(url, maxPages, pages).value;
      var part := MarkdownParts(pages)[i];
      var o := Offset(MarkdownBreak, MarkdownParts(pages), i);
      o + |part| <= |c.markdown| && c.markdown[o..o + |part|] == part
  {
    JoinAt(MarkdownBreak, MarkdownParts(pages), i);
  }

  /** The combined cleaned HTML holds each page's comment and cleaned HTML, in page order, separated by the page break. */
  lemma CombinedCleanedHoldsPages(url: string, maxPages: int, pages: seq<Page>, i: nat)
    requires Combine(url, maxPages, pages).Ok? && i < |pages|
    ensures CleanedParts(pages)[i] == HtmlHeader(i, pages[i]) + pages[i].cleanedHtml
    ensures var c := Combine(url, maxPages, pages).value;
      var part := CleanedParts(pages)[i];
      var o := Offset(HtmlBreak, CleanedParts(pages), i);
      o + |part| <= |c.cleanedHtml| && c.cleanedHtml[o..o + |part|] == part
  {
    JoinAt(HtmlBreak, CleanedParts(pages), i);
  }

  /** The combined HTML holds each page's comment and HTML, in page order, separated by the page break. */
  lemma CombinedHtmlHoldsPages(url: string, maxPages: int, pages: seq<Page>, i: nat)
    requires Combine(url, maxPages, pages).Ok? && i < |pages|
    ensures HtmlParts(pages)[i] == HtmlHeader(i, pages[i]) + pages[i].html
    ensures var c := Combine(url, maxPages, pages).value;
      var part := HtmlParts(pages)[i];
      var o := Offset(HtmlBreak, HtmlParts(pages), i);
      o + |part| <= |c.html| && c.html[o..o + |part|] == part
  {
    JoinAt(HtmlBreak, HtmlParts(pages), i);
  }

  /**
   * The merged JSON of a combined result: `pagination_info` counts the pages
   * and lists their URLs; every other key maps as the merge of its values
   * across the pages says.
   */
  lemma CombinedJsonFacts(url: string, maxPages: int, pages: seq<Page>, key: string)
    requires Combine(url, maxPages, pages).Ok?
    ensures var c := Combine(url, maxPages, pages).value;
      var items := ObjectFields(JsonOf(pages)).value;
      var vs := ValuesOf(items, key);
      && DistinctKeys(c.json)
      && Lookup(c.json, "pagination_info") == Some(PaginationInfo(pages))
      && (key != "pagination_info" ==> Lookup(c.json, key) == Merged(vs))
  {
    var items := ObjectFields(JsonOf(pages)).value;
    MergeItemsLookup(items, key);
    MergeItemsDistinct(items);
  }

  /** In the combined media and links, each key holds the value of the last page that has it. */
  lemma CombinedUnionFacts(url: string, maxPages: int, pages: seq<Page>, key: string)
    requires Combine(url, maxPages, pages).Ok?
    ensures var c := Combine(url, maxPages, pages).value;
      var media := ValuesOf(ObjectFields(MediaOf(pages)).value, key);
      var links := ValuesOf(ObjectFields(LinksOf(pages)).value, key);
      && Lookup(c.media, key) == (if media == [] then None else Some(media[|media| - 1]))
      && Lookup(c.links, key) == (if links == [] then None else Some(links[|links| - 1]))
  {
    var items := ObjectFields(JsonOf(pages)).value;
    var media := ObjectFields(MediaOf(pages)).value;
    var links := ObjectFields(LinksOf(pages)).value;
    assert Combine(url, maxPages, pages) == Ok(Assemble(url, maxPages, pages, items, media, links));
    UnionItemsLookup(media, key);
    UnionItemsLookup(links, key);
  }

  /** The engine's merge: a loop collecting the per-page texts, a nested loop merging the JSON, then the unions. */
  method CombineResults(url: string, maxPages: int, pages: seq<Page>) returns (r: Result<Combined, string>)
    ensures r == Combine(url, maxPages, pages)
  {
    var markdownParts: seq<string> := [];
    var htmlParts: seq<string> := [];
    var cleanedParts: seq<string> := [];
    var i := 0;
    while i < |pages|
      invariant 0 <= i <= |pages|
      invariant markdownParts == MarkdownParts(pages[..i])
      invariant htmlParts == HtmlParts(pages[..i])
      invariant cleanedParts == CleanedParts(pages[..i])
    {
      var p := pages[i];
      markdownParts := markdownParts + [PageHeader(i, p) + p.markdown];
      var htmlHeader := HtmlHeader(i, p);
      htmlParts := htmlParts + [htmlHeader + p.html];
      cleanedParts := cleanedParts + [htmlHeader + p.cleanedHtml];
      i := i + 1;
    }
    assert pages[..i] == pages;
    var merged := MergeJson(pages);
    match merged {
      case Err(e) => return Err(e);
      case Ok(json) =>
        var withInfo := Set(json, "pagination_info", PaginationInfo(pages));
        match ObjectFields(MediaOf(pages)) {
          case Err(e) => return Err(e);
          case Ok(media) =>
            match ObjectFields(LinksOf(pages)) {
              case Err(e) => return Err(e);
              case Ok(links) =>
                r := Ok(Combined(
                  Join(MarkdownBreak, markdownParts),
                  Join(HtmlBreak, htmlParts),
                  Join(HtmlBreak, cleanedParts),
                  withInfo,
                  url,
                  if pages == [] then "" else pages[0].title,
                  UnionItems(media),
                  UnionItems(links),
                  Meta(|pages|, maxPages, Urls(pages))));
            }
        }
    }
  }

  /** The nested loop over the pages and each page's `json.items()`. */
  method MergeJson(pages: seq<Page>) returns (r: Result<Dict<Json>, string>)
    ensures r.Err? <==> ObjectFields(JsonOf(pages)).Err?
    ensures r.Err? ==> r == Err(ObjectFields(JsonOf(pages)).error)
    ensures r.Ok? ==> r.value == MergeItems(ObjectFields(JsonOf(pages)).value)
  {
    var combined: Dict<Json> := [];
    ghost var seen: Dict<Json> := [];
    var i := 0;
    while i < |pages|
      invariant 0 <= i <= |pages|
      invariant ObjectFields(JsonOf(pages[..i])) == Ok(seen)
      invariant combined == MergeItems(seen)
    {
      assert JsonOf(pages[..i + 1])[..i] == JsonOf(pages[..i]);
      match pages[i].json {
        case Object(fields) =>
          combined := MergeFields(combined, seen, fields);
          seen := seen + fields;
        case _ =>
          assert JsonOf(pages)[..i] == JsonOf(pages[..i]);
          ObjectFieldsPrefixErr(JsonOf(pages), i);
          return Err(NoItems(pages[i].json));
      }
      i := i + 1;
    }
    assert pages[..i] == pages;
    r := Ok(combined);
  }

  /** The inner loop: one page's `(key, value)` pairs merged into the JSON collected so far. */
  method MergeFields(combined: Dict<Json>, ghost seen: Dict<Json>, fields: Dict<Json>) returns (r: Dict<Json>)
    requires combined == MergeItems(seen)
    ensures r == MergeItems(seen + fields)
  {
    r := combined;
    var j := 0;
    assert seen + fields[..0] == seen;
    while j < |fields|
      invariant 0 <= j <= |fields|
      invariant r == MergeItems(seen + fields[..j])
    {
      var (key, value) := fields[j];
      MergeItemsNext(seen, fields, j);
      match Lookup(r, key) {
        case Some(prev) =>
          r := Set(r, key, Array(AsList(prev) + [value]));
        case None =>
          r := Set(r, key, value);
      }
      j := j + 1;
    }
    assert fields[..j] == fields;
  }

  /** Once a prefix of the values fails, the whole sequence fails with the same error. */
  lemma {:induction false} ObjectFieldsPrefixErr(values: seq<Json>, i: nat)
    requires i < |values| && ObjectFields(values[..i]).Ok? && !values[i].Object?
    ensures ObjectFields(values) == Err(NoItems(values[i]))
    decreases |values|
  {
    var front := values[..|values| - 1];
    if i == |values| - 1 {
      assert front == values[..i];
    } else {
      assert front[..i] == values[..i];
      ObjectFieldsPrefixErr(front, i);
    }
  }
}
