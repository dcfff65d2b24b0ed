/**
 * What the engine takes from Python's libraries without defining it: the
 * regular-expression engine (each fixed pattern of the engine is asked about
 * through `search`, and each `re.findall` extraction is its own field),
 * `str.lower`, `str.isdigit`, `int()`, `json.loads` and `urljoin`
 * (reference resolution, section 5.2 of RFC 3986). Nothing is assumed about
 * any of them: every property of the model holds whatever they do.
 */
module Lib {
  import opened Wrappers
  import opened Json

  /** One match of the anchor pattern: the `href` value and the markup between `<a ...>` and `</a>`. */
  datatype Anchor = Anchor(href: string, body: string)

  /** One match of the button pattern: the `onclick` value and the markup inside the button. */
  datatype Button = Button(onclick: string, body: string)

  /** One match of the form pattern: the form's `action` and the `value` of its `page` input. */
  datatype Form = Form(action: string, pageValue: string)

  datatype Lib = Lib(
    /** `re.findall` of the `<a ... href=...>...</a>` pattern over the page. */
    anchors: string -> seq<Anchor>,
    /** `re.findall` of the `<button ... onclick=...>...</button>` pattern over the page. */
    buttons: string -> seq<Button>,
    /** `re.findall` of the `<form action=...> ... <input name="page" value=...>` pattern over the page. */
    forms: string -> seq<Form>,
    /** `re.sub(r'<[^>]+>', '', s)`: the text with its tags removed. */
    stripTags: string -> string,
    /** `s.lower()` */
    lower: string -> string,
    /** `re.search(pattern, text)` succeeds, for one of the engine's fixed patterns. */
    search: (string, string) -> bool,
    /** `re.match(r'^\d+$', s)` succeeds, paired with `int(s)` (which cannot fail on such a string). */
    digitsValue: string -> Option<int>,
    /** The page holds an anchor with `rel="next"` before this exact `href`. */
    relNext: (string, string) -> bool,
    /** The page holds an anchor with a next/pagination/pager/nav class before this exact `href`. */
    navClass: (string, string) -> bool,
    /** The URL a `location.href = '...'` or `window.location = '...'` in an onclick assigns, if any. */
    onclickTarget: string -> Option<string>,
    /** `s.isdigit()` */
    isDigit: string -> bool,
    /** `urljoin(base, ref)` */
    urljoin: (string, string) -> string,
    /**
     * The inner markup of every anchor the next-link chooser's ad-hoc pattern
     * finds for a candidate URL, given the page and the page's URL.
     */
    anchorTexts: (string, string, string) -> seq<string>,
    /** `json.loads(s)`, `None` when it raises `JSONDecodeError`. */
    parseJson: string -> Option<Json>,
    /** `int(s)`, `None` when it raises `ValueError`. */
    parseInt: string -> Option<int>
  )
}
