/**
 * The data shared by the list page (main.js) and the detail page (post.js):
 * a post as it arrives in the JSON feed, the result of fetching that feed,
 * the browser library results both pages consume without computing them,
 * and the date formatting both pages define identically.
 */
module Feed {

  datatype Option<+T> = None | Some(value: T)

  /** What `parseInt(s, 10)` hands back: NaN when no digits lead the string, otherwise an integer. */
  datatype JsInt = NaN | Int(value: int)

  /**
   * One record of the feed. `id` is the value of `Number(p.id)`; `date` and
   * `imageUrl` may be missing from the JSON object, which is `None` here.
   */
  datatype Post = Post(
    id: int,
    title: string,
    date: Option<string>,
    imageUrl: Option<string>,
    bodyHtml: string)

  /** `await fetch(url)` followed by `await res.json()`: the parsed array, or a thrown error. */
  datatype FeedResult = Loaded(posts: seq<Post>) | Failed

  /** An `<img>` element, by its `src` and `alt` attributes. */
  datatype Img = Img(src: string, alt: string)

  /**
   * The browser behaviour the pages call into and the model takes as given:
   *  - parseInt:    `parseInt(s, 10)`
   *  - textContent: the text of a detached `<div>` whose innerHTML is set to the argument
   *  - parseDate:   `new Date(s).getTime()`, None when that is NaN
   *  - isoDay:      `toISOString().substring(0, 10)` of a valid timestamp
   *  - sortByDate:  the in-place `sort` by descending `new Date(date)` of the list page
   */
  datatype Browser = Browser(
    parseInt: string -> JsInt,
    textContent: string -> string,
    parseDate: string -> Option<int>,
    isoDay: int -> string,
    sortByDate: seq<Post> -> seq<Post>)

  /** JavaScript truthiness of an optional string: present and non-empty. */
  predicate Truthy(s: Option<string>)
  {
    s.Some? && s.value != ""
  }

  /**
   * `formatDate`: an empty or missing value gives the empty string, a value
   * the Date parser rejects is echoed unchanged, and a parsed one is shown as
   * its ISO calendar day.
   */
  function FormatDate(value: Option<string>, browser: Browser): (r: string)
    ensures !Truthy(value) ==> r == ""
    ensures Truthy(value) && browser.parseDate(value.value).None? ==> r == value.value
    ensures Truthy(value) && browser.parseDate(value.value).Some? ==>
              r == browser.isoDay(browser.parseDate(value.value).value)
    ensures r == "" <==>
              (!Truthy(value) ||
               (browser.parseDate(value.value).Some? && browser.isoDay(browser.parseDate(value.value).value) == ""))
  {
    if !Truthy(value) then ""
    else match browser.parseDate(value.value)
      case None => value.value
      case Some(t) => browser.isoDay(t)
  }
}
