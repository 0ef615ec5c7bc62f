# Static blog front end: list and detail page logic

This project models the decision and arithmetic core of a small client-rendered
blog. The blog fetches a JSON feed of posts and has two pages:

- **The list page** (`main.js`) reads a `page` number from the query string and
  clamps it to at least 1. It shows the ten posts of that page as cards and
  renders one pagination link per page. Each card has a thumbnail (when the
  post has an image URL), a date, the title and a text snippet of at most 100
  characters plus an ellipsis.
- **The detail page** (`post.js`) reads an `id` from the query string. It
  rejects a falsy id, fetches the feed, finds the first post with that id and
  renders it. Otherwise it renders one of three messages: invalid id, post not
  found, or failed load.

Modules:

- `Feed` (`Feed.dfy`) holds the shared data: `Post`, the fetch result `FeedResult`,
  the parsed-integer result `JsInt`, and `Browser`. `Browser` is a record of the
  library behaviour the pages use but the model does not compute: parseInt,
  HTML-to-text extraction, Date parsing and ISO formatting, and the date sort.
  It also holds `FormatDate`, which both source files define identically.
- `ListPage` (`ListPage.dfy`) models `main.js`. The current page, the snippet rule,
  JavaScript's `slice`, the page window, the page count and the link list are
  pure functions, with lemmas about them. The class `ListView` holds the two DOM
  containers the page clears and refills: `#post-list` and `#pagination`. Its
  methods run the source's loops and are proved against those functions.
- `PostPage` (`PostPage.dfy`) models `post.js` as pure functions. `LoadPost`
  returns an `Outcome` (`Invalid | FetchFailed | NotFound | Found(post)`).
  `RenderPost` gives the single content written to `#post`.

The code has no image-URL blocklist, no placeholder image and no 12-hour date
parser. It tests the image URL only for truthiness and uses only JavaScript's
`Date`. The model follows the code.

## Model

| member | source | states |
|---|---|---|
| `Feed.FormatDate` | main.js:20-25 | An empty or missing value gives `""`. A value the Date parser rejects is echoed unchanged. A parsed value gives its ISO day. The result is empty exactly when the input is empty or the ISO day text is empty. |
| `ListPage.CurrentPage` | main.js:7-11 | The page is always at least 1. It is the parsed value when that value is a positive integer, and 1 otherwise (NaN, zero, negative). A missing or empty parameter gives page 1, given that parseInt("1") is 1. |
| `ListPage.Snippet` | main.js:13-18 | Text of at most `length` characters is returned unchanged. Longer text gives exactly `length + 1` characters: its first `length` characters, then the ellipsis U+2026. The result is never longer than the input. |
| `ListPage.SnippetIdempotent` | main.js:17 | Truncating a snippet again with the same budget leaves it unchanged. |
| `ListPage.RelativeIndex` | main.js:31 | An index argument of `slice` lands within the sequence. A non-negative index is clamped to the length. |
| `ListPage.JsSlice` | main.js:31 | For `0 <= start <= end`, `slice(start, end)` is the contiguous run from `min(start, n)` to `min(end, n)`. The result is never longer than the input. |
| `ListPage.PageSlice` | main.js:28-31 | Page `p` shows `min(10, max(0, n - (p-1)*10))` posts. Its k-th post is the feed's post at index `(p-1)*10 + k`. |
| `ListPage.TotalPages` | main.js:62 | The page count is at least 1, and exactly 1 for an empty feed. For `n > 0` it is the ceiling of `n/10`: `(t-1)*10 < n <= t*10`. |
| `ListPage.PageNonEmptyExactlyWithinRange` | main.js:29-31 | A page after the last page is empty. In a non-empty feed, every page from 1 to the page count shows at least one post. |
| `ListPage.PagesThroughIsPrefix` | main.js:29-31 | Pages 1 to `k` together are exactly the first `min(10k, n)` posts, in order. |
| `ListPage.PagesPartitionFeed` | main.js:29-31 | Pages 1 to the page count, concatenated, give back the whole feed in order: no gaps and no overlaps. |
| `ListPage.PageOfPost` | main.js:29-31 | The post at index `i` is on page `i/10 + 1`, which is within the page count, at position `i % 10`. No other page shows it. |
| `ListPage.LinksNumberedInOrder` | main.js:66-69 | There is one link per page. The links are numbered 1 to the page count in strictly increasing order. |
| `ListPage.OneActiveLink` | main.js:70-72 | Some link is active exactly when `1 <= current <= totalPages`. An active link is the current page's link, and at most one link is active. |
| `ListPage.CardFor` | main.js:36-53 | A card carries the post's id and title. It has an image (`src` = the image URL, `alt` = the title) exactly when the image URL is non-empty. Its date is `formatDate(post.date)`. Its snippet is the body's text when that has at most 100 characters, and otherwise the first 100 characters followed by the ellipsis. |
| `ListPage.ListView.RenderPagination` | main.js:61-75 | Afterwards `#pagination` holds exactly the links for pages 1 to the page count, with only the current page's link active. Nothing from an earlier render remains. |
| `ListPage.ListView.RenderPosts` | main.js:27-59 | Afterwards `#post-list` holds exactly one card per post of the current page's window, in order. Nothing from an earlier render remains. The pagination is rendered for the whole feed and the same current page. |
| `ListPage.ListView.LoadPosts` | main.js:77-91 | A failed fetch leaves only the failure notice in `#post-list` and does not touch the pagination. A successful fetch shows the cards of the current page of the feed in the order the date sort returns. Because the sort only rearranges the posts, the pagination has one link per page of the fetched feed. |
| `PostPage.PostIdFromQuery` | post.js:5-9 | A missing or empty `id` parameter gives null. Any other value gives parseInt's result. |
| `PostPage.FindById` | post.js:31 | No index is returned exactly when no post has the target id. Otherwise the returned index holds the target id and no earlier post has it. |
| `PostPage.LoadPost` | post.js:18-36 | The result is `Invalid` exactly when the id is falsy (null, NaN or 0). It is `FetchFailed` exactly when the id is truthy and the fetch failed. It is `NotFound` exactly when the feed loaded and no post has the id. `Found` carries the first post in feed order with that id. |
| `PostPage.RenderPost` | post.js:22-46 | Every outcome except `Found` writes only its own message. A found post shows its title, formatted date and raw body. It shows an image (`alt` = the title) exactly when its image URL is non-empty. |
| `PostPage.ShowPost` | post.js:18-47 | An `id` parameter that is missing, empty, or parses to NaN or 0 always shows "Invalid post ID.", whatever the feed. A valid id with a failed fetch shows exactly "Failed to load post. Please try again later.". A failed fetch never shows a post. |
| `PostPage.InvalidIdIgnoresFeed` | post.js:22-25 | For a falsy id the outcome is `Invalid` whatever the feed holds, so the feed is never consulted. |
| `PostPage.FirstMatchWins` | post.js:31 | When posts at indices `i < j` share the target id, the lookup finds a post at index `i` or earlier, never the one at `j`. |
| `PostPage.MissingPostShowsOnlyMessage` | post.js:32-35 | When no post has the id, the page shows only "Post not found.": no title, image or body. |

## Left out

- Fetching and async I/O (`fetch`, `res.json()`, `await`, `console.error`) are left out. The feed is the input `FeedResult`: the parsed array or a failure.
- The DOM is left out: element creation, `innerHTML`, `textContent`, `classList`. The list page's two containers are sequences of model values (`Card`, `Link`). The detail page's container is a `PostContainer` value. HTML markup strings are not built.
- HTML-to-text extraction in `getTextSnippet` is a given function (`Browser.textContent`). The `textContent || innerText || ''` fallback is folded into it. Only the truncation rule is modelled.
- JavaScript `Date` is left out. Parsing and `toISOString().substring(0, 10)` are given functions (`Browser.parseDate`, `Browser.isoDay`).
- The date sort in `loadPosts` is a given function (`Browser.sortByDate`). Its comparator gives NaN for unparsable dates, so no ordering guarantee is stated. `LoadPosts` requires only that the sort returns the same posts (a permutation), which `Array.prototype.sort` does for any comparator.
- `parseInt` and `URLSearchParams` are left out. The parse is a given function into `JsInt` (NaN or an integer). Query parameters are optional strings.
- `encodeURIComponent` and number-to-string formatting of hrefs and link text are left out. A card carries its post id and a link its page number.
- Feed ids are integers (`Number(p.id)`). An id that converts to NaN or to a fraction is not modelled.
- Numbers are unbounded integers. Floating-point effects are not modelled: pages beyond 2^53, and `Math.ceil` of a float quotient.
- String lengths count characters, not the UTF-16 code units JavaScript's `length` and `slice` use. A snippet can differ for text outside the Basic Multilingual Plane.
- Both `try` blocks also catch errors thrown while rendering. Only fetch and JSON failures are modelled as failures.
- The two `API_URL` constants (main.js:4, post.js:3) are configuration and are not part of this model.
