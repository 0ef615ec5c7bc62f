/**
 * The list page (main.js): the page number read from the query string, the
 * window of ten posts shown on that page, the text snippet on each card, the
 * page count and the pagination links, and the two DOM containers that
 * rendering clears and refills.
 */
module ListPage {
  import opened Feed

  const PostsPerPage: nat := 10

  /** Budget of `getTextSnippet` as the cards call it. */
  const SnippetLength: nat := 100

  /** The horizontal ellipsis U+2026 that marks a truncated snippet. */
  const Ellipsis: char := '\U{2026}'

  const LoadFailedMessage: string := "Failed to load posts. Please try again later."

  function Min(a: int, b: int): int { if a <= b then a else b }

  function Max(a: int, b: int): int { if a <= b then b else a }

  // ---------------------------------------------------------------------------
  // Current page
  // ---------------------------------------------------------------------------

  /** The string handed to parseInt: `params.get('page') || '1'`. */
  function PageParamText(raw: Option<string>): string
  {
    if Truthy(raw) then raw.value else "1"
  }

  /**
   * `getCurrentPage`: the parsed `page` parameter when it is a positive
   * integer, and 1 for anything else (missing, empty, zero, negative, NaN).
   */
  function CurrentPage(raw: Option<string>, browser: Browser): (page: int)
    ensures page >= 1
    ensures var parsed := browser.parseInt(PageParamText(raw));
            (parsed.Int? && parsed.value > 0 ==> page == parsed.value) &&
            (!(parsed.Int? && parsed.value > 0) ==> page == 1)
    ensures !Truthy(raw) && browser.parseInt("1") == Int(1) ==> page == 1
  {
    match browser.parseInt(PageParamText(raw))
    case Int(v) => if v > 0 then v else 1
    case NaN => 1
  }

  // ---------------------------------------------------------------------------
  // Snippet
  // ---------------------------------------------------------------------------

  /**
   * The truncation rule of `getTextSnippet`, on text already extracted from
   * the body HTML: text within the budget is kept, longer text keeps its first
   * `length` characters followed by an ellipsis.
   */
  function Snippet(text: string, length: nat): (r: string)
    ensures |text| <= length ==> r == text
    ensures |text| > length ==>
              |r| == length + 1 && r[..length] == text[..length] && r[length] == Ellipsis
    ensures |r| <= length + 1 && |r| <= |text|
  {
    if |text| > length then text[..length] + [Ellipsis] else text
  }

  /** Truncating a snippet again with the same budget changes nothing. */
  lemma SnippetIdempotent(text: string, length: nat)
    ensures Snippet(Snippet(text, length), length) == Snippet(text, length)
  {
    if |text| > length {
      var s := Snippet(text, length);
      assert s[..length] + [Ellipsis] == s;
    }
  }

  // ---------------------------------------------------------------------------
  // Page window
  // ---------------------------------------------------------------------------

  /** Where JavaScript's `slice` places an index argument: negative counts from the end, both clamp. */
  function RelativeIndex(k: int, len: nat): (r: nat)
    ensures r <= len
    ensures 0 <= k ==> r == Min(k, len)
  {
    if k < 0 then (if len + k < 0 then 0 else len + k)
    else if k > len then len
    else k
  }

  /** `Array.prototype.slice(start, end)`. */
  function JsSlice<T>(s: seq<T>, start: int, end: int): (r: seq<T>)
    ensures |r| <= |s|
    ensures 0 <= start <= end ==> r == s[Min(start, |s|)..Min(end, |s|)]
  {
    var from, to := RelativeIndex(start, |s|), RelativeIndex(end, |s|);
    if from < to then s[from..to] else []
  }

  /** Index of the first post of a page: `(currentPage - 1) * POSTS_PER_PAGE`. */
  function PageStart(page: int): int
  {
    (page - 1) * PostsPerPage
  }

  /**
   * The posts `renderPosts` shows on `page`: the ten posts from the page's
   * start, fewer on the last page, none past the end.
   */
  function PageSlice(posts: seq<Post>, page: int): (r: seq<Post>)
    requires page >= 1
    ensures |r| == Min(PostsPerPage, Max(0, |posts| - PageStart(page)))
    ensures forall k :: 0 <= k < |r| ==> r[k] == posts[PageStart(page) + k]
  {
    JsSlice(posts, PageStart(page), PageStart(page) + PostsPerPage)
  }

  /** `Math.ceil(totalCount / POSTS_PER_PAGE) || 1`. */
  function TotalPages(count: nat): (r: nat)
    ensures r >= 1
    ensures count == 0 ==> r == 1
    ensures count > 0 ==> (r - 1) * PostsPerPage < count <= r * PostsPerPage
  {
    if count == 0 then 1 else (count + PostsPerPage - 1) / PostsPerPage
  }

  /** Pages from 1 to `TotalPages` show at least one post, later pages none. */
  lemma PageNonEmptyExactlyWithinRange(posts: seq<Post>, page: int)
    requires page >= 1
    ensures page > TotalPages(|posts|) ==> PageSlice(posts, page) == []
    ensures |posts| > 0 && page <= TotalPages(|posts|) ==> PageSlice(posts, page) != []
  {
  }

  /** The posts of pages 1 to `k`, in page order. */
  function PagesThrough(posts: seq<Post>, k: nat): seq<Post>
  {
    if k == 0 then [] else PagesThrough(posts, k - 1) + PageSlice(posts, k)
  }

  /** The first `k` pages are exactly the first `10 * k` posts (or all of them). */
  lemma {:induction false} PagesThroughIsPrefix(posts: seq<Post>, k: nat)
    ensures PagesThrough(posts, k) == posts[..Min(k * PostsPerPage, |posts|)]
  {
    if k > 0 {
      PagesThroughIsPrefix(posts, k - 1);
      var lo, hi := Min((k - 1) * PostsPerPage, |posts|), Min(k * PostsPerPage, |posts|);
      var page := PageSlice(posts, k);
      assert page == posts[lo..hi];
      assert posts[..lo] + posts[lo..hi] == posts[..hi];
    }
  }

  /** The pages 1 to `TotalPages` together show every post once, in feed order. */
  lemma PagesPartitionFeed(posts: seq<Post>)
    ensures PagesThrough(posts, TotalPages(|posts|)) == posts
  {
    PagesThroughIsPrefix(posts, TotalPages(|posts|));
  }

  /**
   * The post at index `i` appears on page `i / 10 + 1` at position `i % 10`,
   * and on no other page and position.
   */
  lemma PageOfPost(posts: seq<Post>, i: int)
    requires 0 <= i < |posts|
    ensures 1 <= i / PostsPerPage + 1 <= TotalPages(|posts|)
    ensures var page := PageSlice(posts, i / PostsPerPage + 1);
            i % PostsPerPage < |page| && page[i % PostsPerPage] == posts[i]
    ensures forall p :: p >= 1 && PageStart(p) <= i < PageStart(p) + |PageSlice(posts, p)| ==>
              p == i / PostsPerPage + 1
  {
    var p := i / PostsPerPage + 1;
    assert PageStart(p) + i % PostsPerPage == i;
    forall q | q >= 1 && PageStart(q) <= i < PageStart(q) + |PageSlice(posts, q)|
      ensures q == p
    {
      assert (q - 1) * PostsPerPage <= i < (q - 1) * PostsPerPage + PostsPerPage;
    }
  }

  // ---------------------------------------------------------------------------
  // Pagination links
  // ---------------------------------------------------------------------------

  /** An `<a href="?page=N">N</a>`, with the class `active` when `active` holds. */
  datatype Link = Link(page: int, active: bool)

  /** The links `renderPagination` appends: pages 1 to `totalPages`, the current one active. */
  function Links(totalPages: nat, current: int): seq<Link>
  {
    seq(totalPages, k => Link(k + 1, k + 1 == current))
  }

  /** Links are numbered 1 to `totalPages`, in increasing order. */
  lemma LinksNumberedInOrder(totalPages: nat, current: int)
    ensures |Links(totalPages, current)| == totalPages
    ensures forall k :: 0 <= k < totalPages ==> Links(totalPages, current)[k].page == k + 1
    ensures forall i, j :: 0 <= i < j < totalPages ==>
              Links(totalPages, current)[i].page < Links(totalPages, current)[j].page
  {
  }

  /**
   * One link is active exactly when the current page lies in 1 to
   * `totalPages`; it is then the link of the current page and the only one.
   */
  lemma OneActiveLink(totalPages: nat, current: int)
    ensures var links := Links(totalPages, current);
            (exists k :: 0 <= k < |links| && links[k].active) <==> 1 <= current <= totalPages
    ensures var links := Links(totalPages, current);
            forall k :: 0 <= k < |links| && links[k].active ==> links[k].page == current
    ensures var links := Links(totalPages, current);
            forall i, j :: 0 <= i < |links| && 0 <= j < |links| && links[i].active && links[j].active ==> i == j
  {
    var links := Links(totalPages, current);
    if 1 <= current <= totalPages {
      assert links[current - 1].active;
    }
  }

  // ---------------------------------------------------------------------------
  // Cards
  // ---------------------------------------------------------------------------

  /**
   * An `<article class="post-item">`: the post id its link carries
   * (`post.html?id=...`), the thumbnail image or None for the empty thumb
   * `<div>`, the formatted date, the title and the snippet.
   */
  datatype Card = Card(postId: int, thumb: Option<Img>, date: string, title: string, snippet: string)

  /** A child of `#post-list`: a post card, or the paragraph of a failed load. */
  datatype ListItem = Article(card: Card) | Notice(text: string)

  /** The card `renderPosts` builds for one post. */
  function CardFor(post: Post, browser: Browser): (c: Card)
    ensures c.postId == post.id && c.title == post.title
    ensures c.thumb.Some? <==> Truthy(post.imageUrl)
    ensures c.thumb.Some? ==> c.thumb.value == Img(post.imageUrl.value, post.title)
    ensures c.date == FormatDate(post.date, browser)
    ensures var text := browser.textContent(post.bodyHtml);
            (|text| <= SnippetLength ==> c.snippet == text) &&
            (|text| > SnippetLength ==> c.snippet == text[..SnippetLength] + [Ellipsis])
    ensures |c.snippet| <= SnippetLength + 1
  {
    Card(
      post.id,
      if Truthy(post.imageUrl) then Some(Img(post.imageUrl.value, post.title)) else None,
      FormatDate(post.date, browser),
      post.title,
      Snippet(browser.textContent(post.bodyHtml), SnippetLength))
  }

  /** One card per post, in the order of the posts. */
  function Articles(posts: seq<Post>, browser: Browser): seq<ListItem>
  {
    seq(|posts|, k requires 0 <= k < |posts| => Article(CardFor(posts[k], browser)))
  }

  // ---------------------------------------------------------------------------
  // The page's DOM
  // ---------------------------------------------------------------------------

  /** The two containers of the list page: `#post-list` and `#pagination`. */
  class ListView {
    var postList: seq<ListItem>
    var pagination: seq<Link>

    constructor ()
      ensures postList == [] && pagination == []
    {
      postList := [];
      pagination := [];
    }

    /**
     * `renderPagination`: clears `#pagination` and appends one link per page,
     * marking the current page's link active.
     */
    method RenderPagination(totalCount: nat, currentPage: int)
      modifies this`pagination
      ensures pagination == Links(TotalPages(totalCount), currentPage)
    {
      var totalPages := TotalPages(totalCount);
      pagination := [];
      for p := 1 to totalPages + 1
        invariant |pagination| == p - 1
        invariant forall k :: 0 <= k < p - 1 ==> pagination[k] == Link(k + 1, k + 1 == currentPage)
      {
        pagination := pagination + [Link(p, p == currentPage)];
      }
    }

    /**
     * `renderPosts`: clears `#post-list`, appends one card per post of the
     * current page in order, then renders the pagination for the whole feed.
     */
    method RenderPosts(posts: seq<Post>, pageParam: Option<string>, browser: Browser)
      modifies this
      ensures postList == Articles(PageSlice(posts, CurrentPage(pageParam, browser)), browser)
      ensures pagination == Links(TotalPages(|posts|), CurrentPage(pageParam, browser))
    {
      var currentPage := CurrentPage(pageParam, browser);
      var start := (currentPage - 1) * PostsPerPage;
      var end := start + PostsPerPage;
      var pagePosts := JsSlice(posts, start, end);
      postList := [];
      for i := 0 to |pagePosts|
        invariant |postList| == i
        invariant forall k :: 0 <= k < i ==> postList[k] == Article(CardFor(pagePosts[k], browser))
      {
        postList := postList + [Article(CardFor(pagePosts[i], browser))];
      }
      RenderPagination(|posts|, currentPage);
    }

    /**
     * `loadPosts`: on a failed fetch `#post-list` holds only the failure
     * notice and the pagination is untouched; otherwise the feed, in the order
     * the date sort leaves it, is rendered. `Array.prototype.sort` rearranges
     * the array in place whatever its comparator returns, so the sorted feed
     * holds the same posts and the page count follows the fetched feed.
     */
    method LoadPosts(feed: FeedResult, pageParam: Option<string>, browser: Browser)
      requires feed.Loaded? ==> multiset(browser.sortByDate(feed.posts)) == multiset(feed.posts)
      modifies this
      ensures feed.Failed? ==> postList == [Notice(LoadFailedMessage)] && pagination == old(pagination)
      ensures feed.Loaded? ==>
                var sorted := browser.sortByDate(feed.posts);
                postList == Articles(PageSlice(sorted, CurrentPage(pageParam, browser)), browser) &&
                pagination == Links(TotalPages(|feed.posts|), CurrentPage(pageParam, browser))
    {
      match feed
      case Failed =>
        postList := [Notice(LoadFailedMessage)];
      case Loaded(posts) =>
        var sorted := browser.sortByDate(posts);
        assert |sorted| == |multiset(sorted)| == |multiset(posts)| == |posts|;
        RenderPosts(sorted, pageParam, browser);
    }
  }
}
