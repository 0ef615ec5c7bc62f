/**
 * The detail page (post.js): the post id read from the query string, the
 * decision chain of `loadPost` (invalid id, failed fetch, no such post, the
 * post) and the single write it makes to the `#post` container.
 */
module PostPage {
  import opened Feed

  const InvalidIdMessage: string := "Invalid post ID."
  const NotFoundMessage: string := "Post not found."
  const LoadFailedMessage: string := "Failed to load post. Please try again later."

  /** How `loadPost` ends. */
  datatype Outcome = Invalid | FetchFailed | NotFound | Found(post: Post)

  /**
   * What `#post` holds afterwards: a one-paragraph message, or the post's
   * title, formatted date, optional image and raw body markup.
   */
  datatype PostContainer =
    | Message(text: string)
    | Article(title: string, date: string, image: Option<Img>, body: string)

  /**
   * `getPostIdFromQuery`: null (None) for a missing or empty `id` parameter,
   * otherwise whatever parseInt makes of it.
   */
  function PostIdFromQuery(raw: Option<string>, browser: Browser): (id: Option<JsInt>)
    ensures id.None? <==> !Truthy(raw)
    ensures id.Some? ==> id.value == browser.parseInt(raw.value)
  {
    if Truthy(raw) then Some(browser.parseInt(raw.value)) else None
  }

  /** JavaScript falsiness of the parsed id, `!postId`: null, NaN or zero. */
  predicate IsFalsy(id: Option<JsInt>)
  {
    match id
    case None => true
    case Some(NaN) => true
    case Some(Int(v)) => v == 0
  }

  /** `posts.find(p => Number(p.id) === target)`, as the index of the first match. */
  function FindById(posts: seq<Post>, target: int): (i: Option<nat>)
    ensures i.None? <==> forall j :: 0 <= j < |posts| ==> posts[j].id != target
    ensures i.Some? ==> i.value < |posts| && posts[i.value].id == target
    ensures i.Some? ==> forall j :: 0 <= j < i.value ==> posts[j].id != target
  {
    if posts == [] then None
    else if posts[0].id == target then Some(0)
    else match FindById(posts[1..], target)
      case None => None
      case Some(k) => Some(k + 1)
  }

  /**
   * The decision chain of `loadPost`: a falsy id is rejected before the feed
   * is fetched; then a failed fetch, then a missing post, then the first post
   * in feed order whose id equals the target.
   */
  function LoadPost(postId: Option<JsInt>, feed: FeedResult): (o: Outcome)
    ensures o == Invalid <==> IsFalsy(postId)
    ensures o == FetchFailed <==> !IsFalsy(postId) && feed.Failed?
    ensures o == NotFound <==>
              !IsFalsy(postId) && feed.Loaded? &&
              forall j :: 0 <= j < |feed.posts| ==> feed.posts[j].id != postId.value.value
    ensures o.Found? ==>
              !IsFalsy(postId) && feed.Loaded? &&
              exists i :: 0 <= i < |feed.posts| && feed.posts[i] == o.post &&
                o.post.id == postId.value.value &&
                forall j :: 0 <= j < i ==> feed.posts[j].id != postId.value.value
  {
    if IsFalsy(postId) then Invalid
    else match feed
      case Failed => FetchFailed
      case Loaded(posts) =>
        match FindById(posts, postId.value.value)
        case None => NotFound
        case Some(i) => Found(posts[i])
  }

  /**
   * The write to `#post` for each outcome: one message for each failure, and
   * for a found post its title, date, body, and an image exactly when the
   * post has a non-empty image URL.
   */
  function RenderPost(o: Outcome, browser: Browser): (c: PostContainer)
    ensures c.Message? <==> !o.Found?
    ensures o == Invalid ==> c == Message(InvalidIdMessage)
    ensures o == FetchFailed ==> c == Message(LoadFailedMessage)
    ensures o == NotFound ==> c == Message(NotFoundMessage)
    ensures o.Found? ==>
              c.title == o.post.title && c.body == o.post.bodyHtml &&
              c.date == FormatDate(o.post.date, browser) &&
              (c.image.Some? <==> Truthy(o.post.imageUrl)) &&
              (c.image.Some? ==> c.image.value == Img(o.post.imageUrl.value, o.post.title))
  {
    match o
    case Invalid => Message(InvalidIdMessage)
    case FetchFailed => Message(LoadFailedMessage)
    case NotFound => Message(NotFoundMessage)
    case Found(post) =>
      Article(
        post.title,
        FormatDate(post.date, browser),
        if Truthy(post.imageUrl) then Some(Img(post.imageUrl.value, post.title)) else None,
        post.bodyHtml)
  }

  /** The whole detail page: query string and feed in, content of `#post` out. */
  function ShowPost(idParam: Option<string>, feed: FeedResult, browser: Browser): (c: PostContainer)
    ensures !Truthy(idParam) ==> c == Message(InvalidIdMessage)
    ensures IsFalsy(PostIdFromQuery(idParam, browser)) ==> c == Message(InvalidIdMessage)
    ensures !IsFalsy(PostIdFromQuery(idParam, browser)) && feed.Failed? ==> c == Message(LoadFailedMessage)
    ensures feed.Failed? ==> c.Message?
  {
    RenderPost(LoadPost(PostIdFromQuery(idParam, browser), feed), browser)
  }

  /** A falsy id decides the outcome whatever the feed holds: the feed is never consulted. */
  lemma InvalidIdIgnoresFeed(postId: Option<JsInt>, feed1: FeedResult, feed2: FeedResult)
    requires IsFalsy(postId)
    ensures LoadPost(postId, feed1) == LoadPost(postId, feed2) == Invalid
  {
  }

  /**
   * When two posts share the target id, the later one is never the post
   * found: the lookup stops at or before the earlier one.
   */
  lemma FirstMatchWins(posts: seq<Post>, target: int, i: int, j: int)
    requires 0 <= i < j < |posts|
    requires posts[i].id == target && posts[j].id == target
    ensures FindById(posts, target).Some? && FindById(posts, target).value <= i
    ensures FindById(posts, target) != Some(j)
  {
  }

  /** A missing post renders only the not-found message: no title, image or body. */
  lemma MissingPostShowsOnlyMessage(posts: seq<Post>, target: int, browser: Browser)
    requires target != 0
    requires forall k :: 0 <= k < |posts| ==> posts[k].id != target
    ensures RenderPost(LoadPost(Some(Int(target)), Loaded(posts)), browser) == Message(NotFoundMessage)
  {
  }
}
