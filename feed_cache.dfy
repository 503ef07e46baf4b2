/**
 * The posts feed hook: the infinite query cached under the key ["posts"],
 * its next-page rule and flattened post list, the like/unlike optimistic
 * updates with snapshot and rollback, the create-post success updater and
 * the toggle that chooses between like and unlike.
 */
module FeedCache {
  import opened Js
  import opened Types

  /** The infinite-query value: the fetched pages and, index-aligned, the page parameters used. */
  datatype Feed = Feed(pages: seq<Page>, pageParams: seq<int>)

  /** What the updaters return when the cache holds nothing: `{ pages: [], pageParams: [] }`. */
  const EmptyFeed: Feed := Feed([], [])

  /** The parameter of the first page request. */
  const FirstPageParam: int := 1

  /** The number of posts asked for per page. */
  const PageSize: int := 5

  /** The two optimistic directions of the like button. */
  datatype LikeAction = Like | Unlike

  /** What the hook records of the library and the gateway, in order. */
  datatype CacheEvent =
    | CancelPosts                                 // cancelQueries({ queryKey: ["posts"] })
    | GetPosts(page: int, limit: int)             // GET /posts?page=&limit=
    | LikeRequest(action: LikeAction, postId: string) // POST /likes or DELETE /likes/{postId}
    | CreateRequest(draft: PostDraft)             // POST /posts

  // ---------------------------------------------------------------------------
  // Pagination

  /** `getNextPageParam`: the page after the last one, when the server says there is one. */
  function NextPageParam(lastPage: Page): (r: Option<int>)
    ensures r.Some? <==> lastPage.meta.hasNextPage
    ensures r.Some? ==> r.value == lastPage.meta.page + 1
  {
    if lastPage.meta.hasNextPage then Some(lastPage.meta.page + 1) else None
  }

  /** The `(page, limit)` the query function requests: `getPosts(pageParam = 1, 5)`. */
  function PageRequest(pageParam: Option<int>): (r: (int, int))
    ensures r.1 == PageSize
    ensures pageParam.None? ==> r.0 == FirstPageParam
    ensures pageParam.Some? ==> r.0 == pageParam.value
  {
    (pageParam.GetOr(FirstPageParam), PageSize)
  }

  /** The library's `hasNextPage`, coerced with `!!`: false while nothing is cached. */
  function HasNextPage(data: Option<Feed>): (r: bool)
    ensures r ==> data.Some? && |data.value.pages| > 0
    ensures r <==> data.Some? && |data.value.pages| > 0 && NextPageParam(data.value.pages[|data.value.pages| - 1]).Some?
  {
    match data
    case None => false
    case Some(feed) => |feed.pages| > 0 && NextPageParam(feed.pages[|feed.pages| - 1]).Some?
  }

  // ---------------------------------------------------------------------------
  // Flattening

  /** `pages.flatMap(page => page.data)`: a post is in the list iff it is on some page. */
  function Flatten(pages: seq<Page>): (r: seq<Post>)
    ensures forall p :: p in r <==> exists i :: 0 <= i < |pages| && p in pages[i].data
  {
    if |pages| == 0 then [] else pages[0].data + Flatten(pages[1..])
  }

  /** The exposed `posts`: the flattened pages, or `[]` when nothing is cached. */
  function PostList(data: Option<Feed>): (r: seq<Post>)
    ensures data.None? ==> r == []
  {
    match data
    case None => []
    case Some(feed) => Flatten(feed.pages)
  }

  /** Where page `i` starts in the flattened list. */
  function Offset(pages: seq<Page>, i: nat): nat
    requires i <= |pages|
  {
    |Flatten(pages[..i])|
  }

  /** Flattening distributes over concatenation of page lists. */
  lemma {:induction false} FlattenConcat(a: seq<Page>, b: seq<Page>)
    ensures Flatten(a + b) == Flatten(a) + Flatten(b)
  {
    if |a| == 0 {
      assert a + b == b;
    } else {
      assert (a + b)[0] == a[0];
      assert (a + b)[1..] == a[1..] + b;
      FlattenConcat(a[1..], b);
    }
  }

  /**
   * The flattened list is every page's posts in page order: post `j` of
   * page `i` sits at `Offset(pages, i) + j`, and the list is exactly as long
   * as all pages together.
   */
  lemma FlattenIndex(pages: seq<Page>, i: nat, j: nat)
    requires i < |pages| && j < |pages[i].data|
    ensures |Flatten(pages)| == Offset(pages, |pages|)
    ensures Offset(pages, i) + j < |Flatten(pages)|
    ensures Flatten(pages)[Offset(pages, i) + j] == pages[i].data[j]
  {
    assert pages[..|pages|] == pages;
    assert pages == pages[..i] + [pages[i]] + pages[i + 1..];
    FlattenConcat(pages[..i] + [pages[i]], pages[i + 1..]);
    FlattenConcat(pages[..i], [pages[i]]);
    assert Flatten([pages[i]]) == pages[i].data + Flatten([]);
  }

  // ---------------------------------------------------------------------------
  // Like / unlike

  /**
   * The optimistic rewrite of one post: liking sets `isLiked` and adds one to
   * `likesCount`, unliking clears it and subtracts one with no lower bound;
   * no other field changes.
   */
  function Toggled(post: Post, action: LikeAction): (r: Post)
    ensures r.isLiked <==> action == Like
    ensures action == Like ==> r.likesCount == post.likesCount + 1
    ensures action == Unlike ==> r.likesCount == post.likesCount - 1
    ensures r.(isLiked := post.isLiked, likesCount := post.likesCount) == post
  {
    match action
    case Like => post.(isLiked := true, likesCount := post.likesCount + 1)
    case Unlike => post.(isLiked := false, likesCount := post.likesCount - 1)
  }

  /** The updater's effect on one post: rewritten iff its id is the target. */
  ghost predicate PostRewritten(after: Post, before: Post, postId: string, action: LikeAction)
  {
    if before.id == postId then after == Toggled(before, action) else after == before
  }

  /** `page.data.map(post => post.id === postId ? toggled : post)`. */
  function RewritePosts(posts: seq<Post>, postId: string, action: LikeAction): (r: seq<Post>)
    ensures |r| == |posts|
    ensures forall j :: 0 <= j < |posts| ==> PostRewritten(r[j], posts[j], postId, action)
  {
    if |posts| == 0 then []
    else [if posts[0].id == postId then Toggled(posts[0], action) else posts[0]]
         + RewritePosts(posts[1..], postId, action)
  }

  /** `old.pages.map(page => ({ ...page, data: rewritten }))`. */
  function RewritePages(pages: seq<Page>, postId: string, action: LikeAction): (r: seq<Page>)
    ensures |r| == |pages|
    ensures forall i :: 0 <= i < |pages| ==> r[i] == pages[i].(data := RewritePosts(pages[i].data, postId, action))
  {
    if |pages| == 0 then []
    else [pages[0].(data := RewritePosts(pages[0].data, postId, action))]
         + RewritePages(pages[1..], postId, action)
  }

  /**
   * The updater given to `setQueryData` in the like and unlike `onMutate`:
   * an absent cache becomes the empty feed; otherwise every post with the
   * target id, on any page, is toggled, and the page order, page lengths,
   * page metadata, every other post and `pageParams` are kept.
   */
  function OptimisticUpdate(cached: Option<Feed>, postId: string, action: LikeAction): (r: Feed)
    ensures cached.None? ==> r == EmptyFeed
    ensures cached.Some? ==> r.pageParams == cached.value.pageParams && |r.pages| == |cached.value.pages|
    ensures cached.Some? ==> forall i :: 0 <= i < |r.pages| ==>
              r.pages[i].meta == cached.value.pages[i].meta
              && r.pages[i].statusCode == cached.value.pages[i].statusCode
              && r.pages[i].message == cached.value.pages[i].message
              && |r.pages[i].data| == |cached.value.pages[i].data|
              && forall j :: 0 <= j < |r.pages[i].data| ==> PostRewritten(r.pages[i].data[j], cached.value.pages[i].data[j], postId, action)
  {
    match cached
    case None => EmptyFeed
    case Some(feed) => feed.(pages := RewritePages(feed.pages, postId, action))
  }

  /** Rewriting posts distributes over concatenation. */
  lemma RewritePostsConcat(a: seq<Post>, b: seq<Post>, postId: string, action: LikeAction)
    ensures RewritePosts(a + b, postId, action) == RewritePosts(a, postId, action) + RewritePosts(b, postId, action)
  {
    var l, r := RewritePosts(a + b, postId, action), RewritePosts(a, postId, action) + RewritePosts(b, postId, action);
    assert |l| == |r|;
    forall k | 0 <= k < |l| ensures l[k] == r[k] {
      if k < |a| {
        assert (a + b)[k] == a[k];
      } else {
        assert (a + b)[k] == b[k - |a|];
      }
    }
  }

  /**
   * The flattened view of the optimistic feed is the old flattened view with
   * every post of the target id toggled: the like/unlike updater commutes
   * with `flatMap`.
   */
  lemma {:induction false} RewriteFlatten(pages: seq<Page>, postId: string, action: LikeAction)
    ensures Flatten(RewritePages(pages, postId, action)) == RewritePosts(Flatten(pages), postId, action)
  {
    if |pages| > 0 {
      var r := RewritePages(pages, postId, action);
      assert r[1..] == RewritePages(pages[1..], postId, action);
      RewriteFlatten(pages[1..], postId, action);
      RewritePostsConcat(pages[0].data, Flatten(pages[1..]), postId, action);
    }
  }

  /** The exposed post list after a like or unlike, in terms of the list before. */
  lemma OptimisticPostList(cached: Option<Feed>, postId: string, action: LikeAction)
    ensures PostList(Some(OptimisticUpdate(cached, postId, action))) == RewritePosts(PostList(cached), postId, action)
  {
    if cached.Some? {
      RewriteFlatten(cached.value.pages, postId, action);
    }
  }

  /**
   * Unlike undoes like when no copy of the post was liked before: the
   * round-trip returns the exact feed. (If a copy was already liked, the
   * round-trip clears its `isLiked`.)
   */
  lemma UnlikeUndoesLike(feed: Feed, postId: string)
    requires forall p :: p in Flatten(feed.pages) && p.id == postId ==> !p.isLiked
    ensures OptimisticUpdate(Some(OptimisticUpdate(Some(feed), postId, Like)), postId, Unlike) == feed
  {
    var liked := OptimisticUpdate(Some(feed), postId, Like);
    var back := OptimisticUpdate(Some(liked), postId, Unlike);
    forall i | 0 <= i < |feed.pages| ensures back.pages[i] == feed.pages[i] {
      var before := feed.pages[i].data;
      forall j | 0 <= j < |before| ensures back.pages[i].data[j] == before[j] {
        FlattenIndex(feed.pages, i, j);
      }
      assert back.pages[i].data == before;
    }
  }

  // ---------------------------------------------------------------------------
  // Create

  /**
   * The create-post `onSuccess` updater: the new post is put in front of the
   * first page's posts; other pages and `pageParams` are kept. With no pages
   * the feed is returned as it was, and an absent cache becomes the empty
   * feed, so in both cases the new post is dropped.
   */
  function PrependCreated(cached: Option<Feed>, newPost: Post): (r: Feed)
    ensures cached.None? ==> r == EmptyFeed
    ensures cached.Some? ==> r.pageParams == cached.value.pageParams && |r.pages| == |cached.value.pages|
    ensures cached.Some? && |cached.value.pages| == 0 ==> r == cached.value
    ensures cached.Some? && |cached.value.pages| > 0 ==>
              r.pages[0] == cached.value.pages[0].(data := [newPost] + cached.value.pages[0].data)
              && r.pages[1..] == cached.value.pages[1..]
  {
    match cached
    case None => EmptyFeed
    case Some(feed) =>
      if |feed.pages| > 0 then
        feed.(pages := feed.pages[0 := feed.pages[0].(data := [newPost] + feed.pages[0].data)])
      else feed
  }

  /** Flattening distributes over the create prepend: the new post heads the exposed list iff a page was cached. */
  lemma PrependPostList(cached: Option<Feed>, newPost: Post)
    ensures cached.Some? && |cached.value.pages| > 0 ==> PostList(Some(PrependCreated(cached, newPost))) == [newPost] + PostList(cached)
    ensures !(cached.Some? && |cached.value.pages| > 0) ==> PostList(Some(PrependCreated(cached, newPost))) == PostList(cached)
  {
    if cached.Some? && |cached.value.pages| > 0 {
      var pages := cached.value.pages;
      var r := PrependCreated(cached, newPost).pages;
      assert r[1..] == pages[1..];
      calc {
        Flatten(r);
        r[0].data + Flatten(r[1..]);
        ([newPost] + pages[0].data) + Flatten(pages[1..]);
        [newPost] + (pages[0].data + Flatten(pages[1..]));
        [newPost] + Flatten(pages);
      }
    }
  }

  // ---------------------------------------------------------------------------
  // Toggle

  /** `toggleLike(postId, isLiked)`: the flag is read as the post's current state, so true unlikes and false likes. */
  function ToggleChoice(isLiked: bool): (a: LikeAction)
    ensures a == Unlike <==> isLiked
  {
    if isLiked then Unlike else Like
  }

  // ---------------------------------------------------------------------------
  // The cache entry under ["posts"]

  /**
   * The query cache entry for the feed, as the hook sees it: one mutable
   * value (absent until the first page arrives) and a log of the library
   * and gateway events the hook triggers.
   */
  class PostsCache {
    var data: Option<Feed>
    var events: seq<CacheEvent>

    constructor ()
      ensures data == None && events == []
    {
      data := None;
      events := [];
    }

    /** The exposed `posts` list. */
    function Posts(): seq<Post>
      reads this
    {
      PostList(data)
    }

    /**
     * One page fetch driven by the query: the first page (parameter 1) when
     * nothing is cached, otherwise the next page when `hasNextPage` holds;
     * the fetched page and its parameter are appended. Without a next page
     * nothing is requested and nothing changes.
     */
    method LoadPage(response: Page) returns (requested: bool)
      modifies this
      ensures requested <==> old(data).None? || old(HasNextPage(data))
      ensures !requested ==> data == old(data) && events == old(events)
      ensures old(data).None? ==>
                data == Some(Feed([response], [FirstPageParam]))
                && events == old(events) + [GetPosts(FirstPageParam, PageSize)]
      ensures old(data).Some? && requested ==>
                var n := NextPageParam(old(data).value.pages[|old(data).value.pages| - 1]).value;
                data == Some(Feed(old(data).value.pages + [response], old(data).value.pageParams + [n]))
                && events == old(events) + [GetPosts(n, PageSize)]
      ensures requested ==> Posts() == old(Posts()) + response.data
    {
      requested := data.None? || HasNextPage(data);
      if !requested {
        return;
      }
      if data.None? {
        var request := PageRequest(None);
        events := events + [GetPosts(request.0, request.1)];
        data := Some(Feed([response], [FirstPageParam]));
        assert Flatten([response]) == response.data + Flatten([]);
      } else {
        var feed := data.value;
        var n := NextPageParam(feed.pages[|feed.pages| - 1]).value;
        var request := PageRequest(Some(n));
        events := events + [GetPosts(request.0, request.1)];
        data := Some(Feed(feed.pages + [response], feed.pageParams + [n]));
        FlattenConcat(feed.pages, [response]);
        assert Flatten([response]) == response.data + Flatten([]);
      }
    }

    /**
     * The like and unlike mutations: cancel in-flight feed queries, snapshot
     * the cache, write the optimistic feed, then send the request. On
     * success the optimistic feed stands; on failure the snapshot is
     * restored exactly when there was one, and otherwise the empty feed the
     * updater wrote stays.
     */
    method LikeMutation(postId: string, action: LikeAction, gatewayOk: bool)
      modifies this
      ensures events == old(events) + [CancelPosts, LikeRequest(action, postId)]
      ensures gatewayOk ==> data == Some(OptimisticUpdate(old(data), postId, action))
      ensures !gatewayOk && old(data).Some? ==> data == old(data)
      ensures !gatewayOk && old(data).None? ==> data == Some(EmptyFeed)
    {
      events := events + [CancelPosts];
      var previousData := data;
      data := Some(OptimisticUpdate(data, postId, action));
      events := events + [LikeRequest(action, postId)];
      if !gatewayOk {
        if previousData.Some? {
          data := previousData;
        }
      }
    }

    /** `toggleLike(postId, isLiked)`: true dispatches unlike, false dispatches like. */
    method ToggleLike(postId: string, isLiked: bool, gatewayOk: bool)
      modifies this
      ensures events == old(events) + [CancelPosts, LikeRequest(if isLiked then Unlike else Like, postId)]
      ensures gatewayOk ==> data == Some(OptimisticUpdate(old(data), postId, if isLiked then Unlike else Like))
      ensures !gatewayOk && old(data).Some? ==> data == old(data)
      ensures !gatewayOk && old(data).None? ==> data == Some(EmptyFeed)
    {
      LikeMutation(postId, ToggleChoice(isLiked), gatewayOk);
    }

    /**
     * The create-post mutation: no optimistic write; the request is sent and,
     * when it returns the created post, the success updater runs. A failure
     * leaves the cache untouched.
     */
    method CreatePost(draft: PostDraft, response: Option<Post>)
      modifies this
      ensures events == old(events) + [CreateRequest(draft)]
      ensures response.Some? ==> data == Some(PrependCreated(old(data), response.value))
      ensures response.None? ==> data == old(data)
    {
      events := events + [CreateRequest(draft)];
      if response.Some? {
        data := Some(PrependCreated(data, response.value));
      }
    }
  }
}
