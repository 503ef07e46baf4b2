/**
 * The feed's post card: author initials, the category badge colour, the
 * 300-character "Read more" truncation with its one-way expansion flag, and
 * the like button, whose flag is the negation of the post's state.
 */
module PostCard {
  import opened Js
  import opened Types
  import opened FeedCache

  // ---------------------------------------------------------------------------
  // Initials (the same helper text also appears in UserPostCard and CreatePostForm)

  /**
   * `name.split(" ")`: the space-separated segments, empty ones included, so
   * that "" gives [""], "a  b" gives ["a", "", "b"].
   */
  function Split(s: string): (r: seq<string>)
    ensures |r| >= 1
  {
    if |s| == 0 then [""]
    else if s[0] == ' ' then [""] + Split(s[1..])
    else
      var rest := Split(s[1..]);
      [[s[0]] + rest[0]] + rest[1..]
  }

  /** `.map(n => n[0]).join("")`: the first character of each segment; an empty segment gives `undefined`, which `join` writes as nothing. */
  function HeadLetters(words: seq<string>): (r: string)
    ensures |r| <= |words|
    ensures (forall i :: 0 <= i < |words| ==> words[i] != "") ==> |r| == |words|
  {
    if |words| == 0 then ""
    else (if |words[0]| > 0 then [words[0][0]] else []) + HeadLetters(words[1..])
  }

  /**
   * An independent description of the same letters: the characters of `s`
   * that are not a space and come first or right after a space.
   * `afterSpace` says whether the character before `s` was a space (or `s`
   * is the start of the name).
   */
  function WordStarts(s: string, afterSpace: bool): string
  {
    if |s| == 0 then ""
    else (if s[0] != ' ' && afterSpace then [s[0]] else []) + WordStarts(s[1..], s[0] == ' ')
  }

  /**
   * The letters `split`/`map`/`join` collect are exactly the word starts of
   * the name; past the first segment they are the word starts that follow a
   * space.
   */
  lemma {:induction false} HeadLettersAreWordStarts(s: string)
    ensures HeadLetters(Split(s)) == WordStarts(s, true)
    ensures HeadLetters(Split(s)[1..]) == WordStarts(s, false)
  {
    if |s| == 0 {
    } else if s[0] == ' ' {
      HeadLettersAreWordStarts(s[1..]);
      assert Split(s)[1..] == Split(s[1..]);
    } else {
      HeadLettersAreWordStarts(s[1..]);
      var rest := Split(s[1..]);
      assert Split(s)[1..] == rest[1..];
    }
  }

  /** `getInitials`: "U" for an empty name, else the upper-cased word starts cut to two characters. */
  function GetInitials(name: string): (r: string)
    ensures name == "" ==> r == "U"
    ensures |r| <= 2
  {
    if name == "" then "U"
    else
      var letters := Upper(HeadLetters(Split(name)));
      if |letters| <= 2 then letters else letters[..2]
  }

  /**
   * The initials of a non-empty name are the first (at most) two word-start
   * characters of the name, upper-cased; a name of spaces only has none.
   */
  lemma InitialsAreWordStarts(name: string)
    requires name != ""
    ensures var starts := WordStarts(name, true);
            GetInitials(name) == Upper(if |starts| <= 2 then starts else starts[..2])
  {
    HeadLettersAreWordStarts(name);
    var starts := WordStarts(name, true);
    if |starts| > 2 {
      UpperPrefix(starts, 2);
    }
  }

  // ---------------------------------------------------------------------------
  // Category badge

  const BlueBadge: string := "bg-blue-100 text-blue-800"
  const GreenBadge: string := "bg-green-100 text-green-800"
  const OrangeBadge: string := "bg-orange-100 text-orange-800"
  const GrayBadge: string := "bg-gray-100 text-gray-800"

  /** `getCategoryColor`: the category is upper-cased, then matched; anything unknown is gray. */
  function CategoryColor(category: string): (r: string)
    ensures r == BlueBadge <==> Upper(category) == "TUGAS"
    ensures r == GreenBadge <==> Upper(category) == "DISKUSI"
    ensures r == OrangeBadge <==> Upper(category) == "PENGUMUMAN"
    ensures r == GrayBadge <==> Upper(category) !in {"TUGAS", "DISKUSI", "PENGUMUMAN"}
  {
    match Upper(category)
    case "TUGAS" => BlueBadge
    case "DISKUSI" => GreenBadge
    case "PENGUMUMAN" => OrangeBadge
    case _ => GrayBadge
  }

  /** The badge colour ignores letter case: a category and its upper-cased form get the same colour. */
  lemma CategoryColorIgnoresCase(category: string)
    ensures CategoryColor(category) == CategoryColor(Upper(category))
  {
    UpperIdempotent(category);
  }

  // ---------------------------------------------------------------------------
  // Content

  /** Content longer than this is cut until the reader expands it. */
  const LongContent: nat := 300

  /** The text the card shows, and whether the "Read more" button is there. */
  datatype ContentView = ContentView(text: string, readMore: bool)

  /** The content area: the first 300 characters plus "..." and a "Read more" button while long and collapsed, else the whole content. */
  function ShowContent(content: string, isExpanded: bool): (v: ContentView)
    ensures v.readMore <==> |content| > LongContent && !isExpanded
    ensures v.readMore ==> |v.text| == LongContent + 3 && v.text[..LongContent] == content[..LongContent] && v.text[LongContent..] == "..."
    ensures !v.readMore ==> v.text == content
  {
    if |content| > LongContent && !isExpanded then ContentView(content[..LongContent] + "...", true)
    else ContentView(content, false)
  }

  /**
   * The card of one post. Its only state is `isExpanded`, which starts false
   * and is only ever set to true.
   */
  class PostCardView {
    const post: Post
    var isExpanded: bool

    constructor (post: Post)
      ensures this.post == post && !isExpanded
    {
      this.post := post;
      isExpanded := false;
    }

    function Content(): ContentView
      reads this
    {
      ShowContent(post.content, isExpanded)
    }

    /** The "Read more" click: expands for good, after which the whole content is shown. */
    method ReadMore()
      modifies this
      ensures isExpanded
      ensures Content() == ContentView(post.content, false)
    {
      isExpanded := true;
    }
  }

  // ---------------------------------------------------------------------------
  // Like button

  /** The flag the like button passes to `onLike`: the negation of the post's `isLiked`. */
  function LikeButtonFlag(post: Post): (flag: bool)
    ensures flag != post.isLiked
  {
    !post.isLiked
  }

  /**
   * What a click on the like button dispatches as written: the card passes
   * the negated state and `toggleLike` reads it as the current state, so an
   * unliked post is unliked and a liked post is liked.
   */
  function ClickAction(post: Post): (a: LikeAction)
    ensures a == Unlike <==> !post.isLiked
  {
    ToggleChoice(LikeButtonFlag(post))
  }

  /** The flag a click evidently should pass: the post's current state, which is what `toggleLike` expects. */
  function IntendedLikeButtonFlag(post: Post): (flag: bool)
    ensures flag == post.isLiked
  {
    post.isLiked
  }

  /** The evidently intended dispatch: an unliked post is liked, a liked post is unliked. */
  function IntendedClickAction(post: Post): (a: LikeAction)
    ensures a == Like <==> !post.isLiked
  {
    ToggleChoice(IntendedLikeButtonFlag(post))
  }

  /** Like counts that make sense: never negative, and at least one on a post the user likes. */
  ghost predicate SoundCounts(posts: seq<Post>)
  {
    forall k :: 0 <= k < |posts| ==> posts[k].likesCount >= 0 && (posts[k].isLiked ==> posts[k].likesCount >= 1)
  }

  /** Every cached copy of the post with this id has the same `isLiked`. */
  ghost predicate CopiesAgree(posts: seq<Post>, postId: string, isLiked: bool)
  {
    forall k :: 0 <= k < |posts| && posts[k].id == postId ==> posts[k].isLiked == isLiked
  }

  /**
   * With the intended flag, a click keeps the feed's counts sound: clicking
   * a post of the feed whose copies agree on `isLiked` yields an optimistic
   * feed whose posts all have sound counts.
   */
  lemma IntendedClickKeepsCountsSound(feed: Feed, post: Post)
    requires SoundCounts(Flatten(feed.pages))
    requires CopiesAgree(Flatten(feed.pages), post.id, post.isLiked)
    ensures SoundCounts(PostList(Some(OptimisticUpdate(Some(feed), post.id, IntendedClickAction(post)))))
  {
    OptimisticPostList(Some(feed), post.id, IntendedClickAction(post));
  }

  /** A post nobody has liked yet, as the feed delivers it. */
  const FreshPost: Post := Post("p1", "Title", "Body", None, false, "TUGAS", "FT", "u1", "2025-01-01",
                                PostAuthor("u1", "Ana", "FT", None, "student"), 0, 0, false)

  /** A one-page feed holding only that post. */
  const FreshFeed: Feed := Feed([Page(200, "ok", [FreshPost], PostMeta(1, 5, 1, 1, false, false))], [1])

  /**
   * As written, clicking the like button of that post unlikes it, and the
   * optimistic feed shows it with -1 likes, so the counts are no longer sound.
   */
  lemma ClickOnUnlikedPostGoesNegative()
    ensures ClickAction(FreshPost) == Unlike
    ensures PostList(Some(OptimisticUpdate(Some(FreshFeed), FreshPost.id, ClickAction(FreshPost))))[0].likesCount == -1
    ensures !SoundCounts(PostList(Some(OptimisticUpdate(Some(FreshFeed), FreshPost.id, ClickAction(FreshPost)))))
  {
    var after := OptimisticUpdate(Some(FreshFeed), FreshPost.id, Unlike);
    assert after.pages[0].data[0] == Toggled(FreshPost, Unlike);
    assert Flatten(after.pages) == after.pages[0].data + Flatten([]);
  }
}
