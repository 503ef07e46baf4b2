# ngampusin front end — a Dafny model of its state logic

ngampusin is a campus social feed. Students sign in, read a paged feed of
posts, like and unlike posts, create posts, and keep a profile with a faculty
and an avatar. This project models the front end's logic that lives outside
the views:

- **FeedCache** (`use-posts.ts`). The feed is an infinite query: a list of
  pages plus the parameter each page was fetched with. The module covers:
  - the next-page rule;
  - the flattened post list;
  - the like and unlike optimistic updaters, with the snapshot they take and
    the rollback on failure;
  - the create-post success updater;
  - `toggleLike`, which chooses between like and unlike.

  The cache entry is a class with one mutable value. The query library's
  calls (`cancelQueries`) and the gateway requests are kept in an event log.
  A gateway outcome is a parameter of the method.
- **ProfileHook** (`use-profile.ts`). This is the cached profile bundle. The
  profile-field mutation writes a merged user optimistically into both the
  cache and the session. It then writes the server's user into the session,
  or rolls back only the cache. The avatar upload shows a temporary URL
  first, then the server's user or the original bundle. It raises the
  `isAvatarUploading` flag and lowers it again on every path.
- **AuthSlice** (`authSlice.ts`). These are the session reducers and the
  initial user read from the `jwt` cookie. Every transition keeps
  "authenticated exactly when a user is held".
- **AuthService**, **RegisterService** and **ProfileService** (the services).
  They turn an HTTP-client failure into the error record or message each
  service throws, using JavaScript's falsy-defaulting `||`. Login and logout
  also set and remove cookies, which are modelled by **Cookies**.
- **PostCard**, **UserPostCard**, **ProfileAlert**, **ProfileForm**,
  **EditPostDialog** and **CreatePostForm** (the components). They hold:
  - initials;
  - category colours;
  - content truncation and the one-way "Read more" flag;
  - the like button's flag;
  - the profile-completeness alert;
  - the profile, edit-post and create-post form state machines.
- **Js** and **Types** hold the JavaScript semantics the rest relies on and
  the shared records: `undefined`, the `||` operator on strings and numbers,
  `Boolean(v)`, ASCII `toUpperCase` and `join`.

Some behaviours of the code are worth stating up front:

- After a successful profile update, the session holds the server's user
  while the cache keeps the optimistic merge. The profile key is only
  invalidated. `ProfileHook.ProfileStore.UpdateProfile` states this.
- The hooks contain no cache logic for editing or deleting a post, so none
  is modelled.
- The unlike updater subtracts one with no lower bound. The like button's
  flag is inverted (see Findings), so a count can reach -1.
- `useAuth()` as written returns no `user`. The create-post dialog therefore
  always starts with an empty faculty. `CreatePostForm.DefaultForm` takes the
  user as an optional parameter and covers both cases.

## Model

| member | source | states |
|---|---|---|
| Js.OrString | src/services/auth.service.ts:31-32 | `x \|\| d` on strings: the value when present and non-empty, the default otherwise |
| Js.OrNumber | src/services/auth.service.ts:18 | `x \|\| d` on numbers: the value when present and non-zero, the default otherwise |
| Js.Truthy | src/components/post/CreatePostForm.tsx:77 | `Boolean(v)` is false exactly for false, "", 0, null and undefined |
| Js.Join | src/components/profile/ProfileAlert.tsx:45 | `join` gives "" for no items, the item for one, the items around the separator for two, and always starts with the first item |
| Js.Upper | src/components/post/PostCard.tsx:26 | `toUpperCase` keeps the length and upper-cases each (ASCII) character in place |
| Js.UpperIdempotent | src/components/post/PostCard.tsx:31 | upper-casing twice equals upper-casing once |
| Js.UpperPrefix | src/components/post/PostCard.tsx:26-27 | upper-casing commutes with taking a prefix, so `substring(0, 2)` after `toUpperCase` is the upper-cased prefix |
| FeedCache.NextPageParam | src/hooks/use-posts.ts:25-27 | there is a next page iff the last page's `hasNextPage` is set, and then it is `meta.page + 1` |
| FeedCache.PageRequest | src/hooks/use-posts.ts:24-28 | every request asks for 5 posts; the first page's parameter is 1, later ones use the given parameter |
| FeedCache.HasNextPage | src/hooks/use-posts.ts:151 | the exposed boolean is true iff some page is cached and the last one has a next page; false with no cache |
| FeedCache.Flatten | src/hooks/use-posts.ts:138 | a post is in the flattened list iff it is on some page |
| FeedCache.PostList | src/hooks/use-posts.ts:138 | the exposed list is empty when nothing is cached |
| FeedCache.FlattenConcat | src/hooks/use-posts.ts:138 | flattening distributes over concatenation of page lists |
| FeedCache.FlattenIndex | src/hooks/use-posts.ts:138 | post `j` of page `i` is at offset(i)+j of the flattened list, so the list holds every page's posts in page order |
| FeedCache.Toggled | src/hooks/use-posts.ts:84-122 | like sets `isLiked` and adds one; unlike clears it and subtracts one with no lower bound; no other field changes |
| FeedCache.RewritePosts | src/hooks/use-posts.ts:82-86 | same length; each post is toggled iff its id is the target, else kept |
| FeedCache.RewritePages | src/hooks/use-posts.ts:80-87 | same number of pages; each page keeps everything except its posts, which are rewritten |
| FeedCache.OptimisticUpdate | src/hooks/use-posts.ts:72-89 | no cache gives the empty feed; otherwise `pageParams`, page count, page meta/status/message and page lengths are kept, and every post with the target id on any page is toggled while all others are kept |
| FeedCache.RewritePostsConcat | src/hooks/use-posts.ts:82-86 | the per-post rewrite distributes over concatenation |
| FeedCache.RewriteFlatten | src/hooks/use-posts.ts:80-87 | the flattened optimistic feed equals the flattened old feed with the target posts toggled |
| FeedCache.OptimisticPostList | src/hooks/use-posts.ts:110-127 | the exposed list after like or unlike is the old exposed list with the target posts toggled (including the no-cache case) |
| FeedCache.UnlikeUndoesLike | src/hooks/use-posts.ts:72-127 | when no copy of the post was liked, unlike after like gives back exactly the same feed |
| FeedCache.PrependCreated | src/hooks/use-posts.ts:38-53 | no cache gives the empty feed; with pages, the new post heads page 0 and the other pages and `pageParams` are kept; with zero pages the feed is returned unchanged |
| FeedCache.PrependPostList | src/hooks/use-posts.ts:38-53 | the exposed list after create is the new post followed by the old list iff a page was cached, else the old list |
| FeedCache.ToggleChoice | src/hooks/use-posts.ts:140-146 | the flag is read as the post's current state: unlike iff the flag is true |
| FeedCache.PostsCache.LoadPage | src/hooks/use-posts.ts:22-29 | the first fetch asks for page 1 with 5 posts; a later fetch happens iff there is a next page and asks for it; the page and its parameter are appended, and the exposed list grows by the page's posts |
| FeedCache.PostsCache.LikeMutation | src/hooks/use-posts.ts:62-98 | cancel, snapshot, optimistic write, request; on success the optimistic feed stands; on failure the exact snapshot is restored when there was one, and otherwise the empty feed stays |
| FeedCache.PostsCache.ToggleLike | src/hooks/use-posts.ts:140-146 | true dispatches the unlike mutation and false the like mutation, with their cache effects: the optimistic feed on success, the exact snapshot on failure when there was one, and the empty feed on failure when there was none |
| FeedCache.PostsCache.CreatePost | src/hooks/use-posts.ts:31-60 | the request is sent; on success the prepend updater is applied; on failure the cache is untouched |
| ProfileHook.MergeUser | src/hooks/use-profile.ts:36-43 | each submitted field overwrites the user's; fields not submitted and id, avatar and role are kept |
| ProfileHook.MergeIdempotent | src/hooks/use-profile.ts:36-43 | merging the same update twice equals merging once |
| ProfileHook.OptimisticProfile | src/hooks/use-profile.ts:36-42 | the optimistic bundle has the merged user and the same posts and token |
| ProfileHook.OptimisticAvatar | src/hooks/use-profile.ts:72-78 | only the user's avatar changes, to the temporary URL; the rest of the bundle is kept |
| ProfileHook.ProfileStore.Profile | src/hooks/use-profile.ts:107 | the exposed profile is present iff a bundle is cached, and is its user |
| ProfileHook.ProfileStore.Loaded | src/hooks/use-profile.ts:16-25 | a completed profile fetch puts the bundle in the cache; the flag and the event log are untouched |
| ProfileHook.ProfileStore.UpdateProfile | src/hooks/use-profile.ts:27-61 | cancel, then request, then invalidate on success; with a bundle, the merged user goes to the cache and the session; on success the session holds the server's user and the cache the merge; on failure the cache is its snapshot again while the session keeps the merged user; every path that dispatches `loginSuccess` leaves the session authenticated, not loading and without error; without a bundle nothing optimistic is written |
| ProfileHook.ProfileStore.UpdateAvatar | src/hooks/use-profile.ts:63-104 | no file: nothing changes; otherwise the flag is raised and then lowered last; with a bundle the upload is sent; on success the cache is the original bundle with the server's user, the session has that user, the URL is revoked and the user returned; on failure the cache is the original bundle, the session keeps the temporary avatar and nothing is revoked; with a bundle the session ends authenticated, not loading and without error |
| AuthSlice.ClaimedUser | src/features/auth/authSlice.ts:21-28 | the token's `sub` claim becomes the id; name, email, faculty, avatar and role carry over |
| AuthSlice.UserFromToken | src/features/auth/authSlice.ts:13-35 | a user iff the cookie is present and non-empty, decodes, and has `exp > now`; then it is the token's claims |
| AuthSlice.ExpiredTokenIsSignedOut | src/features/auth/authSlice.ts:20 | a decodable token whose `exp` is not later than now gives no user |
| AuthSlice.AuthSession.FromToken | src/features/auth/authSlice.ts:37-44 | the initial session holds the token's user, is authenticated iff there is one, not loading, no error |
| AuthSlice.AuthSession.LoginStart | src/features/auth/authSlice.ts:50-53 | loading, no error, user and flag unchanged, invariant preserved |
| AuthSlice.AuthSession.LoginSuccess | src/features/auth/authSlice.ts:54-59 | signed in as the payload, not loading, no error, invariant holds |
| AuthSlice.AuthSession.LoginFailure | src/features/auth/authSlice.ts:60-65 | signed out, not loading, the payload as error, invariant holds |
| AuthSlice.AuthSession.Logout | src/features/auth/authSlice.ts:66-71 | signed out, no error, `isLoading` untouched, the `jwt` cookie removed, invariant holds |
| Cookies.CookieJar.Set | src/services/auth.service.ts:12 | the named cookie takes the value and no other cookie changes |
| Cookies.CookieJar.Remove | src/services/auth.service.ts:58-59 | the named cookie is gone and no other cookie changes |
| AuthService.EffectiveStatus | src/services/auth.service.ts:18 | the response status unless it is missing or 0, then 500; never 0 |
| AuthService.LoginFailure | src/services/auth.service.ts:16-42 | effective status 401 gives the fixed invalid-credentials record; another HTTP-client failure with a body gives the body's fields defaulted with `\|\|`; everything else gives the network error |
| AuthService.UnauthorizedIgnoresBody | src/services/auth.service.ts:20-26 | a 401 gives the same record whatever body came back |
| AuthService.LoginErrorAlwaysTruthy | src/services/auth.service.ts:18-42 | a login error's message and error are never empty and its status code is never 0 |
| AuthService.Login | src/services/auth.service.ts:7-44 | the response is returned unchanged and the `jwt` cookie is set iff the token is non-empty; a failure returns its error record and leaves the cookies alone |
| AuthService.HandleGoogleCallback | src/services/auth.service.ts:51-55 | the token is stored iff it is non-empty |
| AuthService.Logout | src/services/auth.service.ts:57-60 | both `jwt` and `refreshToken` are removed and nothing else |
| RegisterService.RegisterFailure | src/services/register.service.ts:14-27 | an HTTP-client failure with a body gives the body's message, the response status and the body's code, each defaulted with `\|\|`; anything else gives the network error |
| RegisterService.Register | src/services/register.service.ts:10-28 | success returns the response unchanged; failure returns its error record |
| RegisterService.No401SpecialCase | src/services/register.service.ts:15-20 | a 401 with a server message reports that message and status 401, where login reports invalid credentials |
| RegisterService.RegisterErrorAlwaysTruthy | src/services/register.service.ts:15-26 | a registration error has a non-empty message and non-zero status and code |
| ProfileService.DefaultMessage | src/services/profile.service.ts:20 | each call's default message is non-empty |
| ProfileService.ServerMessage | src/services/profile.service.ts:15-18 | present iff the failure is an HTTP-client error whose body has a truthy message, which it then is |
| ProfileService.FailureMessage | src/services/profile.service.ts:14-21 | the server's non-empty message when there is one, the call's default otherwise and for every non-HTTP failure |
| ProfileService.Call | src/services/profile.service.ts:10-57 | success returns the body unchanged; failure returns its message |
| ProfileService.ServerMessageWinsForEveryCall | src/services/profile.service.ts:28-35 | with a server message, all three calls report the same message |
| PostCard.Split | src/components/post/PostCard.tsx:23 | `split(" ")` always yields at least one segment |
| PostCard.HeadLetters | src/components/post/PostCard.tsx:24-25 | one letter per segment at most, exactly one per segment when no segment is empty |
| PostCard.HeadLettersAreWordStarts | src/components/post/PostCard.tsx:22-25 | the letters that `split`, `map(n => n[0])` and `join` collect are exactly the name's non-space characters that start it or follow a space |
| PostCard.GetInitials | src/components/post/PostCard.tsx:20-28 | "U" for an empty name, never longer than 2 characters |
| PostCard.InitialsAreWordStarts | src/components/post/PostCard.tsx:20-28 | for a non-empty name, the initials are the first two word-start characters, upper-cased |
| PostCard.CategoryColor | src/components/post/PostCard.tsx:30-41 | blue, green or orange iff the upper-cased category is TUGAS, DISKUSI or PENGUMUMAN; gray iff it is none of them |
| PostCard.CategoryColorIgnoresCase | src/components/post/PostCard.tsx:31 | a category and its upper-cased form get the same colour |
| PostCard.ShowContent | src/components/post/PostCard.tsx:95-108 | "Read more" shows iff the content is longer than 300 and not expanded; then the text is its first 300 characters plus "..."; otherwise the whole content |
| PostCard.PostCardView.ReadMore | src/components/post/PostCard.tsx:101 | expanding sets the flag for good and the whole content is then shown |
| PostCard.LikeButtonFlag | src/components/post/PostCard.tsx:129 | the button passes the negation of `isLiked` |
| PostCard.ClickAction | src/components/post/PostCard.tsx:129 | as written, a click dispatches unlike iff the post is not liked |
| PostCard.IntendedLikeButtonFlag | src/components/post/PostCard.tsx:129 | the corrected flag is the post's current `isLiked` |
| PostCard.IntendedClickAction | src/components/post/PostCard.tsx:129 | corrected: a click likes iff the post is not liked |
| PostCard.IntendedClickKeepsCountsSound | src/components/post/PostCard.tsx:129 | with the corrected flag, a feed whose counts are non-negative (and positive on liked posts) keeps that after the optimistic update |
| PostCard.ClickOnUnlikedPostGoesNegative | src/components/post/PostCard.tsx:129 | as written, clicking a fresh unliked post with 0 likes dispatches unlike and shows -1 likes |
| UserPostCard.TruncateContent | src/components/profile/UserPostCard.tsx:46-49 | content of length at most `maxLength` is returned whole; longer content is its first `maxLength` characters plus "..." |
| UserPostCard.TruncateUnchangedIff | src/components/profile/UserPostCard.tsx:46-49 | the content comes back unchanged iff it is at most `maxLength` long or already has "..." right after its first `maxLength` characters |
| UserPostCard.KategoriColor | src/components/profile/UserPostCard.tsx:51-60 | exact case-sensitive lookup of the five categories; gray iff the category is not one of them |
| UserPostCard.CardsDisagreeOnCase | src/components/profile/UserPostCard.tsx:59 | "tugas" is blue on the feed card and gray on the profile card |
| UserPostCard.DisplayName | src/components/profile/UserPostCard.tsx:78 | "Anonymous" for an anonymous post, the author's name otherwise |
| UserPostCard.CardContent | src/components/profile/UserPostCard.tsx:103 | the card text is never longer than 153 characters |
| ProfileAlert.IsIncomplete | src/components/profile/ProfileAlert.tsx:27 | incomplete iff the faculty is the placeholder or the avatar is falsy, which for a string means empty |
| ProfileAlert.MissingInfo | src/components/profile/ProfileAlert.tsx:31-34 | "faculty information" iff the faculty is unspecified, "profile picture" iff there is no avatar, in that order, nothing else |
| ProfileAlert.Render | src/components/profile/ProfileAlert.tsx:27-45 | renders nothing iff the profile is complete; otherwise the missing items joined with " and " |
| ProfileForm.ShownFakultas | src/components/profile/ProfileForm.tsx:55 | the placeholder faculty is shown as an empty field, any other as it is |
| ProfileForm.InitialForm | src/components/profile/ProfileForm.tsx:52-56 | the form starts with the user's name and email and the shown faculty |
| ProfileForm.FormChanged | src/components/profile/ProfileForm.tsx:67-71 | changed iff the form differs from the user's initial form |
| ProfileForm.WithField | src/components/profile/ProfileForm.tsx:58-60 | only the named field takes the value |
| ProfileForm.ProfileFormState.constructor | src/components/profile/ProfileForm.tsx:52-56 | the form starts as the initial form and is unchanged |
| ProfileForm.ProfileFormState.ButtonsDisabled | src/components/profile/ProfileForm.tsx:298 | Save and Reset are disabled iff submitting or the form equals the initial form |
| ProfileForm.ProfileFormState.ReceiveUser | src/components/profile/ProfileForm.tsx:52 | a new user prop does not reset the form |
| ProfileForm.ProfileFormState.HandleChange | src/components/profile/ProfileForm.tsx:58-60 | the named field changes and nothing else |
| ProfileForm.ProfileFormState.Reset | src/components/profile/ProfileForm.tsx:273-281 | back to the initial form, after which the form is unchanged |
| ProfileForm.ProfileFormState.Submit | src/components/profile/ProfileForm.tsx:62-65 | every field of the current form is sent as it is |
| EditPostDialog.FromPost | src/components/profile/EditPostDialog.tsx:48-52 | the form values are the post's title, content and category |
| EditPostDialog.FormChanged | src/components/profile/EditPostDialog.tsx:68-71 | changed iff the form differs from the post's values |
| EditPostDialog.WithField | src/components/profile/EditPostDialog.tsx:56-61 | only the named field takes the value |
| EditPostDialog.EditPostDialogState.constructor | src/components/profile/EditPostDialog.tsx:40-44 | the form starts empty |
| EditPostDialog.EditPostDialogState.SubmitDisabled | src/components/profile/EditPostDialog.tsx:130 | disabled iff updating or the form equals the post's values |
| EditPostDialog.EditPostDialogState.PostChanged | src/components/profile/EditPostDialog.tsx:46-54 | the form is reloaded from the new post and is then unchanged |
| EditPostDialog.EditPostDialogState.HandleChange | src/components/profile/EditPostDialog.tsx:56-61 | the named field changes and nothing else |
| EditPostDialog.EditPostDialogState.Submit | src/components/profile/EditPostDialog.tsx:63-66 | the post's id and the current form are sent |
| CreatePostForm.DefaultForm | src/components/post/CreatePostForm.tsx:54-60 | empty title and content, the user's faculty or "", category TUGAS, not anonymous, no image |
| CreatePostForm.ApplyChange | src/components/post/CreatePostForm.tsx:74-79 | only the named field changes; anonymity is stored as the truthiness of the value |
| CreatePostForm.AnonymousCoercion | src/components/post/CreatePostForm.tsx:77 | "" and 0 switch anonymity off; "false" and true switch it on |
| CreatePostForm.CategoryColor | src/components/post/CreatePostForm.tsx:127-142 | each of the five exact names has its own colour; gray iff the category is none of them |
| CreatePostForm.CreatePostFormState.constructor | src/components/post/CreatePostForm.tsx:53-61 | closed, default form, no preview |
| CreatePostForm.CreatePostFormState.HandleChange | src/components/post/CreatePostForm.tsx:74-79 | the form takes the change; open flag and preview are kept |
| CreatePostForm.CreatePostFormState.HandleFileChange | src/components/post/CreatePostForm.tsx:81-88 | a chosen file is stored and previewed; no file changes nothing |
| CreatePostForm.CreatePostFormState.RemoveImage | src/components/post/CreatePostForm.tsx:90-96 | both the preview and the form's image are cleared |
| CreatePostForm.CreatePostFormState.ResetForm | src/components/post/CreatePostForm.tsx:108-120 | default form and no preview |
| CreatePostForm.CreatePostFormState.HandleSubmit | src/components/post/CreatePostForm.tsx:98-106 | the current form is sent, then the form is reset and the dialog closed |
| CreatePostForm.CreatePostFormState.OnOpenChange | src/components/post/CreatePostForm.tsx:122-125 | the dialog takes the given state; closing resets the form, opening keeps it |

## Left out

- The query library's internals are not modelled: cancellation, de-duplication, invalidation, refetching and re-render subscriptions. Cancelling and invalidating appear only as events in a log.
- The page fetch in `FeedCache.PostsCache.LoadPage` stands in for the library's infinite-query driver. Refetching and replacing pages are not modelled.
- Concurrent mutations are not modelled. Each mutation runs to completion before the next starts, with its gateway outcome given as a parameter. No at-most-one-in-flight guarantee is claimed.
- There is no cache logic for editing or deleting a post, and no invalidation across the profile and feed caches. Neither exists in the hooks.
- The `api.ts` bearer-token interceptor and its 401 refresh and redirect are not modelled. They are HTTP transport code.
- JWT decoding is a parameter, `decode`. Reading the cookie gives an optional string. `Date.now() / 1000` is an integer `now`, so fractional seconds are not modelled.
- `URL.createObjectURL`, `FileReader` and `FormData` are not modelled. Temporary and preview URLs are opaque string parameters, and files are opaque handles.
- `PostCard.ShowContent`, `UserPostCard.TruncateContent`, `PostCard.Split`, `PostCard.HeadLetters` and `PostCard.GetInitials`: lengths, indices and slices count characters, not the UTF-16 code units JavaScript counts. Content with characters outside the Basic Multilingual Plane (emoji, for instance) is cut at a different place than in the browser. A name starting with such a character yields a whole character here, where JavaScript takes a lone surrogate.
- `UserPostCard.KategoriColor`: the table is a map of the five categories only. In JavaScript the lookup is a plain object lookup that also finds the keys inherited from `Object.prototype` ("constructor", "toString", "__proto__" and the like). For those it returns a truthy non-string value instead of the gray class.
- `Js.Upper`: `toUpperCase` is modelled on ASCII letters only. Unicode case mapping is not modelled.
- `Js.OrNumber`: NaN, which is falsy in JavaScript, is not modelled.
- Date formatting with date-fns is not modelled. It is display only.
- JSX layout, toasts, skeletons and the `googleLogin` redirect are not modelled. Neither are routing, navigation and the pages.
- `ProfileHook.MergeUser`: an update field that is present but `undefined` would erase the user's field in JavaScript. The model treats a missing field as not submitted. The profile form always sends all three fields as strings.
- `ProfileHook.ProfileStore.UpdateProfile` and `UpdateAvatar` read the bundle from one variable. The code's render-time `profileData` and the cache's `getQueryData` are taken to agree.
- `ProfileHook.ProfileStore.UpdateAvatar`: the failure's message only feeds a toast and is not returned.
- The `getInitials` copies in `UserPostCard.tsx` and `CreatePostForm.tsx` are the same text as `PostCard.tsx`'s. They are modelled once, as `PostCard.GetInitials`.

## Findings

| source | as written | input that shows it | evidently intended | confidence | as-written member | corrected member |
|---|---|---|---|---|---|---|
| src/components/post/PostCard.tsx:129 | the like button passes `!post.isLiked`, and `toggleLike` (src/hooks/use-posts.ts:140-146) reads its flag as the current state, so clicking an unliked post dispatches unlike | a post with `isLiked = false` and `likesCount = 0`: the click dispatches unlike and the feed shows -1 likes | pass `post.isLiked`, so an unliked post is liked and a liked one unliked, and like counts stay non-negative | not executed | PostCard.ClickAction, PostCard.ClickOnUnlikedPostGoesNegative | PostCard.IntendedClickAction, PostCard.IntendedClickKeepsCountsSound |
