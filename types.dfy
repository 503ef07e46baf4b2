/**
 * The records the front end exchanges with the backend: users and posts,
 * one page of the paginated feed, and the failure shapes the HTTP client
 * surfaces.
 */
module Types {
  import opened Js

  /** An authenticated user as the backend returns it. */
  datatype User = User(id: string, name: string, email: string, fakultas: string, avatar: string, role: string)

  /** The author snapshot embedded in a post; `avatar` may be null. */
  datatype PostAuthor = PostAuthor(id: string, name: string, fakultas: string, avatar: Option<string>, role: string)

  /** A post. `likesCount` is a plain number: nothing in the client keeps it non-negative. */
  datatype Post = Post(
    id: string,
    title: string,
    content: string,
    image: Option<string>,
    isAnonymous: bool,
    kategori: string,
    fakultas: string,
    authorId: string,
    createdAt: string,
    author: PostAuthor,
    likesCount: int,
    commentsCount: int,
    isLiked: bool)

  /** Pagination metadata of one page of posts. */
  datatype PostMeta = PostMeta(page: int, limit: int, totalItems: int, totalPages: int, hasNextPage: bool, hasPreviousPage: bool)

  /** One fetched page of the feed (a `PostsResponse`). */
  datatype Page = Page(statusCode: int, message: string, data: seq<Post>, meta: PostMeta)

  /** The body of a failed HTTP response; each field may be absent. */
  datatype ErrorBody = ErrorBody(message: Option<string>, error: Option<string>, statusCode: Option<int>)

  /**
   * What a gateway call can throw: an HTTP-client error, with the response
   * status and body when a response arrived, or any other exception.
   */
  datatype HttpFailure = Axios(status: Option<int>, data: Option<ErrorBody>) | NonAxios

  /** The outcome of one gateway call: the response body, or what was thrown. */
  datatype Outcome<T> = Succeeded(body: T) | Failed(failure: HttpFailure)

  /** The error or value a service function returns to its caller. */
  datatype Result<T, E> = Ok(value: T) | Err(error: E)

  /** What the create-post form submits (a `CreatePostRequest`). */
  datatype PostDraft = PostDraft(title: string, content: string, fakultas: string, kategori: string, isAnonymous: bool, image: Option<FileRef>)

  /** The fields a profile update submits (a `ProfileUpdateRequest`); an absent field is not sent. */
  datatype ProfileUpdate = ProfileUpdate(name: Option<string>, email: Option<string>, fakultas: Option<string>)

  /** The faculty placeholder the backend stores for users who have not chosen one. */
  const NotSpecified: string := "Not specified"

  /** An opaque browser file handle. */
  datatype FileRef = FileRef(handle: nat)
}
