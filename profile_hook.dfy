/**
 * The profile hook: the profile bundle cached under the key ["profile"],
 * the profile-field mutation (optimistic merge into the cached user, written
 * to the cache and to the session; server user into the session on success;
 * cache rollback on failure) and the avatar upload (temporary URL first,
 * server user on success, original bundle on failure, with an
 * `isAvatarUploading` flag around the upload).
 */
module ProfileHook {
  import opened Js
  import opened Types
  import opened AuthSlice

  /** What `GET /auth/profile` returns and the cache holds. */
  datatype ProfileBundle = ProfileBundle(user: User, posts: seq<Post>, accessToken: string)

  /** What the hook records of the library, the gateway and the browser, in order. */
  datatype ProfileEvent =
    | CancelProfile                               // cancelQueries({ queryKey: ["profile"] })
    | UpdateProfileRequest(update: ProfileUpdate) // PATCH /auth/profile
    | InvalidateProfile                           // invalidateQueries({ queryKey: ["profile"] })
    | UploadingSet(on: bool)                      // setIsAvatarUploading(on)
    | AvatarRequest(file: FileRef)                // PATCH /auth/avatar
    | RevokeUrl(url: string)                      // URL.revokeObjectURL(url)

  /**
   * `{ ...user, ...update }`: each submitted field overwrites the user's,
   * every field not submitted and the id, avatar and role are kept.
   */
  function MergeUser(user: User, update: ProfileUpdate): (u: User)
    ensures u.id == user.id && u.avatar == user.avatar && u.role == user.role
    ensures u.name == (if update.name.Some? then update.name.value else user.name)
    ensures u.email == (if update.email.Some? then update.email.value else user.email)
    ensures u.fakultas == (if update.fakultas.Some? then update.fakultas.value else user.fakultas)
  {
    User(user.id, update.name.GetOr(user.name), update.email.GetOr(user.email),
         update.fakultas.GetOr(user.fakultas), user.avatar, user.role)
  }

  /** Merging the same update twice is merging it once. */
  lemma MergeIdempotent(user: User, update: ProfileUpdate)
    ensures MergeUser(MergeUser(user, update), update) == MergeUser(user, update)
  {
  }

  /** The bundle the optimistic profile update writes: only the user changes. */
  function OptimisticProfile(bundle: ProfileBundle, update: ProfileUpdate): (b: ProfileBundle)
    ensures b.user == MergeUser(bundle.user, update)
    ensures b.posts == bundle.posts && b.accessToken == bundle.accessToken
  {
    bundle.(user := MergeUser(bundle.user, update))
  }

  /** The bundle the optimistic avatar update writes: only the user's avatar changes, to the temporary URL. */
  function OptimisticAvatar(bundle: ProfileBundle, tempUrl: string): (b: ProfileBundle)
    ensures b.user.avatar == tempUrl
    ensures b.user.(avatar := bundle.user.avatar) == bundle.user
    ensures b.posts == bundle.posts && b.accessToken == bundle.accessToken
  {
    bundle.(user := bundle.user.(avatar := tempUrl))
  }

  /**
   * The hook's state: the cached profile bundle (absent until fetched), the
   * upload flag, the event log, and the session the hook dispatches
   * `loginSuccess` to.
   */
  class ProfileStore {
    var data: Option<ProfileBundle>
    var isAvatarUploading: bool
    var events: seq<ProfileEvent>
    const session: AuthSession

    constructor (session: AuthSession)
      ensures this.session == session && data.None? && !isAvatarUploading && events == []
    {
      this.session := session;
      data := None;
      isAvatarUploading := false;
      events := [];
    }

    /** The exposed `profile`: the cached user, if any. */
    function Profile(): (u: Option<User>)
      reads this
      ensures u.Some? <==> data.Some?
      ensures u.Some? ==> u.value == data.value.user
    {
      if data.Some? then Some(data.value.user) else None
    }

    /** A completed profile fetch. */
    method Loaded(bundle: ProfileBundle)
      modifies this
      ensures data == Some(bundle)
      ensures isAvatarUploading == old(isAvatarUploading) && events == old(events)
    {
      data := Some(bundle);
    }

    /**
     * `updateProfile(update)`. With a cached bundle, the merged user is
     * written to the cache and to the session before the request. On success
     * the session takes the server's user and the profile key is
     * invalidated (the cache keeps the merged user until it is refetched).
     * On failure the cache gets its snapshot back but the session keeps the
     * merged user. Without a cached bundle nothing is written optimistically.
     */
    method UpdateProfile(update: ProfileUpdate, response: Option<User>)
      modifies this, session
      ensures events == old(events) + [CancelProfile, UpdateProfileRequest(update)]
                        + (if response.Some? then [InvalidateProfile] else [])
      ensures isAvatarUploading == old(isAvatarUploading)
      ensures response.Some? && old(data).Some? ==> data == Some(OptimisticProfile(old(data).value, update))
      ensures response.None? || old(data).None? ==> data == old(data)
      ensures response.Some? ==>
                session.user == response && session.isAuthenticated && !session.isLoading && session.error.None?
                && session.Valid()
      ensures response.None? && old(data).Some? ==>
                session.user == Some(MergeUser(old(data).value.user, update)) && session.isAuthenticated
                && !session.isLoading && session.error.None? && session.Valid()
      ensures response.None? && old(data).None? ==>
                session.user == old(session.user) && session.isAuthenticated == old(session.isAuthenticated)
                && session.isLoading == old(session.isLoading) && session.error == old(session.error)
    {
      // onMutate
      events := events + [CancelProfile];
      var previousData := data;
      if data.Some? {
        var updatedProfile := OptimisticProfile(data.value, update);
        data := Some(updatedProfile);
        session.LoginSuccess(updatedProfile.user);
      }
      // mutationFn
      events := events + [UpdateProfileRequest(update)];
      match response {
        case Some(updatedUser) =>
          // onSuccess
          session.LoginSuccess(updatedUser);
          events := events + [InvalidateProfile];
        case None =>
          // onError
          if previousData.Some? {
            data := previousData;
          }
      }
    }

    /**
     * `updateAvatar(file)`. No file: nothing at all happens. Otherwise the
     * flag is raised; with a cached bundle the user's avatar becomes the
     * temporary URL in the cache and the session, and the file is uploaded.
     * On success the cache holds the original bundle with the server's user,
     * the session the same user, and the temporary URL is revoked. On
     * failure the cache gets the original bundle back, the session keeps the
     * temporary avatar and the URL is not revoked. The flag is lowered on
     * every path that raised it.
     */
    method UpdateAvatar(file: Option<FileRef>, tempUrl: string, response: Option<User>) returns (result: Option<User>)
      modifies this, session
      ensures file.None? ==>
                data == old(data) && events == old(events) && isAvatarUploading == old(isAvatarUploading)
                && session.user == old(session.user) && session.isAuthenticated == old(session.isAuthenticated)
                && session.isLoading == old(session.isLoading) && session.error == old(session.error)
      ensures file.None? || old(data).None? ==> result.None?
      ensures file.Some? ==> !isAvatarUploading
      ensures file.Some? && old(data).None? ==>
                events == old(events) + [UploadingSet(true), UploadingSet(false)] && data == old(data)
                && session.user == old(session.user) && session.isAuthenticated == old(session.isAuthenticated)
                && session.isLoading == old(session.isLoading) && session.error == old(session.error)
      ensures file.Some? && old(data).Some? ==>
                events == old(events) + [UploadingSet(true), AvatarRequest(file.value)]
                          + (if response.Some? then [RevokeUrl(tempUrl)] else []) + [UploadingSet(false)]
                && session.isAuthenticated && !session.isLoading && session.error.None? && session.Valid()
      ensures file.Some? && old(data).Some? && response.Some? ==>
                data == Some(old(data).value.(user := response.value)) && session.user == response && result == response
      ensures file.Some? && old(data).Some? && response.None? ==>
                data == old(data) && session.user == Some(OptimisticAvatar(old(data).value, tempUrl).user) && result.None?
    {
      result := None;
      if file.None? {
        return;
      }
      isAvatarUploading := true;
      events := events + [UploadingSet(true)];
      if data.Some? {
        var profileData := data.value;
        var optimisticData := OptimisticAvatar(profileData, tempUrl);
        data := Some(optimisticData);
        session.LoginSuccess(optimisticData.user);
        events := events + [AvatarRequest(file.value)];
        match response {
          case Some(updatedUser) =>
            data := Some(profileData.(user := updatedUser));
            session.LoginSuccess(updatedUser);
            events := events + [RevokeUrl(tempUrl)];
            result := Some(updatedUser);
          case None =>
            data := Some(profileData);
        }
      }
      // finally
      isAvatarUploading := false;
      events := events + [UploadingSet(false)];
    }
  }
}
