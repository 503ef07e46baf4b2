/**
 * The authentication session held in the store: who is signed in, whether a
 * login is in flight and the last login error. The initial user comes from
 * the `jwt` cookie when it decodes and has not expired. Every transition
 * keeps `isAuthenticated` equal to "a user is present".
 */
module AuthSlice {
  import opened Js
  import opened Types
  import opened Cookies

  /** The claims of a decoded token; `exp` may be missing. */
  datatype Claims = Claims(sub: string, name: string, email: string, fakultas: string, avatar: string, role: string, exp: Option<int>)

  /** What `jwtDecode` gives for a cookie value: the claims, or a thrown error. */
  datatype Decoded = Malformed | Token(claims: Claims)

  /** The user a token describes: the subject claim is the id, the other claims carry over by name. */
  function ClaimedUser(c: Claims): (u: User)
    ensures u.id == c.sub && u.name == c.name && u.email == c.email
    ensures u.fakultas == c.fakultas && u.avatar == c.avatar && u.role == c.role
  {
    User(c.sub, c.name, c.email, c.fakultas, c.avatar, c.role)
  }

  /**
   * `getUserFromToken`: a user only when the cookie is present and
   * non-empty, decodes, and its `exp` is later than `now` (the current time
   * in seconds); otherwise none.
   */
  function UserFromToken(cookie: Option<string>, decode: string -> Decoded, now: int): (u: Option<User>)
    ensures u.Some? <==> cookie.Some? && cookie.value != "" && decode(cookie.value).Token?
                         && decode(cookie.value).claims.exp.Some? && decode(cookie.value).claims.exp.value > now
    ensures u.Some? ==> u.value == ClaimedUser(decode(cookie.value).claims)
  {
    if cookie.None? || cookie.value == "" then None
    else match decode(cookie.value)
      case Malformed => None
      case Token(c) => if c.exp.Some? && c.exp.value > now then Some(ClaimedUser(c)) else None
  }

  /** An expired token never yields a user, whatever else it claims. */
  lemma ExpiredTokenIsSignedOut(cookie: string, decode: string -> Decoded, now: int)
    requires decode(cookie).Token? && decode(cookie).claims.exp.Some? && decode(cookie).claims.exp.value <= now
    ensures UserFromToken(Some(cookie), decode, now).None?
  {
  }

  /** The `auth` state and its four reducers. */
  class AuthSession {
    var user: Option<User>
    var isAuthenticated: bool
    var isLoading: bool
    var error: Option<string>

    /** The session invariant: signed in exactly when a user is held. */
    predicate Valid()
      reads this
    {
      isAuthenticated <==> user.Some?
    }

    /** `initialState`: the token's user, `isAuthenticated = !!user`, not loading, no error. */
    constructor FromToken(cookie: Option<string>, decode: string -> Decoded, now: int)
      ensures user == UserFromToken(cookie, decode, now)
      ensures !isLoading && error.None?
      ensures Valid()
    {
      user := UserFromToken(cookie, decode, now);
      isAuthenticated := UserFromToken(cookie, decode, now).Some?;
      isLoading := false;
      error := None;
    }

    /** `loginStart`: loading, error cleared, user and flag untouched. */
    method LoginStart()
      modifies this
      ensures isLoading && error.None?
      ensures user == old(user) && isAuthenticated == old(isAuthenticated)
      ensures old(Valid()) ==> Valid()
    {
      isLoading := true;
      error := None;
    }

    /** `loginSuccess(user)`: signed in as the payload, not loading, no error. */
    method LoginSuccess(payload: User)
      modifies this
      ensures user == Some(payload) && isAuthenticated && !isLoading && error.None?
      ensures Valid()
    {
      isLoading := false;
      isAuthenticated := true;
      user := Some(payload);
      error := None;
    }

    /** `loginFailure(message)`: signed out with the message as error, not loading. */
    method LoginFailure(message: string)
      modifies this
      ensures user.None? && !isAuthenticated && !isLoading && error == Some(message)
      ensures Valid()
    {
      isLoading := false;
      isAuthenticated := false;
      user := None;
      error := Some(message);
    }

    /** `logout`: signed out, error cleared, `isLoading` untouched, and the `jwt` cookie removed. */
    method Logout(jar: CookieJar)
      modifies this, jar
      ensures user.None? && !isAuthenticated && error.None? && isLoading == old(isLoading)
      ensures jar.cookies == old(jar.cookies) - {JwtCookie}
      ensures Valid()
    {
      isAuthenticated := false;
      user := None;
      error := None;
      jar.Remove(JwtCookie);
    }
  }
}
