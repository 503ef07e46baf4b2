/**
 * The login service: a successful login stores the access token in the
 * `jwt` cookie when there is one and returns the response as it came; a
 * failure is turned into a `{ message, error, statusCode }` record, with a
 * fixed record for 401, the server's fields (defaulted with `||`) when a
 * body came back, and a network error otherwise. Logging out removes both
 * token cookies.
 */
module AuthService {
  import opened Js
  import opened Types
  import opened Cookies

  datatype LoginResponse = LoginResponse(user: User, accessToken: string)

  datatype LoginError = LoginError(message: string, error: string, statusCode: int)

  const InvalidCredentials: LoginError := LoginError("Invalid credentials", "Unauthorized", 401)
  const NetworkError: LoginError := LoginError("Network error or server unavailable", "Error", 500)

  /** `error.response?.status || 500` for an HTTP-client failure: the response status unless it is missing or 0. */
  function EffectiveStatus(status: Option<int>): (s: int)
    ensures s != 0
    ensures status.Some? && status.value != 0 ==> s == status.value
    ensures status.None? || status.value == 0 ==> s == 500
  {
    OrNumber(status, 500)
  }

  /** The error record a failed login throws. */
  function LoginFailure(failure: HttpFailure): (e: LoginError)
    ensures failure.Axios? && EffectiveStatus(failure.status) == 401 ==> e == InvalidCredentials
    ensures failure.Axios? && EffectiveStatus(failure.status) != 401 && failure.data.Some? ==>
              e.message == OrString(failure.data.value.message, "Login failed")
              && e.error == OrString(failure.data.value.error, "Error")
              && e.statusCode == OrNumber(failure.data.value.statusCode, EffectiveStatus(failure.status))
    ensures failure.NonAxios? || (failure.data.None? && EffectiveStatus(failure.status) != 401) ==> e == NetworkError
  {
    match failure
    case NonAxios => NetworkError
    case Axios(status, data) =>
      var effective := EffectiveStatus(status);
      if effective == 401 then InvalidCredentials
      else if data.Some? then
        LoginError(OrString(data.value.message, "Login failed"),
                   OrString(data.value.error, "Error"),
                   OrNumber(data.value.statusCode, effective))
      else NetworkError
  }

  /** A 401 is reported as invalid credentials whatever body the server sent. */
  lemma UnauthorizedIgnoresBody(a: Option<ErrorBody>, b: Option<ErrorBody>)
    ensures LoginFailure(Axios(Some(401), a)) == LoginFailure(Axios(Some(401), b)) == InvalidCredentials
  {
  }

  /**
   * Every field of a login error is truthy: the message and error are never
   * empty and the status code is never 0, so a caller's own `||` default on
   * them never applies.
   */
  lemma LoginErrorAlwaysTruthy(failure: HttpFailure)
    ensures LoginFailure(failure).message != ""
    ensures LoginFailure(failure).error != ""
    ensures LoginFailure(failure).statusCode != 0
  {
  }

  /** `authService.login`: the response is returned unchanged, the token stored when non-empty; a failure becomes its error record. */
  method Login(jar: CookieJar, outcome: Outcome<LoginResponse>) returns (r: Result<LoginResponse, LoginError>)
    modifies jar
    ensures outcome.Succeeded? ==> r == Ok(outcome.body)
    ensures outcome.Failed? ==> r == Err(LoginFailure(outcome.failure))
    ensures outcome.Succeeded? && outcome.body.accessToken != "" ==> jar.cookies == old(jar.cookies)[JwtCookie := outcome.body.accessToken]
    ensures outcome.Failed? || outcome.body.accessToken == "" ==> jar.cookies == old(jar.cookies)
  {
    match outcome
    case Succeeded(response) =>
      if response.accessToken != "" {
        jar.Set(JwtCookie, response.accessToken);
      }
      r := Ok(response);
    case Failed(failure) =>
      r := Err(LoginFailure(failure));
  }

  /** `handleGoogleCallback(token)`: the token is stored when non-empty. */
  method HandleGoogleCallback(jar: CookieJar, token: string)
    modifies jar
    ensures token != "" ==> jar.cookies == old(jar.cookies)[JwtCookie := token]
    ensures token == "" ==> jar.cookies == old(jar.cookies)
  {
    if token != "" {
      jar.Set(JwtCookie, token);
    }
  }

  /** `authService.logout`: both the `jwt` and the `refreshToken` cookies are removed. */
  method Logout(jar: CookieJar)
    modifies jar
    ensures jar.cookies == old(jar.cookies) - {JwtCookie, RefreshTokenCookie}
    ensures JwtCookie !in jar.cookies && RefreshTokenCookie !in jar.cookies
  {
    jar.Remove(JwtCookie);
    jar.Remove(RefreshTokenCookie);
  }
}
