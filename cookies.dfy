/** The browser cookie store the auth code writes through `js-cookie`. */
module Cookies {

  const JwtCookie: string := "jwt"
  const RefreshTokenCookie: string := "refreshToken"

  /** The cookies of the page, by name. */
  class CookieJar {
    var cookies: map<string, string>

    constructor (cookies: map<string, string>)
      ensures this.cookies == cookies
    {
      this.cookies := cookies;
    }

    /** `Cookies.set(name, value)`. */
    method Set(name: string, value: string)
      modifies this
      ensures cookies == old(cookies)[name := value]
    {
      cookies := cookies[name := value];
    }

    /** `Cookies.remove(name)`: removing an absent cookie does nothing. */
    method Remove(name: string)
      modifies this
      ensures cookies == old(cookies) - {name}
    {
      cookies := cookies - {name};
    }
  }
}
