/**
 * middleware.ts: the authentication gate in front of every page. Signed-in
 * users are sent away from the sign-in pages, and everyone else is sent to
 * the sign-in page, with a note of where they were going.
 */
module Middleware {
  /**
   * The parts of a request URL the gate reads or writes: the origin, the path
   * and the search parameters (one value per name, as `searchParams.set`
   * leaves them).
   */
  datatype Url = Url(origin: string, pathname: string, params: map<string, string>)

  /** `NextResponse.next()` passes the request on; `NextResponse.redirect` sends the browser elsewhere. */
  datatype Decision = Next | Redirect(to: Url)

  const LoginPath := "/login"
  const SignupPath := "/signup"
  const ForgotPasswordPath := "/forgot-password"
  const HomePath := "/"
  const RedirectedFrom := "redirectedFrom"

  /** `isAuthPage`: the sign-in, sign-up and password-reset pages. */
  predicate IsAuthPage(pathname: string) {
    pathname == LoginPath || pathname == SignupPath || pathname == ForgotPasswordPath
  }

  /** `new URL("/", req.url)`: the home page of the same origin, without a query. */
  function HomeOf(url: Url): Url {
    Url(url.origin, HomePath, map[])
  }

  /** The cloned URL with its path set to the sign-in page and the original path recorded. */
  function LoginOf(url: Url): Url {
    Url(url.origin, LoginPath, url.params[RedirectedFrom := url.pathname])
  }

  /**
   * `middleware`: the decision for a request to `url`, given whether the
   * session cookie yields a session. A redirect happens exactly when the page
   * kind and the session disagree: a signed-in user on an auth page goes home,
   * a signed-out user elsewhere goes to the sign-in page, keeping the origin
   * and the query and recording the original path under `redirectedFrom`.
   */
  function Decide(url: Url, hasSession: bool): (d: Decision)
    ensures d.Redirect? <==> IsAuthPage(url.pathname) == hasSession
    ensures d.Redirect? && hasSession ==>
      d.to.origin == url.origin && d.to.pathname == HomePath && d.to.params == map[]
    ensures d.Redirect? && !hasSession ==>
      && d.to.origin == url.origin
      && d.to.pathname == LoginPath
      && d.to.params.Keys == url.params.Keys + {RedirectedFrom}
      && d.to.params[RedirectedFrom] == url.pathname
      && forall k :: k in url.params && k != RedirectedFrom ==> d.to.params[k] == url.params[k]
  {
    if IsAuthPage(url.pathname) && hasSession then Redirect(HomeOf(url))
    else if !IsAuthPage(url.pathname) && !hasSession then Redirect(LoginOf(url))
    else Next
  }

  /**
   * No redirect loop: with the session unchanged, a request to the target of
   * a redirect passes through (home is not an auth page, the sign-in page is).
   */
  lemma NoRedirectLoop(url: Url, hasSession: bool)
    ensures var d := Decide(url, hasSession);
      d.Redirect? ==> Decide(d.to, hasSession) == Next
  {
  }
}
