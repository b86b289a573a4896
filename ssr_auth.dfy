/**
 * The server-side page guard (utils/WithSSRAuth.ts): no `babi.token` cookie
 * means a redirect to the login page; otherwise the wrapped page function
 * runs, and an `AuthTokenError` from it destroys both session cookies and
 * redirects as well.
 */
module SsrAuth {
  import opened Wrappers
  import opened Env
  import opened Auth

  /** How the wrapped page function settles when it is called. */
  datatype PageOutcome<R> = Returned(result: R) | Threw(isAuthTokenError: bool)

  /** What the guard resolves to; `Undefined` when it falls off the end of the catch block. */
  datatype GuardResult<R> = Page(result: R) | Redirect(destination: string, permanent: bool) | Undefined

  datatype Decision<R> = Decision(result: GuardResult<R>, callsPage: bool, destroysCookies: bool)

  /** The guard's branch on the token cookie and on how the page function ended. */
  function Decide<R>(cookies: CookieJar, page: PageOutcome<R>): (d: Decision<R>)
    ensures !Truthy(Read(cookies, TOKEN_COOKIE)) ==>
              d == Decision(Redirect(LOGIN_ROUTE, false), false, false)
    ensures Truthy(Read(cookies, TOKEN_COOKIE)) ==> d.callsPage
    ensures d.callsPage && page.Returned? ==> d == Decision(Page(page.result), true, false)
    ensures d.callsPage && page.Threw? && page.isAuthTokenError ==>
              d == Decision(Redirect(LOGIN_ROUTE, false), true, true)
    ensures d.callsPage && page.Threw? && !page.isAuthTokenError ==> d == Decision(Undefined, true, false)
    ensures d.destroysCookies ==> d.result == Redirect(LOGIN_ROUTE, false)
  {
    if !Truthy(Read(cookies, TOKEN_COOKIE)) then
      Decision(Redirect(LOGIN_ROUTE, false), false, false)
    else
      match page
      case Returned(r) => Decision(Page(r), true, false)
      case Threw(authTokenError) =>
        if authTokenError then Decision(Redirect(LOGIN_ROUTE, false), true, true)
        else Decision(Undefined, true, false)
  }

  /** `withSSRAuth(fn)(ctx)`: applies the decision to the request's cookie store. */
  method WithSSRAuth<R>(ctx: RequestContext, page: PageOutcome<R>) returns (result: GuardResult<R>)
    modifies ctx
    ensures result == Decide(old(ctx.cookies), page).result
    ensures Decide(old(ctx.cookies), page).destroysCookies ==>
              ctx.cookies == SignedOut(old(ctx.cookies))
    ensures !Decide(old(ctx.cookies), page).destroysCookies ==> ctx.cookies == old(ctx.cookies)
  {
    var token := Read(ctx.cookies, TOKEN_COOKIE);
    if !Truthy(token) {
      return Redirect(LOGIN_ROUTE, false);
    }
    match page {
      case Returned(r) =>
        return Page(r);
      case Threw(authTokenError) =>
        if authTokenError {
          ctx.cookies := DestroyCookie(ctx.cookies, TOKEN_COOKIE);
          ctx.cookies := DestroyCookie(ctx.cookies, REFRESH_COOKIE);
          return Redirect(LOGIN_ROUTE, false);
        }
        return Undefined;
    }
  }
}
