/**
 * The module level of the session hooks (hooks/useAuth.tsx): `signOut`, which
 * deletes the `babi.*` cookies, tells the other tabs and goes to the login
 * page, the handler of the `auth` channel, and what `signIn` writes. The API
 * client's interceptor calls `signOut`, so it lives here; the `AuthProvider`
 * component, which itself calls the API client, is the module `AuthContext`.
 */
module Auth {
  import opened Wrappers
  import opened Env

  const TOKEN_COOKIE := "babi.token"
  const REFRESH_COOKIE := "babi.refreshToken"
  const LOGIN_ROUTE := "/admin"
  const ADMIN_ROUTE := "/painelAdm"
  const HOME_ROUTE := "/"
  const SIGN_OUT_MESSAGE := "signOut"

  datatype User = User(name: string, email: string, isAdmin: bool)

  /** What `POST sessions` answers. */
  datatype SessionResponse = SessionResponse(token: string, refreshToken: string, user: User)

  /** The cookie jar after `signOut`: both `babi.*` cookies deleted, every other cookie kept. */
  function SignedOut(jar: CookieJar): (after: CookieJar)
    ensures TOKEN_COOKIE !in after && REFRESH_COOKIE !in after
    ensures forall k :: k != TOKEN_COOKIE && k != REFRESH_COOKIE ==>
              (k in after <==> k in jar) && (k in after ==> after[k] == jar[k])
  {
    DestroyCookie(DestroyCookie(jar, TOKEN_COOKIE), REFRESH_COOKIE)
  }

  /** Signing out a second time finds nothing more to delete. */
  lemma SignedOutIdempotent(jar: CookieJar)
    ensures SignedOut(SignedOut(jar)) == SignedOut(jar)
  {
    assert SignedOut(SignedOut(jar)).Keys == SignedOut(jar).Keys;
  }

  /** `authChannel?.postMessage('signOut')`: one message when the channel exists, none otherwise. */
  function SignOutMessages(channelOpen: bool): (m: seq<string>)
    ensures channelOpen ==> m == [SIGN_OUT_MESSAGE]
    ensures !channelOpen ==> m == []
  {
    if channelOpen then [SIGN_OUT_MESSAGE] else []
  }

  /** The routes `signIn` pushes: the admin panel first for admins, then the home page. */
  function SignInRoutes(u: User): (routes: seq<string>)
    ensures |routes| > 0 && routes[|routes| - 1] == HOME_ROUTE
    ensures u.isAdmin <==> routes == [ADMIN_ROUTE, HOME_ROUTE]
    ensures !u.isAdmin <==> routes == [HOME_ROUTE]
  {
    (if u.isAdmin then [ADMIN_ROUTE] else []) + [HOME_ROUTE]
  }

  /** `signOut()`: delete both `babi.*` cookies, post `signOut` if the channel exists, go to `/admin`. */
  method SignOut(b: Browser)
    modifies b
    ensures b.cookies == SignedOut(old(b.cookies))
    ensures b.broadcasts == old(b.broadcasts) + SignOutMessages(old(b.channelOpen))
    ensures b.routes == old(b.routes) + [LOGIN_ROUTE]
    ensures b.channelOpen == old(b.channelOpen)
  {
    b.cookies := DestroyCookie(b.cookies, TOKEN_COOKIE);
    b.cookies := DestroyCookie(b.cookies, REFRESH_COOKIE);
    if b.channelOpen {
      b.broadcasts := b.broadcasts + [SIGN_OUT_MESSAGE];
    }
    b.routes := b.routes + [LOGIN_ROUTE];
  }

  /** `authChannel.onmessage`: a `signOut` message sends this tab to `/admin`; anything else is ignored. */
  method OnChannelMessage(b: Browser, message: string)
    modifies b
    ensures b.routes == old(b.routes) + (if message == SIGN_OUT_MESSAGE then [LOGIN_ROUTE] else [])
    ensures b.cookies == old(b.cookies) && b.broadcasts == old(b.broadcasts) && b.channelOpen == old(b.channelOpen)
  {
    if message == SIGN_OUT_MESSAGE {
      b.routes := b.routes + [LOGIN_ROUTE];
    }
  }

  /** After `signIn` both `babi.*` cookies hold the response's tokens for thirty days, and nothing else changed. */
  lemma SignInCookies(jar: CookieJar, r: SessionResponse)
    ensures var after := SetCookie(SetCookie(jar, TOKEN_COOKIE, r.token), REFRESH_COOKIE, r.refreshToken);
            after[TOKEN_COOKIE] == Cookie(r.token, THIRTY_DAYS) &&
            after[REFRESH_COOKIE] == Cookie(r.refreshToken, THIRTY_DAYS) &&
            forall k :: k != TOKEN_COOKIE && k != REFRESH_COOKIE && k in jar ==> k in after && after[k] == jar[k]
  {
  }
}
