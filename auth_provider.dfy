/**
 * The `AuthProvider` component of the session hooks (hooks/useAuth.tsx): the
 * `user` state, the two mount effects and `signIn`. It calls the API client
 * `api` of services/apiClient, taken here to be a session client with the
 * interceptor of `Api.SessionClient`: a failed request passes through that
 * interceptor before the hook's own `await` or `.catch` sees it.
 */
module AuthContext {
  import opened Wrappers
  import opened Env
  import opened Auth
  import Api

  /** The `user` state: the empty object `{}` at first, then a user. */
  datatype UserState = EmptyUser | Known(user: User)

  /** The calls this provider makes through the API client. */
  datatype ApiCall = PostSessions(username: string, password: string) | GetMe

  /** Where the promise of `signIn` stands once `POST sessions` has answered. */
  datatype SignInPromise = Resolved | Pending | RejectedWith(cause: Api.Cause)

  /** The `AuthProvider` component's state and effects. */
  class AuthProvider {
    /** The API client; its `browser` is the browser and its `defaults` are `api.defaults.headers`. */
    const api: Api.SessionClient
    var user: UserState
    var calls: seq<ApiCall>

    constructor (api: Api.SessionClient)
      ensures this.api == api
      ensures user == EmptyUser && calls == []
    {
      this.api := api;
      user := EmptyUser;
      calls := [];
    }

    /** `!!user`: any object is truthy, the initial `{}` included. */
    function IsAuthenticated(): (r: bool)
      reads this
      ensures r
    {
      match user
      case EmptyUser => true
      case Known(_) => true
    }

    /** The first mount effect: create the `auth` channel. */
    method OpenChannel()
      modifies api.browser
      ensures api.browser.channelOpen
      ensures api.browser.cookies == old(api.browser.cookies) && api.browser.routes == old(api.browser.routes)
      ensures api.browser.broadcasts == old(api.browser.broadcasts)
    {
      api.browser.channelOpen := true;
    }

    /**
     * The second mount effect: with a `babi.token` cookie, ask `sellers/me`,
     * whose answer is `me`. A failure passes through the interceptor, and
     * unless it stalls there behind a refresh, the `.catch` signs out.
     * Without the cookie no request is made.
     */
    method LoadSession(me: Result<User, Api.HttpError>)
      requires api.Valid()
      modifies this, api, api.browser
      ensures api.Valid()
      ensures api.settled == old(api.settled) && api.browser.channelOpen == old(api.browser.channelOpen)
      ensures !Truthy(Read(old(api.browser.cookies), TOKEN_COOKIE)) ==>
                calls == old(calls) && user == old(user) && unchanged(api) && unchanged(api.browser)
      ensures Truthy(Read(old(api.browser.cookies), TOKEN_COOKIE)) ==>
                calls == old(calls) + [GetMe]
      ensures Truthy(Read(old(api.browser.cookies), TOKEN_COOKIE)) && me.Success? ==>
                user == Known(me.value) && unchanged(api) && unchanged(api.browser)
      ensures Truthy(Read(old(api.browser.cookies), TOKEN_COOKIE)) && me.Failure? ==>
                user == old(user)
      ensures Truthy(Read(old(api.browser.cookies), TOKEN_COOKIE)) && me.Failure? &&
              Api.Classify(me.error) == Api.ExpiredToken ==>
                && api.isRefreshing
                && api.failedRequestsQueue == old(api.failedRequestsQueue) + [Api.Continuation(me.error)]
                && api.refreshPosts == old(api.refreshPosts)
                     + (if old(api.isRefreshing) then [] else [Read(old(api.browser.cookies), Api.SNAP_REFRESH_COOKIE)])
                && unchanged(api.browser)
      ensures Truthy(Read(old(api.browser.cookies), TOKEN_COOKIE)) && me.Failure? &&
              Api.Classify(me.error) != Api.ExpiredToken ==>
                && api.isRefreshing == old(api.isRefreshing)
                && api.failedRequestsQueue == old(api.failedRequestsQueue)
                && api.refreshPosts == old(api.refreshPosts)
                && api.browser.cookies == SignedOut(old(api.browser.cookies))
      ensures Truthy(Read(old(api.browser.cookies), TOKEN_COOKIE)) && me.Failure? &&
              Api.Classify(me.error) == Api.BadRequest ==>
                && api.browser.routes == old(api.browser.routes) + [LOGIN_ROUTE]
                && api.browser.broadcasts == old(api.browser.broadcasts) + SignOutMessages(old(api.browser.channelOpen))
      ensures Truthy(Read(old(api.browser.cookies), TOKEN_COOKIE)) && me.Failure? &&
              Api.Classify(me.error) == Api.OtherError ==>
                && api.browser.routes == old(api.browser.routes) + [LOGIN_ROUTE, LOGIN_ROUTE]
                && api.browser.broadcasts == old(api.browser.broadcasts)
                     + SignOutMessages(old(api.browser.channelOpen)) + SignOutMessages(old(api.browser.channelOpen))
    {
      var token := Read(api.browser.cookies, TOKEN_COOKIE);
      if Truthy(token) {
        calls := calls + [GetMe];
        match me {
          case Success(u) =>
            user := Known(u);
          case Failure(e) =>
            SignedOutIdempotent(api.browser.cookies);
            var reply := api.OnError(e);
            if reply.Reject? {
              SignOut(api.browser);
            }
        }
      }
    }

    /**
     * `signIn`: `response` is the answer of `POST sessions`. A failure passes
     * through the interceptor, and the promise of `signIn` stalls or rejects
     * as the interceptor's does, before any cookie, user or header is written.
     */
    method SignIn(username: string, password: string, response: Result<SessionResponse, Api.HttpError>)
      returns (promise: SignInPromise)
      requires api.Valid()
      modifies this, api, api.browser, api.defaults
      ensures api.Valid()
      ensures calls == old(calls) + [PostSessions(username, password)]
      ensures api.settled == old(api.settled) && api.browser.channelOpen == old(api.browser.channelOpen)
      ensures response.Success? ==>
                var r := response.value;
                && promise == Resolved
                && api.browser.cookies == SetCookie(SetCookie(old(api.browser.cookies), TOKEN_COOKIE, r.token), REFRESH_COOKIE, r.refreshToken)
                && user == Known(r.user)
                && api.defaults.authorization == Bearer(r.token)
                && api.browser.routes == old(api.browser.routes) + SignInRoutes(r.user)
                && api.browser.broadcasts == old(api.browser.broadcasts)
                && api.isRefreshing == old(api.isRefreshing)
                && api.failedRequestsQueue == old(api.failedRequestsQueue)
                && api.refreshPosts == old(api.refreshPosts)
      ensures response.Failure? ==>
                user == old(user) && api.defaults.authorization == old(api.defaults.authorization)
      ensures response.Failure? && Api.Classify(response.error) == Api.ExpiredToken ==>
                && promise == Pending
                && api.isRefreshing
                && api.failedRequestsQueue == old(api.failedRequestsQueue) + [Api.Continuation(response.error)]
                && api.refreshPosts == old(api.refreshPosts)
                     + (if old(api.isRefreshing) then [] else [Read(old(api.browser.cookies), Api.SNAP_REFRESH_COOKIE)])
                && unchanged(api.browser)
      ensures response.Failure? && Api.Classify(response.error) != Api.ExpiredToken ==>
                && promise == RejectedWith(Api.Original(response.error))
                && api.isRefreshing == old(api.isRefreshing)
                && api.failedRequestsQueue == old(api.failedRequestsQueue)
                && api.refreshPosts == old(api.refreshPosts)
      ensures response.Failure? && Api.Classify(response.error) == Api.BadRequest ==>
                unchanged(api.browser)
      ensures response.Failure? && Api.Classify(response.error) == Api.OtherError ==>
                && api.browser.cookies == SignedOut(old(api.browser.cookies))
                && api.browser.routes == old(api.browser.routes) + [LOGIN_ROUTE]
                && api.browser.broadcasts == old(api.browser.broadcasts) + SignOutMessages(old(api.browser.channelOpen))
    {
      calls := calls + [PostSessions(username, password)];
      match response {
        case Failure(e) =>
          var reply := api.OnError(e);
          match reply {
            case Stalled => return Pending;
            case Reject(cause) => return RejectedWith(cause);
          }
        case Success(r) =>
          var browser := api.browser;
          browser.cookies := SetCookie(browser.cookies, TOKEN_COOKIE, r.token);
          browser.cookies := SetCookie(browser.cookies, REFRESH_COOKIE, r.refreshToken);
          user := Known(User(r.user.name, r.user.email, r.user.isAdmin));
          api.defaults.authorization := Bearer(r.token);
          if r.user.isAdmin {
            browser.routes := browser.routes + [ADMIN_ROUTE];
          }
          browser.routes := browser.routes + [HOME_ROUTE];
          return Resolved;
      }
    }
  }
}
