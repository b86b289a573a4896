/**
 * The session HTTP client (services/api.ts): an axios instance whose response
 * interceptor turns an expired-token 401 into one refresh call shared by every
 * request that fails while it is in flight. The stalled requests wait in a
 * queue of continuations, which the refresh outcome flushes in order.
 *
 * The asynchronous parts are explicit events: `OnError` is the interceptor
 * receiving a failed response; `OnRefreshSuccess` and `OnRefreshFailure` are
 * the refresh POST settling.
 */
module Api {
  import opened Wrappers
  import opened Env
  import Auth

  const SNAP_TOKEN_COOKIE := "snap.token"
  /** The cookie the refresh token is read from. */
  const SNAP_REFRESH_COOKIE := "snap.refreshToken"
  /** The cookie a successful refresh writes the new refresh token to. */
  const ZAYTECH_REFRESH_COOKIE := "zaytech.refreshToken"
  const EXPIRED_MESSAGE := "Invalid JWT token"

  /** A failed response: which request, its status and the `message` of its body. */
  datatype HttpError = HttpError(request: nat, status: int, message: Option<string>)

  datatype ErrorKind = ExpiredToken | BadRequest | OtherError

  /** The interceptor's three branches. */
  function Classify(e: HttpError): (k: ErrorKind)
    ensures k == ExpiredToken <==> e.status == 401 && e.message == Some(EXPIRED_MESSAGE)
    ensures k == BadRequest <==> e.status == 400
    ensures k == OtherError <==> e.status != 400 && !(e.status == 401 && e.message == Some(EXPIRED_MESSAGE))
  {
    if e.status == 401 && e.message == Some(EXPIRED_MESSAGE) then ExpiredToken
    else if e.status == 400 then BadRequest
    else OtherError
  }

  /** `typeof window`: "object" in a browser and "undefined" on the server, a non-empty string either way. */
  function TypeOfWindow(inBrowser: bool): (s: string)
    ensures s != ""
  {
    if inBrowser then "object" else "undefined"
  }

  /** Why a request's promise rejects. */
  datatype Cause = Original(error: HttpError) | AuthTokenError | RefreshFailed(error: HttpError)

  /** The interceptor's immediate answer: the request stalls behind the refresh, or rejects. */
  datatype Reply = Stalled | Reject(cause: Cause)

  /** The `{ onSuccess, onFailure }` pair queued for one stalled request. */
  datatype Continuation = Continuation(error: HttpError)

  /** How a stalled request ends once the refresh settles. */
  datatype Settlement = Replayed(request: nat, authorization: string) | Rejected(request: nat, cause: Cause)

  /** `queue.forEach(r => r.onSuccess(token))`: each request replays with the new header. */
  function Replays(queue: seq<Continuation>, token: string): (r: seq<Settlement>)
    ensures |r| == |queue|
    ensures forall i :: 0 <= i < |queue| ==> r[i] == Replayed(queue[i].error.request, Bearer(token))
    decreases |queue|
  {
    if |queue| == 0 then []
    else Replays(queue[..|queue| - 1], token) + [Replayed(queue[|queue| - 1].error.request, Bearer(token))]
  }

  /** `queue.forEach(r => r.onFailure(err))`: each request rejects with the refresh call's error. */
  function Rejections(queue: seq<Continuation>, err: HttpError): (r: seq<Settlement>)
    ensures |r| == |queue|
    ensures forall i :: 0 <= i < |queue| ==> r[i] == Rejected(queue[i].error.request, RefreshFailed(err))
    decreases |queue|
  {
    if |queue| == 0 then []
    else Rejections(queue[..|queue| - 1], err) + [Rejected(queue[|queue| - 1].error.request, RefreshFailed(err))]
  }

  /** The queue that `n` errors leave behind. */
  function Enqueued(errors: seq<HttpError>): (q: seq<Continuation>)
    ensures |q| == |errors|
    ensures forall i :: 0 <= i < |errors| ==> q[i] == Continuation(errors[i])
  {
    seq(|errors|, i requires 0 <= i < |errors| => Continuation(errors[i]))
  }

  /** One API instance together with the module's `isRefreshing` flag and request queue. */
  class SessionClient {
    const browser: Browser
    /** `api.defaults.headers` */
    const defaults: Headers
    /** Whether the client runs in a browser (`window` defined). */
    const inBrowser: bool
    var isRefreshing: bool
    var failedRequestsQueue: seq<Continuation>
    /** Every `POST /sessions/refresh-token`, with the `refreshToken` it sent. */
    var refreshPosts: seq<Option<string>>
    /** Every stalled request that has settled, in settling order. */
    var settled: seq<Settlement>
    /** How many refresh calls have settled. */
    ghost var refreshesDone: nat

    /** At most one refresh is in flight, and requests wait only while one is. */
    ghost predicate Valid()
      reads this
    {
      && (failedRequestsQueue != [] ==> isRefreshing)
      && |refreshPosts| == refreshesDone + (if isRefreshing then 1 else 0)
    }

    /** `setupAPIClient()`: the default header carries whatever `snap.token` holds, "undefined" included. */
    constructor (browser: Browser, inBrowser: bool)
      ensures Valid() && fresh(defaults)
      ensures this.browser == browser && this.inBrowser == inBrowser
      ensures defaults.authorization == BEARER_PREFIX + Interpolate(Read(browser.cookies, SNAP_TOKEN_COOKIE))
      ensures !isRefreshing && failedRequestsQueue == [] && refreshPosts == [] && settled == []
    {
      this.browser := browser;
      this.inBrowser := inBrowser;
      defaults := new Headers(BEARER_PREFIX + Interpolate(Read(browser.cookies, SNAP_TOKEN_COOKIE)));
      isRefreshing := false;
      failedRequestsQueue := [];
      refreshPosts := [];
      settled := [];
      refreshesDone := 0;
    }

    /** The error half of the response interceptor. */
    method OnError(e: HttpError) returns (reply: Reply)
      requires Valid()
      modifies this, browser
      ensures Valid()
      ensures settled == old(settled) && defaults.authorization == old(defaults.authorization)
      ensures Classify(e) == ExpiredToken ==>
                && reply == Stalled
                && isRefreshing
                && failedRequestsQueue == old(failedRequestsQueue) + [Continuation(e)]
                && refreshPosts == old(refreshPosts)
                     + (if old(isRefreshing) then [] else [Read(old(browser.cookies), SNAP_REFRESH_COOKIE)])
                && unchanged(browser)
      ensures Classify(e) == BadRequest ==>
                && reply == Reject(Original(e))
                && isRefreshing == old(isRefreshing) && failedRequestsQueue == old(failedRequestsQueue)
                && refreshPosts == old(refreshPosts)
                && unchanged(browser)
      ensures Classify(e) == OtherError ==>
                && reply == Reject(Original(e))
                && isRefreshing == old(isRefreshing) && failedRequestsQueue == old(failedRequestsQueue)
                && refreshPosts == old(refreshPosts)
                && browser.routes == old(browser.routes) + [Auth.LOGIN_ROUTE]
                && browser.cookies == Auth.SignedOut(old(browser.cookies))
                && browser.broadcasts == old(browser.broadcasts) + Auth.SignOutMessages(old(browser.channelOpen))
                && browser.channelOpen == old(browser.channelOpen)
    {
      if e.status == 401 {
        if e.message == Some(EXPIRED_MESSAGE) {
          var refreshToken := Read(browser.cookies, SNAP_REFRESH_COOKIE);
          if !isRefreshing {
            isRefreshing := true;
            refreshPosts := refreshPosts + [refreshToken];
          }
          failedRequestsQueue := failedRequestsQueue + [Continuation(e)];
          return Stalled;
        }
      }
      if e.status == 400 {
        return Reject(Original(e));
      }
      if TypeOfWindow(inBrowser) != "" {
        Auth.SignOut(browser);
      } else {
        return Reject(AuthTokenError);
      }
      return Reject(Original(e));
    }

    /** The refresh call answered `{ token, refreshToken }`. */
    method OnRefreshSuccess(token: string, refreshToken: string)
      requires Valid() && isRefreshing
      modifies this, browser, defaults
      ensures Valid()
      ensures !isRefreshing && failedRequestsQueue == []
      ensures settled == old(settled) + Replays(old(failedRequestsQueue), token)
      ensures browser.cookies == SetCookie(SetCookie(old(browser.cookies), SNAP_TOKEN_COOKIE, token), ZAYTECH_REFRESH_COOKIE, refreshToken)
      ensures Read(browser.cookies, SNAP_REFRESH_COOKIE) == Read(old(browser.cookies), SNAP_REFRESH_COOKIE)
      ensures defaults.authorization == Bearer(token)
      ensures refreshPosts == old(refreshPosts)
      ensures browser.routes == old(browser.routes) && browser.broadcasts == old(browser.broadcasts)
      ensures browser.channelOpen == old(browser.channelOpen)
    {
      browser.cookies := SetCookie(browser.cookies, SNAP_TOKEN_COOKIE, token);
      browser.cookies := SetCookie(browser.cookies, ZAYTECH_REFRESH_COOKIE, refreshToken);
      defaults.authorization := Bearer(token);
      var queue := failedRequestsQueue;
      var done := settled;
      var i := 0;
      while i < |queue|
        invariant 0 <= i <= |queue|
        invariant done == old(settled) + Replays(queue[..i], token)
      {
        assert queue[..i + 1][..i] == queue[..i];
        done := done + [Replayed(queue[i].error.request, Bearer(token))];
        i := i + 1;
      }
      assert queue[..i] == queue;
      settled := done;
      failedRequestsQueue := [];
      isRefreshing := false;
      refreshesDone := refreshesDone + 1;
    }

    /** `failedRequestsQueue.forEach(r => r.onFailure(err)); failedRequestsQueue = []`. */
    method RejectQueue(err: HttpError)
      modifies this
      ensures settled == old(settled) + Rejections(old(failedRequestsQueue), err) && failedRequestsQueue == []
      ensures isRefreshing == old(isRefreshing) && refreshPosts == old(refreshPosts)
      ensures refreshesDone == old(refreshesDone)
    {
      var queue := failedRequestsQueue;
      var done := settled;
      var i := 0;
      while i < |queue|
        invariant 0 <= i <= |queue|
        invariant done == old(settled) + Rejections(queue[..i], err)
      {
        assert queue[..i + 1][..i] == queue[..i];
        done := done + [Rejected(queue[i].error.request, RefreshFailed(err))];
        i := i + 1;
      }
      assert queue[..i] == queue;
      settled := done;
      failedRequestsQueue := [];
    }

    /**
     * The refresh call failed with `err`. The refresh POST goes through this
     * same interceptor before its `.catch` runs: an expired-token answer
     * stalls it behind itself, so the refresh never settles and every queued
     * request keeps waiting; a 400 reaches the `.catch` directly; any other
     * status signs out in the interceptor and then again in the `.catch`.
     */
    method OnRefreshFailure(err: HttpError)
      requires Valid() && isRefreshing
      modifies this, browser
      ensures Valid()
      ensures refreshPosts == old(refreshPosts) && defaults.authorization == old(defaults.authorization)
      ensures browser.channelOpen == old(browser.channelOpen)
      ensures Classify(err) == ExpiredToken ==>
                && isRefreshing
                && failedRequestsQueue == old(failedRequestsQueue) + [Continuation(err)]
                && settled == old(settled)
                && unchanged(browser)
      ensures Classify(err) != ExpiredToken ==>
                && !isRefreshing && failedRequestsQueue == []
                && settled == old(settled) + Rejections(old(failedRequestsQueue), err)
                && browser.cookies == Auth.SignedOut(old(browser.cookies))
      ensures Classify(err) == BadRequest ==>
                && browser.routes == old(browser.routes) + [Auth.LOGIN_ROUTE]
                && browser.broadcasts == old(browser.broadcasts) + Auth.SignOutMessages(old(browser.channelOpen))
      ensures Classify(err) == OtherError ==>
                && browser.routes == old(browser.routes) + [Auth.LOGIN_ROUTE, Auth.LOGIN_ROUTE]
                && browser.broadcasts == old(browser.broadcasts)
                     + Auth.SignOutMessages(old(browser.channelOpen)) + Auth.SignOutMessages(old(browser.channelOpen))
    {
      ghost var queue := failedRequestsQueue;
      var reply := OnError(err);
      if reply.Stalled? {
        return;
      }
      assert isRefreshing && failedRequestsQueue == queue && settled == old(settled);
      RejectQueue(err);
      assert settled == old(settled) + Rejections(queue, err);
      Auth.SignedOutIdempotent(old(browser.cookies));
      if TypeOfWindow(inBrowser) != "" {
        Auth.SignOut(browser);
      }
      isRefreshing := false;
      refreshesDone := refreshesDone + 1;
    }
  }

  datatype RefreshOutcome = Refreshed(token: string, refreshToken: string) | RefreshError(error: HttpError)

  /**
   * A storm of expired-token errors arriving while the client is idle, then the
   * refresh settling: one refresh call for all of them, and every request
   * settled, in arrival order, by that one outcome. A refresh that fails with
   * an expired token stalls behind itself and settles nothing.
   */
  method RefreshWindow(client: SessionClient, errors: seq<HttpError>, outcome: RefreshOutcome)
    requires client.Valid() && !client.isRefreshing && |errors| > 0
    requires forall i :: 0 <= i < |errors| ==> Classify(errors[i]) == ExpiredToken
    modifies client, client.browser, client.defaults
    ensures client.Valid()
    ensures client.refreshPosts == old(client.refreshPosts) + [Read(old(client.browser.cookies), SNAP_REFRESH_COOKIE)]
    ensures outcome.Refreshed? ==>
              !client.isRefreshing && client.failedRequestsQueue == [] &&
              client.settled == old(client.settled) + Replays(Enqueued(errors), outcome.token) &&
              client.browser.routes == old(client.browser.routes)
    ensures outcome.RefreshError? && Classify(outcome.error) != ExpiredToken ==>
              !client.isRefreshing && client.failedRequestsQueue == [] &&
              client.settled == old(client.settled) + Rejections(Enqueued(errors), outcome.error) &&
              client.browser.cookies == Auth.SignedOut(old(client.browser.cookies))
    ensures outcome.RefreshError? && Classify(outcome.error) == ExpiredToken ==>
              client.isRefreshing &&
              client.failedRequestsQueue == Enqueued(errors) + [Continuation(outcome.error)] &&
              client.settled == old(client.settled) &&
              client.browser.routes == old(client.browser.routes)
  {
    var i := 0;
    while i < |errors|
      invariant 0 <= i <= |errors|
      invariant client.Valid() && (i > 0 ==> client.isRefreshing) && (i == 0 ==> !client.isRefreshing)
      invariant client.failedRequestsQueue == Enqueued(errors[..i])
      invariant client.refreshPosts == old(client.refreshPosts)
                  + (if i == 0 then [] else [Read(old(client.browser.cookies), SNAP_REFRESH_COOKIE)])
      invariant client.settled == old(client.settled)
      invariant unchanged(client.browser)
    {
      var reply := client.OnError(errors[i]);
      assert errors[..i + 1] == errors[..i] + [errors[i]];
      i := i + 1;
    }
    assert errors[..i] == errors;
    match outcome {
      case Refreshed(token, refreshToken) => client.OnRefreshSuccess(token, refreshToken);
      case RefreshError(err) => client.OnRefreshFailure(err);
    }
  }
}
