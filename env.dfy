/**
 * The browser-side effects the dashboard's session code works through: the
 * cookie store (`nookies`), the router's navigation history, the `auth`
 * broadcast channel, and the axios instance's default headers. Navigation and
 * broadcasts are append-only logs; cookies are a map from name to entry.
 */
module Env {
  import opened Wrappers

  /** `maxAge` of every cookie the dashboard writes: thirty days, in seconds. */
  const THIRTY_DAYS: nat := 60 * 60 * 24 * 30

  datatype Cookie = Cookie(value: string, maxAge: nat)

  type CookieJar = map<string, Cookie>

  /** `parseCookies()[name]`: the value, or `undefined`. */
  function Read(jar: CookieJar, name: string): (r: Option<string>)
    ensures r.Some? <==> name in jar
    ensures r.Some? ==> r.value == jar[name].value
  {
    if name in jar then Some(jar[name].value) else None
  }

  /** JavaScript truthiness of an optional string: defined and not empty. */
  predicate Truthy(s: Option<string>)
  {
    s.Some? && s.value != ""
  }

  /** `setCookie(ctx, name, value, { maxAge: 60 * 60 * 24 * 30, path: '/' })`. */
  function SetCookie(jar: CookieJar, name: string, value: string): (r: CookieJar)
    ensures Read(r, name) == Some(value) && r[name].maxAge == THIRTY_DAYS
    ensures forall k :: k != name ==> (k in r <==> k in jar)
    ensures forall k :: k != name && k in jar ==> r[k] == jar[k]
  {
    jar[name := Cookie(value, THIRTY_DAYS)]
  }

  /** `destroyCookie(ctx, name)`. */
  function DestroyCookie(jar: CookieJar, name: string): (r: CookieJar)
    ensures name !in r
    ensures forall k :: k != name ==> (k in r <==> k in jar)
    ensures forall k :: k != name && k in jar ==> r[k] == jar[k]
  {
    jar - {name}
  }

  const BEARER_PREFIX := "Bearer "

  /** The `Authorization` value of the Bearer scheme (section 2.1 of RFC 6750). */
  function Bearer(token: string): (h: string)
    ensures |h| == |BEARER_PREFIX| + |token|
    ensures h[..|BEARER_PREFIX|] == BEARER_PREFIX && h[|BEARER_PREFIX|..] == token
  {
    BEARER_PREFIX + token
  }

  /** `${x}` in a template literal: an undefined value prints as "undefined". */
  function Interpolate(x: Option<string>): (s: string)
    ensures x.Some? ==> s == x.value
    ensures x.None? ==> s == "undefined"
  {
    x.GetOr("undefined")
  }

  /** The browser: cookies, router history, and the `auth` broadcast channel. */
  class Browser {
    var cookies: CookieJar
    /** Every `Router.push`, in order. */
    var routes: seq<string>
    /** Whether the module-level `authChannel` has been assigned. */
    var channelOpen: bool
    /** Every message posted on the `auth` channel, in order. */
    var broadcasts: seq<string>

    constructor (cookies: CookieJar)
      ensures this.cookies == cookies && routes == [] && !channelOpen && broadcasts == []
    {
      this.cookies := cookies;
      routes := [];
      channelOpen := false;
      broadcasts := [];
    }
  }

  /** `api.defaults.headers`: the `Authorization` header every new request carries. */
  class Headers {
    var authorization: string

    constructor (authorization: string)
      ensures this.authorization == authorization
    {
      this.authorization := authorization;
    }
  }

  /** A server-rendering request's cookie store (`ctx` of `getServerSideProps`). */
  class RequestContext {
    var cookies: CookieJar

    constructor (cookies: CookieJar)
      ensures this.cookies == cookies
    {
      this.cookies := cookies;
    }
  }
}
