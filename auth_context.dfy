/** The authentication context as the source runs it: a cookie store and a
    router that live outside React, the standalone `signOut`, and the provider
    whose `user` state the restore effect and `signIn` update. */
module AuthContext {
  import opened Outcomes
  import opened Session

  /** The browser's cookie store, as nookies reads and writes it. */
  class CookieJar {
    var cookies: map<string, Cookie>

    constructor (initial: map<string, Cookie>)
      ensures cookies == initial
    {
      cookies := initial;
    }

    /** `parseCookies()[key]`: the value under `key`, if any. */
    function Get(key: string): (v: Option<string>)
      reads this
      ensures v.Some? <==> key in cookies
      ensures v.Some? ==> v.value == cookies[key].value
    {
      CookieValue(cookies, key)
    }

    /** `setCookie(undefined, key, value, {maxAge, path})`: writes or overwrites `key`. */
    method Set(key: string, value: string, maxAge: int, path: string)
      modifies this
      ensures cookies == old(cookies)[key := Cookie(value, maxAge, path)]
    {
      cookies := cookies[key := Cookie(value, maxAge, path)];
    }

    /** `destroyCookie(undefined, key)`: removes `key`; removing an absent key is a no-op. */
    method Destroy(key: string)
      modifies this
      ensures cookies == old(cookies) - {key}
    {
      cookies := cookies - {key};
    }
  }

  /** The router, reduced to the routes pushed to it, oldest first. */
  class Router {
    var pushed: seq<string>

    constructor ()
      ensures pushed == []
    {
      pushed := [];
    }

    /** `Router.push(route)`. */
    method Push(route: string)
      modifies this
      ensures pushed == old(pushed) + [route]
    {
      pushed := pushed + [route];
    }
  }

  /** `signOut`: it reaches only the cookie store and the router, never a provider's `user`. */
  method SignOut(jar: CookieJar, router: Router)
    modifies jar, router
    ensures jar.cookies == old(jar.cookies) - {TokenKey, RefreshTokenKey}
    ensures TokenKey !in jar.cookies && RefreshTokenKey !in jar.cookies
    ensures forall k :: !IsTokenKey(k) ==> SameCookie(jar.cookies, old(jar.cookies), k)
    ensures router.pushed == old(router.pushed) + ["/"]
    // whatever user a provider holds, the new state is the one `SignedOut` gives
    ensures forall u :: State(jar.cookies, u, router.pushed) == SignedOut(State(old(jar.cookies), u, old(router.pushed)))
  {
    jar.Destroy(TokenKey);
    jar.Destroy(RefreshTokenKey);
    router.Push(SignedOutRoute);
  }

  /** `AuthProvider`: the `user` state and the operations that set it. */
  class AuthProvider {
    const jar: CookieJar
    const router: Router
    var user: Option<User>

    /** `useState<User>()`: no user yet. */
    constructor (jar: CookieJar, router: Router)
      ensures this.jar == jar && this.router == router && user == None
    {
      this.jar := jar;
      this.router := router;
      user := None;
    }

    /** The whole state the operations act on. */
    function Snapshot(): State
      reads this, jar, router
    {
      State(jar.cookies, user, router.pushed)
    }

    /** `isAuthenticated = !!user`. */
    function IsAuthenticated(): (r: bool)
      reads this, jar, router
      ensures r <==> user.Some?
      ensures r == Session.IsAuthenticated(Snapshot())
    {
      user.Some?
    }

    /** The restore effect. `fetch` is the outcome `GET /me` would have;
        `fetched` says whether the call is made at all. */
    method Restore(fetch: Result<MeBody>) returns (fetched: bool)
      modifies this`user, jar, router
      ensures fetched == HasToken(old(Snapshot()))
      ensures Snapshot() == Restored(old(Snapshot()), fetch)
    {
      var token := jar.Get(TokenKey);
      fetched := Truthy(token);
      if fetched {
        match fetch
        case Ok(body) =>
          user := Some(User(body.email, body.permissions, body.roles));
        case Err =>
          SignOut(jar, router);
      }
    }

    /** `signIn`. `exchange` is the outcome `POST sessions` would have; a
        failure is only logged. */
    method SignIn(credentials: Credentials, exchange: Result<SessionsBody>)
      modifies this`user, jar, router
      ensures Snapshot() == SignedIn(old(Snapshot()), credentials, exchange)
    {
      match exchange
      case Err =>
      case Ok(body) =>
        jar.Set(TokenKey, body.token, CookieMaxAge, CookiePath);
        jar.Set(RefreshTokenKey, body.refreshToken, CookieMaxAge, CookiePath);
        user := Some(User(credentials.email, body.permissions, body.roles));
        router.Push(DashboardRoute);
        assert jar.cookies == old(jar.cookies)[TokenKey := Cookie(body.token, CookieMaxAge, CookiePath)]
                                              [RefreshTokenKey := Cookie(body.refreshToken, CookieMaxAge, CookiePath)];
    }
  }
}
