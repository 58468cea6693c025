/** The session state of the authentication context as plain values, and the
    state each of its three operations leaves behind. */
module Session {
  import opened Outcomes

  /** Cookie key of the access token. */
  const TokenKey := "auth.token"
  /** Cookie key of the refresh token. */
  const RefreshTokenKey := "auth.refreshToken"
  /** Lifetime of both token cookies, in seconds: thirty days. */
  const CookieMaxAge := 60 * 60 * 24 * 30
  /** Path scope of both token cookies. */
  const CookiePath := "/"
  /** Route pushed by sign-out. */
  const SignedOutRoute := "/"
  /** Route pushed by a successful sign-in. */
  const DashboardRoute := "/dashboard"

  /** The authenticated principal (`User`). */
  datatype User = User(email: string, permissions: seq<string>, roles: seq<string>)

  /** What the sign-in form hands over (`SignInCredentials`). */
  datatype Credentials = Credentials(email: string, password: string)

  /** One entry of the cookie store: its value and the options it was written with. */
  datatype Cookie = Cookie(value: string, maxAge: int, path: string)

  /** The fields the restore effect reads from the body of `GET /me`. */
  datatype MeBody = MeBody(email: string, permissions: seq<string>, roles: seq<string>)

  /** The fields sign-in reads from the body of `POST sessions`; it carries no email. */
  datatype SessionsBody = SessionsBody(token: string, refreshToken: string,
                                       permissions: seq<string>, roles: seq<string>)

  /** Everything the three operations read or write: the cookie store, the
      in-memory `user` and the routes pushed to the router, oldest first. */
  datatype State = State(cookies: map<string, Cookie>, user: Option<User>, redirects: seq<string>)

  /** The value `parseCookies()` reports under `key`. */
  function CookieValue(cookies: map<string, Cookie>, key: string): (v: Option<string>)
    ensures v.Some? <==> key in cookies
    ensures key in cookies ==> v == Some(cookies[key].value)
  {
    if key in cookies then Some(cookies[key].value) else None
  }

  /** JavaScript truthiness of a `string | undefined`: only a non-empty string is truthy. */
  predicate Truthy(v: Option<string>)
    // the falsy values of that type are `undefined` and ""
    ensures Truthy(v) <==> v != None && v != Some("")
  {
    v.Some? && v.value != ""
  }

  /** The restore guard `if (token)`. */
  predicate HasToken(s: State)
    ensures HasToken(s) <==> TokenKey in s.cookies && |s.cookies[TokenKey].value| > 0
  {
    Truthy(CookieValue(s.cookies, TokenKey))
  }

  /** `isAuthenticated = !!user`: an object is always truthy, `undefined` never. */
  predicate IsAuthenticated(s: State)
    ensures IsAuthenticated(s) <==> s.user != None
  {
    s.user.Some?
  }

  /** Key `k` is present in both maps with the same cookie, or in neither. */
  predicate SameCookie(a: map<string, Cookie>, b: map<string, Cookie>, k: string)
  {
    (k in a <==> k in b) && (k in a ==> a[k] == b[k])
  }

  /** `k` is one of the two token cookie keys. */
  predicate IsTokenKey(k: string)
  {
    k == TokenKey || k == RefreshTokenKey
  }

  /** The identity the restore effect builds from `GET /me`. */
  function UserFromMe(body: MeBody): (u: User)
    ensures u.email == body.email && u.permissions == body.permissions && u.roles == body.roles
  {
    User(body.email, body.permissions, body.roles)
  }

  /** `signOut`: both token cookies destroyed, "/" pushed. It lives outside the
      provider and never calls `setUser`, so `user` is kept as it was. */
  function SignedOut(s: State): (r: State)
    ensures TokenKey !in r.cookies && RefreshTokenKey !in r.cookies
    ensures forall k :: !IsTokenKey(k) ==> SameCookie(r.cookies, s.cookies, k)
    ensures r.user == s.user
    ensures r.redirects == s.redirects + ["/"]
  {
    State(s.cookies - {TokenKey, RefreshTokenKey}, s.user, s.redirects + [SignedOutRoute])
  }

  /** The restore effect, given the outcome `fetch` that `GET /me` would have. */
  function Restored(s: State, fetch: Result<MeBody>): (r: State)
    // an absent or empty token: no call, nothing changes, whatever the server would say
    ensures !HasToken(s) ==> r == s
    // a token and a good answer: exactly the identity of the answer, nothing else touched
    ensures HasToken(s) && fetch.Ok? ==>
              && r.user == Some(User(fetch.value.email, fetch.value.permissions, fetch.value.roles))
              && r.cookies == s.cookies
              && r.redirects == s.redirects
    // a token and a failed call: the state a direct sign-out reaches
    ensures HasToken(s) && fetch.Err? ==> r == SignedOut(s)
  {
    if !HasToken(s) then s
    else match fetch
      case Ok(body) => s.(user := Some(UserFromMe(body)))
      case Err => SignedOut(s)
  }

  /** `signIn` with `credentials`, given the outcome `exchange` that
      `POST sessions` would have. */
  function SignedIn(s: State, credentials: Credentials, exchange: Result<SessionsBody>): (r: State)
    // a failed exchange is only logged
    ensures exchange.Err? ==> r == s
    ensures exchange.Ok? ==>
              && TokenKey in r.cookies && RefreshTokenKey in r.cookies
              && r.cookies[TokenKey] == Cookie(exchange.value.token, 2592000, "/")
              && r.cookies[RefreshTokenKey] == Cookie(exchange.value.refreshToken, 2592000, "/")
              && (forall k :: !IsTokenKey(k) ==> SameCookie(r.cookies, s.cookies, k))
    // the email is the one typed in; the response has none
    ensures exchange.Ok? ==>
              r.user == Some(User(credentials.email, exchange.value.permissions, exchange.value.roles))
    ensures exchange.Ok? ==> r.redirects == s.redirects + ["/dashboard"]
  {
    match exchange
    case Err => s
    case Ok(body) =>
      var written := s.cookies[TokenKey := Cookie(body.token, CookieMaxAge, CookiePath)]
                              [RefreshTokenKey := Cookie(body.refreshToken, CookieMaxAge, CookiePath)];
      State(written, Some(User(credentials.email, body.permissions, body.roles)),
            s.redirects + [DashboardRoute])
  }

  /** Signing out twice deletes nothing more than signing out once and keeps
      the same user; only the redirect log grows. */
  lemma SignOutIdempotent(s: State)
    ensures SignedOut(SignedOut(s)).cookies == SignedOut(s).cookies
    ensures SignedOut(SignedOut(s)).user == SignedOut(s).user
    ensures SignedOut(SignedOut(s)).redirects == SignedOut(s).redirects + ["/"]
  {
  }

  /** After a sign-out the restore guard fails, so a restore makes no call. */
  lemma RestoreAfterSignOutIsInert(s: State, fetch: Result<MeBody>)
    ensures !HasToken(SignedOut(s))
    ensures Restored(SignedOut(s), fetch) == SignedOut(s)
  {
  }

  /** Signing in and then restoring in a fresh page (same cookies, no user,
      no routes yet), with `GET /me` answering with the sign-in's identity,
      reaches the identity sign-in set, unless the server handed out an empty
      token, which the restore guard treats as no token. */
  lemma SignInThenRestore(s: State, credentials: Credentials, body: SessionsBody)
    ensures var signedIn := SignedIn(s, credentials, Ok(body));
            var reloaded := State(signedIn.cookies, None, []);
            var me := MeBody(credentials.email, body.permissions, body.roles);
            && (body.token != "" ==> Restored(reloaded, Ok(me)).user == signedIn.user)
            && (body.token == "" ==> Restored(reloaded, Ok(me)).user == None)
  {
  }
}
