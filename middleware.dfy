/**
 * The session gate (`src/middleware.js`): runs before the landing page and the dashboard,
 * reads the `token` cookie, verifies it with the `JWT_TOKEN` secret, and either redirects
 * or lets the request through, attaching the caller's identity as response headers.
 */
module SessionGate {
  import opened Wrappers
  import opened JsValues
  import opened Session

  /** `NextResponse.redirect(new URL(location, request.url))` or `NextResponse.next()` with the headers set on it. */
  datatype Decision = Redirect(location: string) | Next(headers: map<string, string>)

  predicate StartsWith(s: string, prefix: string) {
    |prefix| <= |s| && s[..|prefix|] == prefix
  }

  /** `pathname.startsWith("/dashboard")`: the gate's notion of a protected path. */
  predicate Protected(pathname: string) {
    StartsWith(pathname, "/dashboard")
  }

  /**
   * The two `headers.set` calls on the pass-through response: `x-user-id` from `payload.userID`,
   * then `x-user-username` from `payload.username`. None when either call throws.
   */
  function IdentityHeaders(payload: Json): (h: Option<map<string, string>>)
    ensures h.Some? <==> HeaderValue(UserId(payload)).Some? && HeaderValue(Username(payload)).Some?
    ensures h.Some? ==> h.value.Keys == {"x-user-id", "x-user-username"}
    ensures h.Some? ==> Some(h.value["x-user-id"]) == HeaderValue(UserId(payload))
    ensures h.Some? ==> Some(h.value["x-user-username"]) == HeaderValue(Username(payload))
  {
    match HeaderValue(UserId(payload))
    case None => None
    case Some(id) =>
      match HeaderValue(Username(payload))
      case None => None
      case Some(name) => Some(map["x-user-id" := id, "x-user-username" := name])
  }

  /** The verified-session part of the gate, reached only with a non-empty cookie and a configured secret. */
  function VerifiedDecision(outcome: VerifyOutcome, pathname: string): (d: Decision)
    ensures d.Redirect? ==> d.location == "/" || (d.location == "/dashboard" && pathname == "/")
    ensures d.Next? <==>
              outcome.Verified? && Truthy(outcome.payload) && IdentityHeaders(outcome.payload).Some? && pathname != "/"
    ensures d.Next? ==> Some(d.headers) == IdentityHeaders(outcome.payload) && d.headers != map[]
  {
    match outcome
    case Failed => Redirect("/")
    case Verified(payload) =>
      if !Truthy(payload) then Redirect("/")
      else
        match IdentityHeaders(payload)
        case None => Redirect("/")
        case Some(headers) => if pathname == "/" then Redirect("/dashboard") else Next(headers)
  }

  /**
   * `middleware(request)`: `cookie` is the `token` cookie's value when the cookie exists,
   * `secret` is `process.env.JWT_TOKEN`, `verify` stands for `jwtVerify`.
   */
  function Middleware(cookie: Option<string>, secret: Option<string>, verify: Verifier, pathname: string): (d: Decision)
    // the only redirect targets are the landing page and the dashboard, and the dashboard only from the landing page
    ensures d.Redirect? ==> d.location == "/" || (d.location == "/dashboard" && pathname == "/")
    // the dashboard redirect and identity headers both require a verified, truthy payload
    ensures d == Redirect("/dashboard") || (d.Next? && d.headers != map[]) <==>
              cookie.Some? && cookie.value != "" && SecretConfigured(secret)
              && verify(cookie.value, secret.value).Verified?
              && Truthy(verify(cookie.value, secret.value).payload)
              && IdentityHeaders(verify(cookie.value, secret.value).payload).Some?
    ensures d.Next? && d.headers != map[] ==>
              pathname != "/" && Some(d.headers) == IdentityHeaders(verify(cookie.value, secret.value).payload)
    // a token with a value never passes bare: every failure to establish the identity redirects
    ensures cookie.Some? && cookie.value != "" ==> d.Redirect? || d.headers != map[]
    // a protected path is never reached without a cookie
    ensures cookie.None? && Protected(pathname) ==> d == Redirect("/")
  {
    if cookie.Some? && cookie.value != "" then
      if !SecretConfigured(secret) then Redirect("/")
      else VerifiedDecision(verify(cookie.value, secret.value), pathname)
    else if Protected(pathname) then
      if cookie.None? then Redirect("/") else Next(map[])
    else Next(map[])
  }

  /** `config.matcher: ["/dashboard/:path*", "/"]`: the paths the gate runs on at all. */
  predicate Matches(pathname: string) {
    pathname == "/" || pathname == "/dashboard" || StartsWith(pathname, "/dashboard/")
  }

  /** The framework runs the gate only on matched paths; any other request passes through untouched. */
  function Gate(cookie: Option<string>, secret: Option<string>, verify: Verifier, pathname: string): (d: Decision)
    ensures !Matches(pathname) ==> d == Next(map[])
    ensures Matches(pathname) ==> d == Middleware(cookie, secret, verify, pathname)
    // every matched page other than the landing page needs a cookie
    ensures Matches(pathname) && pathname != "/" && cookie.None? ==> d == Redirect("/")
  {
    if Matches(pathname) then
      MatchedPathsAreLandingOrProtected(pathname);
      Middleware(cookie, secret, verify, pathname)
    else Next(map[])
  }

  /**
   * A non-empty cookie that cannot be verified, or any non-empty cookie while `JWT_TOKEN` is
   * unset, sends a request for `/` back to `/`. The matcher runs the gate on `/` again, so the
   * landing page redirects to itself and never loads until the cookie is removed.
   */
  lemma StaleCookieRedirectsLandingToItself(token: string, secret: Option<string>, verify: Verifier)
    requires token != ""
    requires !SecretConfigured(secret) || verify(token, secret.value) == Failed
    ensures Matches("/")
    ensures Gate(Some(token), secret, verify, "/") == Redirect("/")
  {
  }

  /** Every matched path is the landing page or a protected path. */
  lemma MatchedPathsAreLandingOrProtected(pathname: string)
    requires Matches(pathname)
    ensures pathname == "/" || Protected(pathname)
  {
    if pathname != "/" && pathname != "/dashboard" {
      assert pathname[..10] == pathname[..11][..10];
    }
  }

  /** A non-empty token with no secret configured is sent to `/` on every path, and the verifier is never consulted. */
  lemma NoSecretRedirectsHome(token: string, secret: Option<string>, v1: Verifier, v2: Verifier, pathname: string)
    requires token != "" && !SecretConfigured(secret)
    ensures Middleware(Some(token), secret, v1, pathname) == Redirect("/")
    ensures Middleware(Some(token), secret, v1, pathname) == Middleware(Some(token), secret, v2, pathname)
  {
  }

  /** A token whose verification throws is sent to `/`, whatever the path. */
  lemma FailedVerificationRedirectsHome(token: string, secret: Option<string>, verify: Verifier, pathname: string)
    requires token != "" && SecretConfigured(secret) && verify(token, secret.value) == Failed
    ensures Middleware(Some(token), secret, verify, pathname) == Redirect("/")
  {
  }

  /** A verified but falsy payload (`null`, `false`, `0`, `""`) is sent to `/`, whatever the path. */
  lemma FalsyPayloadRedirectsHome(token: string, secret: Option<string>, verify: Verifier, pathname: string)
    requires token != "" && SecretConfigured(secret)
    requires verify(token, secret.value).Verified? && !Truthy(verify(token, secret.value).payload)
    ensures Middleware(Some(token), secret, verify, pathname) == Redirect("/")
  {
  }

  /** A truthy payload whose claims cannot both be set as headers makes `headers.set` throw: the request is sent to `/`. */
  lemma UnsettableHeadersRedirectHome(token: string, secret: Option<string>, verify: Verifier, pathname: string)
    requires token != "" && SecretConfigured(secret)
    requires verify(token, secret.value).Verified? && Truthy(verify(token, secret.value).payload)
    requires HeaderValue(UserId(verify(token, secret.value).payload)).None?
             || HeaderValue(Username(verify(token, secret.value).payload)).None?
    ensures Middleware(Some(token), secret, verify, pathname) == Redirect("/")
  {
  }

  /** A verified token on the landing page is sent to the dashboard, provided its claims can be set as headers. */
  lemma VerifiedLandingGoesToDashboard(token: string, secret: Option<string>, verify: Verifier)
    requires token != "" && SecretConfigured(secret)
    requires verify(token, secret.value).Verified?
    requires Truthy(verify(token, secret.value).payload)
    requires IdentityHeaders(verify(token, secret.value).payload).Some?
    ensures Middleware(Some(token), secret, verify, "/") == Redirect("/dashboard")
  {
  }

  /** A verified token on any other path passes through carrying `x-user-id` and `x-user-username`. */
  lemma VerifiedPassesWithIdentity(token: string, secret: Option<string>, verify: Verifier, pathname: string, id: string, name: string)
    requires token != "" && SecretConfigured(secret) && pathname != "/"
    requires verify(token, secret.value).Verified?
    requires Truthy(verify(token, secret.value).payload)
    requires HeaderValue(UserId(verify(token, secret.value).payload)) == Some(id)
    requires HeaderValue(Username(verify(token, secret.value).payload)) == Some(name)
    ensures Middleware(Some(token), secret, verify, pathname) == Next(map["x-user-id" := id, "x-user-username" := name])
  {
  }

  /**
   * The gate checks only that the payload is truthy, not that it carries `userID`: a payload
   * without the claim still passes, with `x-user-id` set to the text "undefined".
   */
  lemma PayloadWithoutUserIdPasses(token: string, secret: Option<string>, verify: Verifier)
    requires token != "" && SecretConfigured(secret)
    requires verify(token, secret.value) == Verified(Obj(map["username" := Str("ann")]))
    ensures Middleware(Some(token), secret, verify, "/dashboard") == Next(map["x-user-id" := "undefined", "x-user-username" := "ann"])
  {
    PlainHeaderValue("undefined");
    PlainHeaderValue("ann");
  }

  /**
   * A verified payload whose username holds a line break between other characters, such as
   * `a\nb`, cannot be attached as a header, so the request is sent to `/`. A line break at
   * either end is stripped instead (`JsValues.EdgeLineBreakStripped`).
   */
  lemma UnsettableClaimRedirectsHome(token: string, secret: Option<string>, verify: Verifier, pathname: string)
    requires token != "" && SecretConfigured(secret)
    requires verify(token, secret.value) == Verified(Obj(map["userID" := Num(7), "username" := Str("a\nb")]))
    ensures Middleware(Some(token), secret, verify, pathname) == Redirect("/")
  {
    InteriorLineBreakRejected("a", "b");
    assert "a" + "\n" + "b" == "a\nb";
  }

  /** Without a cookie, every path beginning with `/dashboard` is sent to `/`. */
  lemma NoCookieProtectedRedirects(secret: Option<string>, verify: Verifier, pathname: string)
    requires Protected(pathname)
    ensures Middleware(None, secret, verify, pathname) == Redirect("/")
  {
  }

  /**
   * A `token` cookie with an empty value skips verification altogether; on a protected path
   * it passes through, because only the cookie's existence is tested there.
   */
  lemma EmptyCookieSkipsVerification(secret: Option<string>, v1: Verifier, v2: Verifier, pathname: string)
    ensures Middleware(Some(""), secret, v1, pathname) == Middleware(Some(""), secret, v2, pathname)
    ensures Middleware(Some(""), secret, v1, pathname) == Next(map[])
  {
  }

  /** Without a cookie the landing page, and every unprotected path, passes through without headers. */
  lemma NoCookieUnprotectedPasses(secret: Option<string>, verify: Verifier, pathname: string)
    requires !Protected(pathname)
    ensures Middleware(None, secret, verify, pathname) == Next(map[])
  {
  }

  /**
   * `startsWith("/dashboard")` also covers `/dashboard-old`, but the matcher keeps the gate from
   * running there, so such a path is served without a session.
   */
  lemma MatcherNarrowsProtectedPrefix(secret: Option<string>, verify: Verifier)
    ensures Protected("/dashboard-old")
    ensures Middleware(None, secret, verify, "/dashboard-old") == Redirect("/")
    ensures Gate(None, secret, verify, "/dashboard-old") == Next(map[])
  {
    assert "/dashboard-old"[..10] == "/dashboard";
    assert "/dashboard-old"[10] != "/dashboard/"[10];
  }
}
