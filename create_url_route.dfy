/**
 * `POST /api/create-url` (`src/app/api/create-url/route.js`): checks the body, the session
 * cookie, the secret and the token's claims in that order, then forwards the client's body
 * with the caller's `user_id` to the backend's `/create-short-url/`.
 */
module CreateUrlRoute {
  import opened Wrappers
  import opened JsValues
  import opened Session
  import opened Http

  /** The message of the route's catch-all and of a non-200 backend answer. */
  const CreateFailed := "Failed to create shortened URL"

  const CreatePath := "/create-short-url/"

  /** `{ ...jsonPayload, user_id: payload.userID }`: the client's fields, with `user_id` set last. */
  function BackendBody(client: Json, userId: Json): (b: Json)
    ensures b.Obj?
    ensures "user_id" in b.fields && b.fields["user_id"] == userId
    ensures forall k :: k != "user_id" ==> (k in b.fields <==> k in SpreadFields(client))
    ensures forall k :: k != "user_id" && k in b.fields ==> b.fields[k] == SpreadFields(client)[k]
  {
    Obj(SpreadFields(client)["user_id" := userId])
  }

  /** The responses this route can give other than relaying the backend's 200. */
  function FixedFailures(): set<Response> {
    {Failure(400, InvalidJson), Failure(401, NoSession), Failure(500, SecretMissing),
     Failure(401, InvalidPayload), Failure(500, CreateFailed)}
  }

  /** The part of the handler after the token has been verified. */
  function Forward(client: Json, payload: Json, backend: Backend): (x: Exchange)
    ensures x.sent.Some? <==> Identified(payload)
    ensures x.sent.Some? ==> x.sent.value == BackendPost(CreatePath, BackendBody(client, UserId(payload)))
    ensures x.response.status == 200 <==> x.sent.Some? && backend(x.sent.value).Reply? && backend(x.sent.value).status == 200
    ensures x.response.status == 200 ==> x.response.body == backend(x.sent.value).data
    ensures x.response.status != 200 ==> x.response in FixedFailures()
  {
    if !Identified(payload) then Exchange(None, Failure(401, InvalidPayload))
    else
      var request := BackendPost(CreatePath, BackendBody(client, UserId(payload)));
      match Axios(backend(request))
      case Rejected => Exchange(Some(request), Failure(500, CreateFailed))
      case Resolved(status, data) =>
        if status != 200 then Exchange(Some(request), Failure(500, CreateFailed))
        else Exchange(Some(request), Response(200, data))
  }

  /**
   * `POST(request)`: `body` is what `request.json()` did, `cookie` the `token` cookie's value
   * when the cookie exists, `secret` is `JWT_TOKEN`, `verify` stands for `jwtVerify` and
   * `backend` for the axios call. A throw anywhere lands in the catch-all 500.
   */
  function Post(body: ParsedBody, cookie: Option<string>, secret: Option<string>, verify: Verifier, backend: Backend): (x: Exchange)
    // no request reaches the backend without a truthy body, a cookie, a secret and a verified user id,
    // and the request carries exactly that user id
    ensures x.sent.Some? <==>
              body.Parsed? && Truthy(body.value) && cookie.Some? && SecretConfigured(secret)
              && verify(cookie.value, secret.value).Verified? && Identified(verify(cookie.value, secret.value).payload)
    ensures x.sent.Some? ==>
              x.sent.value == BackendPost(CreatePath, BackendBody(body.value, UserId(verify(cookie.value, secret.value).payload)))
    // success is exactly a 200 from the backend, relayed verbatim
    ensures x.response.status == 200 <==> x.sent.Some? && backend(x.sent.value).Reply? && backend(x.sent.value).status == 200
    ensures x.response.status == 200 ==> x.response.body == backend(x.sent.value).data
    // every other outcome is one of the fixed error bodies: the backend's own error never reaches the client
    ensures x.response.status != 200 ==> x.response in FixedFailures()
  {
    match body
    case Malformed => Exchange(None, Failure(500, CreateFailed))
    case Parsed(client) =>
      if !Truthy(client) then Exchange(None, Failure(400, InvalidJson))
      else if cookie.None? then Exchange(None, Failure(401, NoSession))
      else if !SecretConfigured(secret) then Exchange(None, Failure(500, SecretMissing))
      else
        match verify(cookie.value, secret.value)
        case Failed => Exchange(None, Failure(500, CreateFailed))
        case Verified(payload) => Forward(client, payload, backend)
  }

  /** A body that does not parse makes `request.json()` throw: the catch-all 500, not the 400. */
  lemma MalformedBodyIsServerError(cookie: Option<string>, secret: Option<string>, verify: Verifier, backend: Backend)
    ensures Post(Malformed, cookie, secret, verify, backend) == Exchange(None, Failure(500, CreateFailed))
  {
  }

  /** A falsy parsed body (`null`, `false`, `0`, `""`) is a 400, checked before the cookie. */
  lemma FalsyBodyRejectedFirst(client: Json, cookie: Option<string>, secret: Option<string>, verify: Verifier, backend: Backend)
    requires !Truthy(client)
    ensures Post(Parsed(client), cookie, secret, verify, backend) == Exchange(None, Failure(400, InvalidJson))
  {
  }

  /** A missing cookie is a 401, whatever the secret. */
  lemma MissingCookieBeforeSecret(client: Json, secret: Option<string>, verify: Verifier, backend: Backend)
    requires Truthy(client)
    ensures Post(Parsed(client), None, secret, verify, backend) == Exchange(None, Failure(401, NoSession))
  {
  }

  /** A missing secret is a 500, whatever the token. */
  lemma MissingSecret(client: Json, token: string, secret: Option<string>, v1: Verifier, v2: Verifier, backend: Backend)
    requires Truthy(client) && !SecretConfigured(secret)
    ensures Post(Parsed(client), Some(token), secret, v1, backend) == Exchange(None, Failure(500, SecretMissing))
    ensures Post(Parsed(client), Some(token), secret, v1, backend) == Post(Parsed(client), Some(token), secret, v2, backend)
  {
  }

  /** A verified payload without a truthy `userID` is a 401. */
  lemma PayloadWithoutUserId(client: Json, token: string, secret: Option<string>, verify: Verifier, backend: Backend)
    requires Truthy(client) && SecretConfigured(secret)
    requires verify(token, secret.value).Verified? && !Identified(verify(token, secret.value).payload)
    ensures Post(Parsed(client), Some(token), secret, verify, backend) == Exchange(None, Failure(401, InvalidPayload))
  {
  }

  /** A token that fails verification throws inside the handler: the catch-all 500, not a 401. */
  lemma FailedVerificationIsServerError(client: Json, token: string, secret: Option<string>, verify: Verifier, backend: Backend)
    requires Truthy(client) && SecretConfigured(secret) && verify(token, secret.value) == Failed
    ensures Post(Parsed(client), Some(token), secret, verify, backend) == Exchange(None, Failure(500, CreateFailed))
  {
  }

  /** The backend receives the client's object with `user_id` overridden by the token's claim, and nothing else changed. */
  lemma ClientUserIdOverridden(fields: map<string, Json>, forged: Json, userId: Json)
    requires "user_id" in fields && fields["user_id"] == forged
    ensures BackendBody(Obj(fields), userId) == Obj(fields["user_id" := userId])
  {
  }

  /** A backend error status rejects inside axios and any 2xx other than 200 is refused: both give the same 500. */
  lemma BackendFailureIsServerError(client: Json, payload: Json, backend: Backend)
    requires Identified(payload)
    requires var r := backend(BackendPost(CreatePath, BackendBody(client, UserId(payload))));
             r.NetworkFault? || r.status != 200
    ensures Forward(client, payload, backend).response == Failure(500, CreateFailed)
  {
  }
}
