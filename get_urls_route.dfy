/**
 * `GET /api/get-urls` (`src/app/api/get-urls/route.js`): checks the session cookie, the
 * secret and the token's claims in that order, then asks the backend for the caller's
 * links at `/get-all-urls/<userID>`.
 */
module GetUrlsRoute {
  import opened Wrappers
  import opened JsValues
  import opened Session
  import opened Http

  /** The message for a backend answer that resolved with a status other than 200. */
  const FetchFailed := "Failed to fetch URLs"

  /** The message of the catch-all: a verification or backend call that threw. */
  const AuthOrFetchFailed := "Authentication or Fetching failed"

  /** `` `/get-all-urls/${payload.userID}` `` */
  function ListPath(userId: Json): (p: string)
    ensures |p| >= 14 && p[..14] == "/get-all-urls/" && p[14..] == JsString(userId)
  {
    "/get-all-urls/" + JsString(userId)
  }

  function FixedFailures(): set<Response> {
    {Failure(401, NoSession), Failure(500, SecretMissing), Failure(401, InvalidPayload),
     Failure(500, FetchFailed), Failure(500, AuthOrFetchFailed)}
  }

  /** The part of the handler after the token has been verified. */
  function Forward(payload: Json, backend: Backend): (x: Exchange)
    ensures x.sent.Some? <==> Identified(payload)
    ensures x.sent.Some? ==> x.sent.value == BackendGet(ListPath(UserId(payload)))
    ensures x.response.status == 200 <==> x.sent.Some? && backend(x.sent.value).Reply? && backend(x.sent.value).status == 200
    ensures x.response.status == 200 ==> x.response.body == backend(x.sent.value).data
    ensures x.response.status != 200 ==> x.response in FixedFailures()
  {
    if !Identified(payload) then Exchange(None, Failure(401, InvalidPayload))
    else
      var request := BackendGet(ListPath(UserId(payload)));
      match Axios(backend(request))
      case Rejected => Exchange(Some(request), Failure(500, AuthOrFetchFailed))
      case Resolved(status, data) =>
        if status != 200 then Exchange(Some(request), Failure(500, FetchFailed))
        else Exchange(Some(request), Response(200, data))
  }

  /** `GET(request)`, with the same inputs as the create handler less the body. */
  function GetUrls(cookie: Option<string>, secret: Option<string>, verify: Verifier, backend: Backend): (x: Exchange)
    ensures x.sent.Some? <==>
              cookie.Some? && SecretConfigured(secret)
              && verify(cookie.value, secret.value).Verified? && Identified(verify(cookie.value, secret.value).payload)
    ensures x.sent.Some? ==> x.sent.value == BackendGet(ListPath(UserId(verify(cookie.value, secret.value).payload)))
    ensures x.response.status == 200 <==> x.sent.Some? && backend(x.sent.value).Reply? && backend(x.sent.value).status == 200
    ensures x.response.status == 200 ==> x.response.body == backend(x.sent.value).data
    ensures x.response.status != 200 ==> x.response in FixedFailures()
  {
    if cookie.None? then Exchange(None, Failure(401, NoSession))
    else if !SecretConfigured(secret) then Exchange(None, Failure(500, SecretMissing))
    else
      match verify(cookie.value, secret.value)
      case Failed => Exchange(None, Failure(500, AuthOrFetchFailed))
      case Verified(payload) => Forward(payload, backend)
  }

  /** A missing cookie is a 401, whatever the secret. */
  lemma MissingCookie(secret: Option<string>, verify: Verifier, backend: Backend)
    ensures GetUrls(None, secret, verify, backend) == Exchange(None, Failure(401, NoSession))
  {
  }

  /** A missing secret is a 500, checked only once a cookie is present. */
  lemma MissingSecret(token: string, secret: Option<string>, verify: Verifier, backend: Backend)
    requires !SecretConfigured(secret)
    ensures GetUrls(Some(token), secret, verify, backend) == Exchange(None, Failure(500, SecretMissing))
  {
  }

  /** A verified payload without a truthy `userID` is a 401. */
  lemma PayloadWithoutUserId(token: string, secret: Option<string>, verify: Verifier, backend: Backend)
    requires SecretConfigured(secret)
    requires verify(token, secret.value).Verified? && !Identified(verify(token, secret.value).payload)
    ensures GetUrls(Some(token), secret, verify, backend) == Exchange(None, Failure(401, InvalidPayload))
  {
  }

  /** A token that fails verification lands in the catch-all. */
  lemma FailedVerification(token: string, secret: Option<string>, verify: Verifier, backend: Backend)
    requires SecretConfigured(secret) && verify(token, secret.value) == Failed
    ensures GetUrls(Some(token), secret, verify, backend) == Exchange(None, Failure(500, AuthOrFetchFailed))
  {
  }

  /**
   * The two backend failure messages are distinct, and which one the client sees depends on
   * axios: a 404 rejects and reaches the catch-all, while a 204 resolves and is refused as non-200.
   */
  lemma BackendFailureMessages(payload: Json, backend: Backend, data: Json)
    requires Identified(payload)
    ensures FetchFailed != AuthOrFetchFailed
    ensures backend(BackendGet(ListPath(UserId(payload)))) == Reply(404, data) ==>
              Forward(payload, backend).response == Failure(500, AuthOrFetchFailed)
    ensures backend(BackendGet(ListPath(UserId(payload)))) == Reply(204, data) ==>
              Forward(payload, backend).response == Failure(500, FetchFailed)
    ensures backend(BackendGet(ListPath(UserId(payload)))) == NetworkFault ==>
              Forward(payload, backend).response == Failure(500, AuthOrFetchFailed)
  {
  }

  /** A string user id is placed verbatim after `/get-all-urls/`. */
  lemma StringUserIdPath(payload: Json, id: string)
    requires UserId(payload) == Str(id)
    ensures ListPath(UserId(payload)) == "/get-all-urls/" + id
  {
  }
}
