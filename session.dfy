/**
 * What the session gate and the two proxy handlers share: the signing secret read from
 * `JWT_TOKEN`, the outcome of verifying the `token` cookie, and the claims read from the
 * verified payload (`payload.userID`, `payload.username`).
 */
module Session {
  import opened Wrappers
  import opened JsValues

  /** `jwtVerify` either resolves with a payload or throws (bad signature, expiry, malformed token). */
  datatype VerifyOutcome = Verified(payload: Json) | Failed

  /**
   * `jwtVerify(token, new TextEncoder().encode(secret))`: signature checking is a library call,
   * so it is a parameter of every operation that uses it.
   */
  type Verifier = (string, string) -> VerifyOutcome

  /** `!jwtSecret` is false: the variable is set and not empty. */
  predicate SecretConfigured(secret: Option<string>) {
    secret.Some? && secret.value != ""
  }

  /** The claim both the gate and the handlers read as the user identifier. */
  function UserId(payload: Json): Json {
    Get(payload, "userID")
  }

  function Username(payload: Json): Json {
    Get(payload, "username")
  }

  /** The handlers' test `!payload || !payload.userID` fails: the payload names a user. */
  predicate Identified(payload: Json) {
    Truthy(payload) && Truthy(UserId(payload))
  }
}
