/**
 * The HTTP side of the proxy handlers: the JSON responses they return, the request they
 * send to the URL-shortening backend, and how the axios client settles the backend's reply.
 */
module Http {
  import opened Wrappers
  import opened JsValues

  /** `NextResponse.json(body, { status })`. */
  datatype Response = Response(status: int, body: Json)

  /** The `{ error: message }` body every failure response carries. */
  function ErrorBody(message: string): Json {
    Obj(map["error" := Str(message)])
  }

  function Failure(status: int, message: string): (r: Response)
    ensures r.status == status && r.body.Obj? && r.body.fields == map["error" := Str(message)]
  {
    Response(status, ErrorBody(message))
  }

  const InvalidJson := "Invalid JSON payload"
  const NoSession := "No session found"
  const SecretMissing := "JWT Secret missing"
  const InvalidPayload := "Invalid token payload"

  /** What `request.json()` does with the inbound body: resolves with a value, or throws. */
  datatype ParsedBody = Parsed(value: Json) | Malformed

  /** A call through the shared axios instance. */
  datatype BackendRequest = BackendPost(path: string, body: Json) | BackendGet(path: string)

  /** What the backend does with a request: answers with a status and a decoded body, or the network fails. */
  datatype BackendReply = Reply(status: int, data: Json) | NetworkFault

  /** The backend, a foreign service: a parameter of every handler that calls it. */
  type Backend = BackendRequest -> BackendReply

  /** How an axios call settles: `await` yields a response, or the call throws. */
  datatype Settled = Resolved(status: int, data: Json) | Rejected

  /**
   * axios's default `validateStatus` (the shared instance does not override it) resolves
   * only a 2xx reply; any other status rejects, as a network failure does.
   */
  function Axios(reply: BackendReply): (s: Settled)
    ensures s.Resolved? <==> reply.Reply? && 200 <= reply.status < 300
    ensures s.Resolved? ==> s.status == reply.status && s.data == reply.data
  {
    if reply.Reply? && 200 <= reply.status < 300 then Resolved(reply.status, reply.data) else Rejected
  }

  /** One handler invocation: the backend request it sent, if any, and the response it returned. */
  datatype Exchange = Exchange(sent: Option<BackendRequest>, response: Response)
}
