/**
 * The HTTP exchange as the `requests` library and Flask present it to the code:
 * status codes, bodies that may or may not be JSON, the outcome of one `requests.post`
 * call and the reply a Flask view produces.
 */
module Http {
  import opened Json

  /** Every request the repository makes passes `timeout=5` (seconds); timing itself is not modelled. */
  const RequestTimeoutSeconds: nat := 5

  /** A status line's code: `http.client` rejects anything outside three digits as a protocol error. */
  type StatusCode = s: int | 100 <= s <= 999 witness 200

  /** A message body: a JSON document, or something that does not parse as JSON (or no body at all). */
  datatype Body = JsonBody(json: Json) | OtherBody

  /** What made `requests.post` raise before any response was read. */
  datatype TransportCause = Timeout | ConnectionRefused | DnsFailure | InvalidUrl | OtherRequestError

  /** The outcome of one `requests.post`: it raised, or a response with a status and a body arrived. */
  datatype Outcome = TransportFailure(cause: TransportCause) | Received(status: StatusCode, body: Body)

  /** An outbound request: the target URL and the JSON value passed as `json=`. */
  datatype Request = Request(url: string, json: Json)

  /** The status and body a Flask view sends back. */
  datatype Reply = Reply(status: StatusCode, body: Body)

  /**
   * `Response.raise_for_status()` raises `HTTPError` (a `RequestException`) exactly for the
   * client-error and server-error classes, 400 to 599.
   */
  predicate RaisesForStatus(status: StatusCode)
  {
    400 <= status < 600
  }

  /** The body a Flask view receives from `requests.post(url, json=j)`: `json=None` sends no body. */
  function BodySent(j: Json): (b: Body)
    ensures b.JsonBody? <==> j != JNull
    ensures b.JsonBody? ==> b.json == j
  {
    if j == JNull then OtherBody else JsonBody(j)
  }

  /** A Flask reply as the `requests` caller on the other side of the connection observes it. */
  function Deliver(reply: Reply): (o: Outcome)
    ensures o.Received? && o.status == reply.status && o.body == reply.body
  {
    Received(reply.status, reply.body)
  }
}
