/**
 * The gateway's one view, `POST /route/<service>`: look the name up in the registry,
 * forward the inbound JSON to the backend's URL, and translate what came back into the
 * gateway's own reply.  The network call is a parameter: `outcome` is what the single
 * `requests.post` produced (a transport failure or a received response).
 */
module GatewayRoutes {
  import opened Wrappers
  import opened Json
  import opened Http
  import opened Text

  /** `gateway.config.SERVICES`, that is `CONFIG["GATEWAY_SERVICES"]`: service name to backend URL. */
  type Registry = map<string, string>

  /** The view's reply together with the backend request it made, if it made one. */
  datatype Routed = Routed(call: Option<Request>, reply: Reply)

  const NotFound: Reply := Reply(404, JsonBody(ErrorObject("Service not found")))

  const Unavailable: Reply := Reply(503, JsonBody(ErrorObject("Service unavailable")))

  /** The 500 page Flask sends when a view raises or returns a value it cannot turn into a response. */
  const InternalError: Reply := Reply(500, OtherBody)

  /**
   * A view returning `(value, status)`: Flask serialises a dict or a list as JSON and sends a
   * str as a text body; a number, a bool or `None` is not a valid response value and ends in 500.
   */
  function FlaskReturn(value: Json, status: StatusCode): (r: Reply)
    ensures r.body.JsonBody? <==> value.JObject? || value.JArray?
    ensures r.body.JsonBody? ==> r.body.json == value
    ensures r.status == status || r == InternalError
    ensures value.JString? ==> r.status == status && r.body.OtherBody?
    ensures !(value.JObject? || value.JArray? || value.JString?) ==> r == InternalError
  {
    match value
    case JObject(_) => Reply(status, JsonBody(value))
    case JArray(_) => Reply(status, JsonBody(value))
    case JString(_) => Reply(status, OtherBody)
    case _ => InternalError
  }

  /**
   * What the view does with the backend's outcome once it has called it: transport errors
   * and a status that `raise_for_status` rejects become 503; otherwise `response.json()`,
   * which is outside the `try`, either fails (a body that is not JSON, so 500) or its value
   * is returned with the backend's status.
   */
  function Translate(outcome: Outcome): (r: Reply)
    ensures r.status == 503 <==> outcome.TransportFailure? || RaisesForStatus(outcome.status)
    ensures r.status != 404
    ensures r.status != 503 && r.body.JsonBody? ==> outcome.Received? && r == Reply(outcome.status, outcome.body)
  {
    match outcome
    case TransportFailure(_) => Unavailable
    case Received(status, body) =>
      if RaisesForStatus(status) then Unavailable
      else match body
        case OtherBody => InternalError
        case JsonBody(value) => FlaskReturn(value, status)
  }

  /**
   * `route_request(service)` with the inbound JSON `data` and the outcome of the backend call.
   * A backend is called exactly for a registered name; the reply is 404 exactly when the name
   * is not registered (a backend's own 404 becomes 503), and 503 exactly when the backend was
   * called and the call raised.
   */
  function RouteRequest(services: Registry, service: string, data: Json, outcome: Outcome): (r: Routed)
    ensures r.call.Some? <==> service in services
    ensures r.reply.status == 404 <==> service !in services
    ensures r.reply.status == 503 <==> service in services && (outcome.TransportFailure? || RaisesForStatus(outcome.status))
  {
    if service !in services then Routed(None, NotFound)
    else Routed(Some(Request(services[service], data)), Translate(outcome))
  }

  /** An unregistered name is answered 404 `{"error": "Service not found"}` and no backend is called. */
  lemma UnknownService(services: Registry, service: string, data: Json, outcome: Outcome)
    requires service !in services
    ensures RouteRequest(services, service, data, outcome).call == None
    ensures RouteRequest(services, service, data, outcome).reply.status == 404
    ensures RouteRequest(services, service, data, outcome).reply.body == JsonBody(ErrorObject("Service not found"))
  {
  }

  /**
   * Lookup is exact key equality: an upper-cased spelling of a registered name that is not
   * itself a key is not found, whatever the backend would have said.
   */
  lemma NoCaseFolding(services: Registry, service: string, data: Json, outcome: Outcome)
    requires service in services && Upper(service) !in services
    ensures RouteRequest(services, service, data, outcome).call.Some?
    ensures RouteRequest(services, Upper(service), data, outcome).reply == NotFound
  {
  }

  /** For a registered name the only request goes to exactly the registered URL and carries the inbound JSON unchanged. */
  lemma Forwarding(services: Registry, service: string, data: Json, outcome: Outcome)
    requires service in services
    ensures RouteRequest(services, service, data, outcome).call == Some(Request(services[service], data))
  {
  }

  /** A timeout, a refused connection or any other transport error is answered 503 `{"error": "Service unavailable"}`. */
  lemma TransportFailureIsUnavailable(services: Registry, service: string, data: Json, cause: TransportCause)
    requires service in services
    ensures RouteRequest(services, service, data, TransportFailure(cause)).reply.status == 503
    ensures RouteRequest(services, service, data, TransportFailure(cause)).reply.body == JsonBody(ErrorObject("Service unavailable"))
  {
  }

  /** A backend 4xx or 5xx is not passed on: `raise_for_status` raises and the caller gets 503. */
  lemma ErrorStatusIsUnavailable(services: Registry, service: string, data: Json, status: StatusCode, body: Body)
    requires service in services && 400 <= status < 600
    ensures RouteRequest(services, service, data, Received(status, body)).reply == Unavailable
  {
  }

  /**
   * Otherwise a JSON object or array from the backend is passed on with the backend's own
   * status, and that status, when it is a standard one (below 600), is below 400.
   */
  lemma SuccessPassesThrough(services: Registry, service: string, data: Json, status: StatusCode, value: Json)
    requires service in services && !RaisesForStatus(status) && (value.JObject? || value.JArray?)
    ensures RouteRequest(services, service, data, Received(status, JsonBody(value))).reply == Reply(status, JsonBody(value))
    ensures status < 600 ==> status < 400
  {
  }

  /**
   * A backend answer with an accepted status whose body is not JSON, or is JSON null, a
   * number or a bool, makes the view itself fail: Flask replies 500.
   */
  lemma MalformedBackendBody(services: Registry, service: string, data: Json, status: StatusCode, body: Body)
    requires service in services && !RaisesForStatus(status)
    requires body.OtherBody? || body.json.JNull? || body.json.JBool? || body.json.JNumber?
    ensures RouteRequest(services, service, data, Received(status, body)).reply == InternalError
  {
  }

  /**
   * Every other reply status in 400..599 is one of the gateway's own three: 404, 500 or 503.
   * A status the backend chose reaches the caller only outside that range.
   */
  lemma ErrorStatusesAreOwn(services: Registry, service: string, data: Json, outcome: Outcome)
    ensures var st := RouteRequest(services, service, data, outcome).reply.status;
      400 <= st < 600 ==> st == 404 || st == 500 || st == 503
  {
  }

  /**
   * No hidden state: for a registered name the reply depends only on the backend's outcome,
   * not on the inbound body or on which URL the name is registered under; for an unregistered
   * name it depends on nothing at all.
   */
  lemma ReplyDependsOnlyOnOutcome(services1: Registry, services2: Registry, service: string,
                                  data1: Json, data2: Json, outcome1: Outcome, outcome2: Outcome)
    requires service in services1 <==> service in services2
    requires service in services1 ==> outcome1 == outcome2
    ensures RouteRequest(services1, service, data1, outcome1).reply == RouteRequest(services2, service, data2, outcome2).reply
  {
  }
}
