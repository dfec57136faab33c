/**
 * `APIClient`: it holds the gateway's base URL and, for `call_service`, posts the envelope
 * `{"input": input_data}` to `<gateway>/route/<name>` and returns the gateway's JSON, or
 * `{"error": "Service unavailable"}` for every failure.  The gateway's answer is a parameter.
 */
module Client {
  import opened Json
  import opened Http

  const DefaultGatewayUrl: string := "http://localhost:5001"

  /** The client's only field, set once by `__init__` and never reassigned. */
  datatype ApiClient = ApiClient(gatewayUrl: string)

  /** `APIClient(gateway_url=...)`, and `APIClient()` with the default gateway URL. */
  function NewClient(gatewayUrl: string): ApiClient
  {
    ApiClient(gatewayUrl)
  }

  function DefaultClient(): (c: ApiClient)
    ensures c.gatewayUrl == "http://localhost:5001"
  {
    NewClient(DefaultGatewayUrl)
  }

  /** The envelope every call sends. */
  function Envelope(inputData: Json): (j: Json)
    ensures j.JObject? && j.fields.Keys == {"input"} && j.fields["input"] == inputData
  {
    JObject(map["input" := inputData])
  }

  /** The one request `call_service` makes: URL `gateway_url + "/route/" + service_name`, body the envelope. */
  function RequestFor(client: ApiClient, serviceName: string, inputData: Json): (q: Request)
    ensures q.url == client.gatewayUrl + "/route/" + serviceName
    ensures q.json == Envelope(inputData)
  {
    Request(client.gatewayUrl + "/route/" + serviceName, Envelope(inputData))
  }

  const ServiceUnavailable: Json := ErrorObject("Service unavailable")

  /**
   * What `call_service` returns once its request had `outcome`: inside the `try` a transport
   * error, a status `raise_for_status` rejects and a body `response.json()` cannot decode all
   * raise a `RequestException`, which is answered with the error object; otherwise the
   * decoded JSON is returned as it is.
   */
  function CallResult(outcome: Outcome): (r: Json)
    ensures r != ServiceUnavailable ==> outcome.Received? && !RaisesForStatus(outcome.status) && outcome.body == JsonBody(r)
  {
    match outcome
    case TransportFailure(_) => ServiceUnavailable
    case Received(status, body) =>
      if RaisesForStatus(status) then ServiceUnavailable
      else match body
        case OtherBody => ServiceUnavailable
        case JsonBody(j) => j
  }

  /** One `call_service(service_name, input_data)`: the request it sends and the value it returns. */
  datatype ClientCall = ClientCall(request: Request, result: Json)

  function CallService(client: ApiClient, serviceName: string, inputData: Json, outcome: Outcome): (c: ClientCall)
    ensures c.request.url == client.gatewayUrl + "/route/" + serviceName
    ensures c.request.json == JObject(map["input" := inputData])
    ensures c.result == ErrorObject("Service unavailable") ||
              (outcome.Received? && !RaisesForStatus(outcome.status) && outcome.body == JsonBody(c.result))
  {
    ClientCall(RequestFor(client, serviceName, inputData), CallResult(outcome))
  }

  /** A timeout, a refused connection or any other transport error is reported as the error object. */
  lemma TransportFailureCollapses(client: ApiClient, serviceName: string, inputData: Json, cause: TransportCause)
    ensures CallService(client, serviceName, inputData, TransportFailure(cause)).result == ErrorObject("Service unavailable")
  {
  }

  /** Any gateway status from 400 to 599, with any body, is reported as the error object. */
  lemma ErrorStatusCollapses(client: ApiClient, serviceName: string, inputData: Json, status: StatusCode, body: Body)
    requires 400 <= status < 600
    ensures CallService(client, serviceName, inputData, Received(status, body)).result == ErrorObject("Service unavailable")
  {
  }

  /** The gateway's 404 for an unknown service, whatever its body, reaches the caller as the error object. */
  lemma UnknownServiceCollapses(client: ApiClient, serviceName: string, inputData: Json, body: Body)
    ensures CallService(client, serviceName, inputData, Received(404, body)).result == ErrorObject("Service unavailable")
  {
  }

  /** An accepted status with a JSON body gives back exactly that JSON; a body that is not JSON gives the error object. */
  lemma SuccessReturnsBody(client: ApiClient, serviceName: string, inputData: Json, status: StatusCode, body: Body)
    requires !RaisesForStatus(status)
    ensures body.JsonBody? ==> CallService(client, serviceName, inputData, Received(status, body)).result == body.json
    ensures body.OtherBody? ==> CallService(client, serviceName, inputData, Received(status, body)).result == ErrorObject("Service unavailable")
  {
  }
}
