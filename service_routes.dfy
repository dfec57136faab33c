/**
 * The backend service's one view, `POST /process` (service3): it reads the JSON body and
 * answers `{"service": SERVICE_NAME, "output": input.upper()}`, with `""` for a missing
 * `input`, or 500 `{"error": "Internal server error"}` when anything in that raises.
 */
module ServiceRoutes {
  import opened Json
  import opened Http
  import opened Text
  import opened Config

  /**
   * `SERVICE_CONFIG.get(key, {}).get("name", key)`: the name a backend reports itself under,
   * for the key its configuration module looks up.  service3 looks up "service3" and falls
   * back to that same string.  What a started service actually reports is stated by
   * `EndToEnd.StartedServiceReportsConfiguredName`.
   */
  function ServiceName(serviceConfig: map<string, ServiceConfig>, service: string): string
  {
    if service in serviceConfig then serviceConfig[service].name else service
  }

  const ServerError: Reply := Reply(500, JsonBody(ErrorObject("Internal server error")))

  /** The result dictionary `{"service": name, "output": output}`. */
  function Output(name: string, output: string): Json
  {
    JObject(map["service" := JString(name), "output" := JString(output)])
  }

  /** The result has exactly the two fields `service` and `output`. */
  lemma OutputShape(name: string, output: string)
    ensures var r := Output(name, output);
      r.JObject? && r.fields.Keys == {"service", "output"} &&
      r.fields["service"] == JString(name) && r.fields["output"] == JString(output)
  {
  }

  /** The value `data.get("input", "")` looks up in an object body. */
  function InputOf(fields: map<string, Json>): Json
  {
    if "input" in fields then fields["input"] else JString("")
  }

  /** The body can be processed: a JSON object whose `input` is a string or is missing. */
  predicate Processable(body: Body)
  {
    body.JsonBody? && body.json.JObject? && InputOf(body.json.fields).JString?
  }

  /**
   * `process()`: reading `request.json` raises when no JSON body came, `.get` raises on
   * anything that is not an object and `.upper` on anything that is not a string; each of
   * these is caught and answered with 500.  It succeeds with 200 exactly on a processable
   * body, and then the answer names the service and carries the upper-cased input.
   */
  function Process(serviceName: string, body: Body): (r: Reply)
    ensures r.status == 200 <==> Processable(body)
    ensures Processable(body) ==> r.body == JsonBody(Output(serviceName, Upper(InputOf(body.json.fields).s)))
    ensures !Processable(body) ==> r == ServerError
  {
    match body
    case OtherBody => ServerError
    case JsonBody(data) =>
      match data
      case JObject(fields) => (
        match InputOf(fields)
        case JString(s) => Reply(200, JsonBody(Output(serviceName, Upper(s))))
        case _ => ServerError)
      case _ => ServerError
  }

  /** A string `input` is upper-cased and the `service` field is the configured name. */
  lemma OutputFields(serviceName: string, fields: map<string, Json>, input: string)
    requires "input" in fields && fields["input"] == JString(input)
    ensures Process(serviceName, JsonBody(JObject(fields))) == Reply(200, JsonBody(Output(serviceName, Upper(input))))
  {
  }

  /** An object without `input` gives the empty output. */
  lemma MissingInput(serviceName: string, fields: map<string, Json>)
    requires "input" !in fields
    ensures Process(serviceName, JsonBody(JObject(fields))) == Reply(200, JsonBody(Output(serviceName, "")))
  {
  }

  /**
   * No body, a JSON null, a body that is not an object and an `input` that is not a string
   * are all answered 500 `{"error": "Internal server error"}`.
   */
  lemma Errors(serviceName: string, body: Body)
    requires || body.OtherBody?
             || (body.JsonBody? && !body.json.JObject?)
             || (body.JsonBody? && body.json.JObject? && "input" in body.json.fields && !body.json.fields["input"].JString?)
    ensures Process(serviceName, body).status == 500
    ensures Process(serviceName, body).body == JsonBody(ErrorObject("Internal server error"))
  {
  }

  /**
   * On ASCII text the output has the input's length, every lower-case letter becomes its
   * upper-case counterpart and every other character is kept; nothing lower-case is left.
   */
  lemma OutputIsAsciiUpper(input: string)
    ensures |Upper(input)| == |input|
    ensures forall i :: 0 <= i < |input| && IsAsciiLower(input[i]) ==>
              IsAsciiUpper(Upper(input)[i]) && LowerChar(Upper(input)[i]) == input[i]
    ensures forall i :: 0 <= i < |input| && !IsAsciiLower(input[i]) ==> Upper(input)[i] == input[i]
    ensures forall i :: 0 <= i < |input| ==> !IsAsciiLower(Upper(input)[i])
  {
  }

  /** "Hello" becomes "HELLO". */
  lemma HelloUpper()
    ensures Upper("Hello") == "HELLO"
  {
  }

  /** Sending a service's output back to it as input gives the same output again. */
  lemma ProcessIdempotent(serviceName: string, input: string)
    ensures var out := Upper(input);
      Process(serviceName, JsonBody(JObject(map["input" := JString(out)]))) == Reply(200, JsonBody(Output(serviceName, out)))
  {
    UpperIdempotent(input);
  }
}
