/**
 * JSON values as the gateway, the client and the backends exchange them.
 * Numbers are integers only: no component inspects a number, it only passes it on.
 */
module Json {

  datatype Json =
    | JNull
    | JBool(b: bool)
    | JNumber(n: int)
    | JString(s: string)
    | JArray(items: seq<Json>)
    | JObject(fields: map<string, Json>)

  /** The two-field error object `{"error": message}` every component replies with on failure. */
  function ErrorObject(message: string): (r: Json)
    ensures r.JObject? && r.fields.Keys == {"error"} && r.fields["error"] == JString(message)
  {
    JObject(map["error" := JString(message)])
  }
}
