# ModelHub gateway, configuration and launcher in Dafny

ModelHub is a small API gateway in front of named backend microservices. A client posts
`{"input": ...}` to `POST /route/<service>` on the gateway. The gateway looks the name up in a
name-to-URL registry and forwards the JSON to the backend's `/process` endpoint. It then turns
the backend's outcome into its own reply. The backend (service3's `process` view) answers
`{"service": NAME, "output": input.upper()}`.

The registry and the per-service settings come from `config.py`, which reads the process
environment once at import time. `start_local.py` builds the launch list (the gateway first,
then one entry per configured service) and the environment each child process is started with.

This project models those pieces as Dafny functions, methods and lemmas:

| file | module | what it holds |
|---|---|---|
| `wrappers.dfy` | `Wrappers` | `Option` and `Result` |
| `json.dfy` | `Json` | JSON values and the `{"error": message}` object |
| `http.dfy` | `Http` | status codes, bodies, the outcome of one `requests.post`, `raise_for_status` |
| `text.dfy` | `Text` | the Python `str` operations the code relies on: `strip`, `split`/`join`, ASCII `upper`/`lower`, `str(n)` and `int(s)` on digit strings |
| `config.py` → `config.dfy` | `Config` | `DOCKER_MODE`, `GATEWAY_PORT`, `SERVICES_LIST`, the `SERVICE_CONFIG` loop, `GATEWAY_SERVICES` |
| `gateway/gateway/routes.py` → `gateway_routes.dfy` | `GatewayRoutes` | `route_request` |
| `services/service3/service/routes.py` → `service_routes.dfy` | `ServiceRoutes` | `process` |
| `client/api_client.py` → `api_client.dfy` | `Client` | `APIClient.__init__`, `call_service` |
| `start_local.py` → `start_local.dfy` | `StartLocal` | `build_gateway_dict`, `build_service_dict`, `load_services_from_config`, the environment set up by `start_service` |
| `end_to_end.dfy` | `EndToEnd` | client → gateway → backend composed, and the integration-test scenarios |

Each network call is a parameter of the view that makes it. The parameter is an `Outcome`: a
transport failure (timeout, refused connection, ...) or a received status and body. The
environment is a `map<string, string>`.

The two loops in the source stay loops, each proved equal to a recursive specification
function, and the properties are proved about that function:
- `BuildServiceConfig` fills `SERVICE_CONFIG` (config.py:34-41).
- `LoadServicesFromConfig` appends launch entries (start_local.py:37-40).

`StartServiceEnv` has no loop. It is the sequence of dictionary updates at start_local.py:44-49,
proved equal to the declarative `ChildEnv`.

How the library behaviour the code depends on is modelled:
- `raise_for_status()` raises for statuses 400 to 599 only. Statuses outside 100..999 never reach the code.
- The gateway calls `response.json()` (routes.py:23) outside its `try`. An undecodable backend body therefore makes the gateway view fail with Flask's 500.
- Returning a `(value, status)` pair from a Flask view (Flask 2.2 or later, where a list is serialised like a dict):
  - a dict or a list becomes JSON;
  - a str becomes a text body;
  - `None`, a number or a bool is an error (500).
- The client's `response.json()` is inside its `try`. With requests 2.27 or later, a body that does not decode raises `requests.exceptions.JSONDecodeError`, which is a `RequestException`. It therefore collapses to the error object like every other failure.
- `requests.post(url, json=None)` sends no body. Reading `request.json` in the backend then raises inside its `try`, which gives 500.

Behaviour of the code worth knowing, each stated by a lemma below:
- The gateway does not relay backend statuses 400 to 599. `raise_for_status` turns them into 503, so a backend's 418 and a backend's 404 both reach the caller as 503 (`GatewayRoutes.ErrorStatusIsUnavailable`).
- The gateway has no 400 check of its own for a malformed inbound body. It forwards whatever `request.json` gave.
- An undecodable backend body makes the gateway answer 500, not 503 (`GatewayRoutes.MalformedBackendBody`).
- The registry accepts any URL string; nothing validates it. In local mode, two services with the same port get the same URL. With an empty environment this happens to both default services (`Config.LocalUrlsCollide`, `Config.DefaultRegistry`).

## Model

| member | source | states |
|---|---|---|
| Config.DockerMode | config.py:23 | `DOCKER_MODE` lower-cased equals "true", "false" when unset; characterised by `Config.DockerModeIff` |
| Config.DockerModeIff | config.py:23 | docker mode is on exactly when DOCKER_MODE is set to a case variant of "true"; unset means off |
| Config.CleanSegments | config.py:32 | no more names come out than segments went in; which segments are kept, how and where is stated by the next five lemmas |
| Config.CleanSegmentsClean | config.py:32 | every kept segment is non-empty and stripped |
| Config.CleanSegmentsSingle | config.py:32 | one segment is kept, stripped, exactly when its `strip()` is not empty |
| Config.CleanSegmentsAppend | config.py:32 | the comprehension works segment by segment, in order: cleaning `a + b` is cleaning `a`, then `b` |
| Config.CleanSegmentsAt | config.py:32 | every segment whose `strip()` is not empty appears, stripped, between what the segments before and after it give |
| Config.CleanSegmentsFrom | config.py:32 | nothing is invented: the j-th listed name is the stripped form of some segment |
| Config.ParseServicesList | config.py:32 | every element of the service list is non-empty and has no surrounding whitespace |
| Config.ParseServicesListOfJoin | config.py:32 | reading back comma-free parts joined by "," gives exactly the cleaned parts |
| Config.ServicesList | config.py:31-32 | `SERVICES`, with fallback "service1,service2", split on "," and cleaned; stated by the lemmas around it |
| Config.ServicesListSpaced | config.py:32 | for clean names a and b, `"<a>, <b>,"` lists exactly a, b: spaces are stripped and the empty last segment dropped |
| Config.ServicesListOfJoin | config.py:31-32 | joining clean, comma-free names with "," and reading the list back gives exactly those names, in order |
| Config.DefaultServicesList | config.py:31 | with SERVICES unset the list is ["service1", "service2"] |
| Config.ServiceConfigOf | config.py:36-40 | one loop iteration: the record read from `<KEY>_NAME`, `<KEY>_PORT`, `<KEY>_LOG_LEVEL` with their fallbacks, or the `ValueError` of a malformed port; stated by the two lemmas below |
| Config.ServiceConfigDefaults | config.py:36-41 | a service none of whose `<SERVICE>_NAME/_PORT/_LOG_LEVEL` variables is set gets name = itself, port 5000, level "INFO" |
| Config.ServiceConfigReadsOwnKeys | config.py:36-40 | a service's record depends only on its own three upper-cased variables |
| Config.Fill | config.py:34-41 | the loop as a recursion over the list's prefix; its meaning is stated by the five `Fill` lemmas below |
| Config.FillSucceeds | config.py:34-41 | the loop completes exactly when every listed service's port parses |
| Config.FillKeys | config.py:35-37 | the dictionary's keys are the set of listed names; duplicates collapse |
| Config.FillValues | config.py:37-41 | each stored value is the record of its own name |
| Config.FillFailurePersists | config.py:35-39 | once a prefix raised, the whole loop raises the same error |
| Config.FillFirstFailure | config.py:35-39 | the error raised is that of the first listed service whose port is malformed |
| Config.BuildServiceConfig | config.py:34-41 | the imperative loop yields exactly the declarative dictionary or error |
| Config.ServiceUrl | config.py:45 | `f"http://{host}:{port}/process"`; its inverse is `ParseServiceUrl`, by the next lemma |
| Config.ParseServiceUrlRoundTrip | config.py:45 | a registry URL `http://host:port/process` determines its host and port |
| Config.GatewayServices | config.py:43-52 | the registry has the configured services as keys; each URL names the service (docker) or "localhost" and its configured port |
| Config.LoadConfig | config.py:23-52 | importing fails with GATEWAY_PORT's error first, then with the first bad service port; otherwise it yields the configuration derived from the environment |
| Config.RegistryKeys | config.py:34-52 | registry keys = SERVICE_CONFIG keys = set of SERVICES_LIST |
| Config.GatewayPortDefault | config.py:25 | the GATEWAY_PORT fallback parses to 5001 |
| Config.ServicePortDefault | config.py:39 | the service port fallback parses to 5000 |
| Config.ServiceConfigsUnset | config.py:34-41 | with none of the services' variables set, every listed service gets its default record |
| Config.LocalUrlsCollide | config.py:49-52 | in local mode two services with the same port get the same URL |
| Config.DefaultGateway | config.py:23-26 | empty environment: local mode, gateway port 5001, level "INFO" |
| Config.DefaultConfiguration | config.py:31-52 | empty environment: services ["service1", "service2"], each with its default record, registered at local-mode URLs |
| Config.DefaultRegistry | config.py:49-52 | the default registry has keys service1 and service2, both at localhost:5000, the same URL |
| Text.Strip | config.py:32 | the result is no longer than the input and has no whitespace at either end |
| Text.StripRemovesBlank | config.py:32 | `strip` removes exactly the leading and trailing whitespace |
| Text.StripIdempotent | config.py:32 | stripping twice is stripping once |
| Text.SplitJoin | config.py:32 | splitting a join of separator-free parts on the separator gives the parts back |
| Text.Split | config.py:31-32 | split yields at least one part, no part contains the separator, and joining the parts gives the input |
| Text.Upper | services/service3/service/routes.py:11 | ASCII upper-casing keeps the length and maps each character by `UpperChar` |
| Text.UpperIdempotent | services/service3/service/routes.py:11 | upper-casing twice is upper-casing once |
| Text.Lower | config.py:23 | ASCII lower-casing keeps the length and maps each character by `LowerChar` |
| Text.ParseDecimal | config.py:25 | `int(s)` accepts exactly the non-empty ASCII digit strings |
| Text.DecimalRoundTrip | start_local.py:17 | `int(str(n)) == n` |
| Text.ParseDecimalRoundTrip | config.py:39 | `str(int(s)) == s` for a numeral without a leading zero |
| GatewayRoutes.FlaskReturn | gateway/gateway/routes.py:23 | the reply body is JSON exactly for a dict or list, and then it is that value; a str is sent as text with the given status; anything else is Flask's 500 |
| GatewayRoutes.Translate | gateway/gateway/routes.py:15-23 | 503 exactly when the call raised; never 404; a JSON reply other than 503 is the backend's status and body unchanged |
| GatewayRoutes.RouteRequest | gateway/gateway/routes.py:9-23 | a backend is called exactly for a registered name; 404 exactly when the name is unknown; 503 exactly when the call raised |
| GatewayRoutes.UnknownService | gateway/gateway/routes.py:10-12 | an unknown name gives 404 `{"error": "Service not found"}` and no backend call |
| GatewayRoutes.NoCaseFolding | gateway/gateway/routes.py:10 | lookup is exact: an upper-cased spelling that is not itself a key is not found |
| GatewayRoutes.Forwarding | gateway/gateway/routes.py:14-16 | the one request goes to exactly the registered URL with the inbound JSON unchanged |
| GatewayRoutes.TransportFailureIsUnavailable | gateway/gateway/routes.py:15-20 | any transport failure gives 503 `{"error": "Service unavailable"}` |
| GatewayRoutes.ErrorStatusIsUnavailable | gateway/gateway/routes.py:17-20 | a backend status in 400..599 gives 503, not the backend's status |
| GatewayRoutes.SuccessPassesThrough | gateway/gateway/routes.py:17-23 | otherwise an object or array body is relayed with the backend's status, which is below 400 when standard |
| GatewayRoutes.MalformedBackendBody | gateway/gateway/routes.py:23 | a non-JSON, null, number or bool backend body gives Flask's 500 |
| GatewayRoutes.ErrorStatusesAreOwn | gateway/gateway/routes.py:9-23 | every reply status in 400..599 is the gateway's own 404, 500 or 503 |
| GatewayRoutes.ReplyDependsOnlyOnOutcome | gateway/gateway/routes.py:9-23 | no hidden state: the reply depends only on membership and the backend outcome |
| Http.BodySent | gateway/gateway/routes.py:16 | a JSON value is sent as itself; `json=None` sends no body |
| ServiceRoutes.ServiceName | services/service3/service/config.py:5-6 | the configured name under the service's key, falling back to the key; what a started service reports is stated by `EndToEnd.StartedServiceReportsConfiguredName` |
| ServiceRoutes.Process | services/service3/service/routes.py:8-16 | 200 exactly on an object whose `input` is a string or missing, then the upper-cased input under the service's name; otherwise 500 `{"error": "Internal server error"}` |
| ServiceRoutes.OutputShape | services/service3/service/routes.py:11 | the result has exactly the fields `service` and `output` |
| ServiceRoutes.OutputFields | services/service3/service/routes.py:10-11 | a string `input` comes back upper-cased with `service` = SERVICE_NAME |
| ServiceRoutes.MissingInput | services/service3/service/routes.py:11 | a missing `input` gives output "" |
| ServiceRoutes.Errors | services/service3/service/routes.py:14-16 | no body, null or non-object body, or non-string input gives 500 `{"error": "Internal server error"}` |
| ServiceRoutes.OutputIsAsciiUpper | services/service3/service/routes.py:11 | same length, lower-case letters become their upper-case letters, other characters are kept |
| ServiceRoutes.HelloUpper | tests/test_integration.py:93-98 | "Hello" becomes "HELLO" |
| ServiceRoutes.ProcessIdempotent | services/service3/service/routes.py:11 | feeding an output back as input gives the same output |
| Client.DefaultClient | client/api_client.py:12-13 | the default gateway URL is "http://localhost:5001" |
| Client.Envelope | client/api_client.py:25 | the body is exactly `{"input": input_data}` |
| Client.RequestFor | client/api_client.py:23-25 | the URL is `gateway_url + "/route/" + service_name` and the body the envelope |
| Client.CallResult | client/api_client.py:24-31 | the result is the error object unless the status was accepted and the body was that JSON |
| Client.CallService | client/api_client.py:15-31 | URL and envelope as above; the result is the error object or the gateway's accepted JSON body |
| Client.TransportFailureCollapses | client/api_client.py:24-31 | any transport failure gives `{"error": "Service unavailable"}` |
| Client.ErrorStatusCollapses | client/api_client.py:26-31 | any gateway status in 400..599 gives `{"error": "Service unavailable"}` |
| Client.UnknownServiceCollapses | client/api_client.py:26-31 | the gateway's 404 for an unknown service gives `{"error": "Service unavailable"}` |
| Client.SuccessReturnsBody | client/api_client.py:27-28 | an accepted JSON body is returned unchanged; a non-JSON body gives the error object |
| StartLocal.GatewayEntry | start_local.py:10-20 | `build_gateway_dict()`; its shape is stated by the next lemma |
| StartLocal.GatewayEntryShape | start_local.py:10-20 | name and path "gateway", DOCKER_MODE "false", GATEWAY_PORT reads back as the entry's port |
| StartLocal.NameKeyNotPortKey | start_local.py:29-32 | the `_NAME` and `_PORT` variables of a service differ |
| StartLocal.ServiceEntry | start_local.py:22-33 | `build_service_dict(service)`; its shape is stated by the next lemma |
| StartLocal.ServiceEntryShape | start_local.py:22-33 | path `services/<s>`, configured port or 5000, exactly the variables `<S>_NAME` and `<S>_PORT`, the latter reading back as the port |
| StartLocal.LoadServicesFromConfig | start_local.py:35-40 | length 1 + \|SERVICES_LIST\|, gateway first, entry i+1 built for the i-th service |
| StartLocal.LaunchedOnConfiguredPorts | start_local.py:22-40 | once SERVICE_CONFIG is built, each listed service is launched on its configured port, which is the port of its registry URL |
| StartLocal.ChildEnv | start_local.py:44-49 | DATA_DIR, DOCKER_MODE = "false" and PYTHONPATH are set; entry variables win over inherited ones except those three; every other key is inherited |
| StartLocal.StartServiceEnv | start_local.py:44-49 | the step-by-step updates produce exactly that environment |
| StartLocal.ServiceKeysNotForced | start_local.py:45-49 | a service's own variables are never one of the three forced ones |
| StartLocal.ChildIsLocal | start_local.py:47 | every child runs in local mode |
| StartLocal.ChildReadsEntry | start_local.py:44-49 | a child reads its name and port from its entry's variables and its log level from the parent |
| StartLocal.ChildSeesOwnConfig | start_local.py:22-49 | a started service finds the name and port the parent configured for it |
| StartLocal.GatewaySeesOwnPort | start_local.py:10-49 | the started gateway reads back the configured gateway port |
| EndToEnd.CallThroughIff | tests/test_integration.py:87-122 | a string input to a reachable service returns the upper-cased input under the listening service's name; every other call gives `{"error": "Service unavailable"}` |
| EndToEnd.IntegrationService1 | tests/test_integration.py:87-98 | `call_service("service1", "Hello")` gives `{"service": "service1", "output": "HELLO"}` |
| EndToEnd.IntegrationService2 | tests/test_integration.py:101-112 | `call_service("service2", "World")` gives `{"service": "service2", "output": "WORLD"}` |
| EndToEnd.IntegrationUnknownService | tests/test_integration.py:115-122 | an unknown service is reported as `{"error": "Service unavailable"}` |
| EndToEnd.UnknownServiceStatuses | tests/test_integration.py:115-122 | the gateway answers 404 while the client reports the error object |
| EndToEnd.BackendDown | gateway/gateway/routes.py:15-20 | a registered but unreachable service gives 503 |
| EndToEnd.Backend | gateway/gateway/routes.py:16 | a URL nobody listens at refuses the connection |
| EndToEnd.StartedServiceReportsConfiguredName | services/service3/service/config.py:5-6 | a backend started from its launch entry, once its own SERVICE_CONFIG lists it, reports the name the parent configured for it |
| EndToEnd.LaunchedServiceAnswers | start_local.py:22-49 | when the process at the registered URL is the one started for the service, a string input comes back upper-cased under the name the parent configured |

## Left out

- HTTP I/O: the `requests` and Flask calls are replaced by outcome values. Timing is not modelled; the 5-second timeout is kept only as the constant `Http.RequestTimeoutSeconds`.
- Flask's handling of the gateway's own inbound body (its 400/415 for a missing or malformed JSON body) is not modelled. The gateway view takes the already decoded JSON.
- Flask's URL routing (extracting `<service>` from the path, percent-decoding) is not modelled. The gateway receives the name the client put in the URL.
- A text body that happens to be valid JSON is modelled as not JSON (`OtherBody`). This is the Flask reply for a backend JSON string that the client would decode.
- JSON numbers are integers; nothing in the core inspects a number.
- `Text.Upper`, `Text.Lower`: ASCII only; Python's Unicode case mappings are not modelled.
- `Text.ParseDecimal`: `int()` is modelled on ASCII digit strings only. A sign, `_`, surrounding whitespace or non-ASCII digits are treated as malformed, although Python accepts them. Negative ports are therefore not representable.
- `Text.Strip`: the whitespace set is Python's `str.isspace` set written out as code points.
- `.env` loading, `BASE_DIR`, `DATA_DIR` and `LOG_FILE` are filesystem work. The child environment takes `dataDir` and `baseDir` as parameters.
- `ensure_data_dirs` (config.py and app_config.py) is filesystem work.
- `start_service`'s `Popen` and `sleep` are not modelled, nor are `stop_services`, signal handling, the `__main__` loop and all printing.
- setup_pyenv.py is shell and pyenv plumbing.
- Logging calls in the views and the logger modules have no effect on results.
- gateway/app.py, services/service2/app.py and client/example_usage.py are bootstrapping and a demo script.
- The per-service configuration modules: only `SERVICE_NAME` is modelled (`ServiceRoutes.ServiceName`). Their `PORT` and `LOG_LEVEL` (the fallbacks 5002, 5003 and 5005) only feed the app runner, which is not modelled.
- The routes of service1 and service2 are not part of this model. The end-to-end lemmas run service3's `process` under the name of whichever service listens at the URL.
- Concurrency between requests: each view is a function of its inputs.

## Findings

No finding: every property stated here holds of the code as written.
