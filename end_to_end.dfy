/**
 * The three programs composed: the client posts to the gateway, the gateway forwards to
 * the backend registered for the name, the backend (the upper-casing `process` view under
 * the name of whichever service listens at the URL) answers, and the answer travels back.
 */
module EndToEnd {
  import opened Json
  import opened Http
  import opened Text
  import opened Wrappers
  import opened Config
  import StartLocal
  import GatewayRoutes
  import ServiceRoutes
  import Client

  /** Which service, if any, listens at each URL; every other URL refuses the connection. */
  type Listening = map<string, string>

  /** What one backend call produces: the `process` view of the service at the URL, or a refused connection. */
  function Backend(listening: Listening, request: Request): (o: Outcome)
    ensures request.url !in listening ==> o == TransportFailure(ConnectionRefused)
  {
    if request.url in listening then Deliver(ServiceRoutes.Process(listening[request.url], BodySent(request.json)))
    else TransportFailure(ConnectionRefused)
  }

  /**
   * The gateway's reply to `/route/<service>` with inbound JSON `data`: for a registered name
   * the backend call is made at the registered URL; an unregistered name makes no call.
   */
  function GatewayServe(services: GatewayRoutes.Registry, listening: Listening, service: string, data: Json): Reply
  {
    var outcome := if service in services then Backend(listening, Request(services[service], data))
                   else TransportFailure(OtherRequestError);
    GatewayRoutes.RouteRequest(services, service, data, outcome).reply
  }

  /** `client.call_service(service_name, input_data)` against that gateway. */
  function CallThrough(client: Client.ApiClient, services: GatewayRoutes.Registry, listening: Listening,
                       serviceName: string, inputData: Json): Json
  {
    var request := Client.RequestFor(client, serviceName, inputData);
    var reply := GatewayServe(services, listening, serviceName, request.json);
    Client.CallService(client, serviceName, inputData, Deliver(reply)).result
  }

  /** The call reaches a running service: the name is registered and a service listens at its URL. */
  predicate Reachable(services: GatewayRoutes.Registry, listening: Listening, serviceName: string)
  {
    serviceName in services && services[serviceName] in listening
  }

  /**
   * A call with a string input to a reachable service returns `{"service": S, "output":
   * input.upper()}`, S being the service that listens at the registered URL; every other call
   * (unregistered name, nobody listening, an input that is not a string) returns
   * `{"error": "Service unavailable"}`.
   */
  lemma CallThroughIff(client: Client.ApiClient, services: GatewayRoutes.Registry, listening: Listening,
                       serviceName: string, inputData: Json)
    ensures Reachable(services, listening, serviceName) && inputData.JString? ==>
              CallThrough(client, services, listening, serviceName, inputData) ==
                ServiceRoutes.Output(listening[services[serviceName]], Upper(inputData.s))
    ensures !(Reachable(services, listening, serviceName) && inputData.JString?) ==>
              CallThrough(client, services, listening, serviceName, inputData) == ErrorObject("Service unavailable")
  {
    var envelope := Client.Envelope(inputData);
    if serviceName in services {
      var outcome := Backend(listening, Request(services[serviceName], envelope));
      if services[serviceName] in listening {
        var name := listening[services[serviceName]];
        assert BodySent(envelope) == JsonBody(envelope);
        assert ServiceRoutes.InputOf(envelope.fields) == inputData;
        if inputData.JString? {
          ServiceRoutes.OutputFields(name, envelope.fields, inputData.s);
          GatewayRoutes.SuccessPassesThrough(services, serviceName, envelope, 200, ServiceRoutes.Output(name, Upper(inputData.s)));
        } else {
          GatewayRoutes.ErrorStatusIsUnavailable(services, serviceName, envelope, 500, outcome.body);
        }
      }
    } else {
      GatewayRoutes.UnknownService(services, serviceName, envelope, TransportFailure(OtherRequestError));
    }
  }

  /**
   * tests/test_integration.py, service1: with service1 registered and listening,
   * `call_service("service1", "Hello")` returns `{"service": "service1", "output": "HELLO"}`.
   */
  lemma IntegrationService1(client: Client.ApiClient, services: GatewayRoutes.Registry, listening: Listening)
    requires "service1" in services && services["service1"] in listening
    requires listening[services["service1"]] == "service1"
    ensures var r := CallThrough(client, services, listening, "service1", JString("Hello"));
      r.JObject? && r.fields.Keys == {"service", "output"} &&
      r.fields["service"] == JString("service1") && r.fields["output"] == JString("HELLO")
  {
    CallThroughIff(client, services, listening, "service1", JString("Hello"));
    ServiceRoutes.OutputShape("service1", "HELLO");
    ServiceRoutes.HelloUpper();
  }

  /** tests/test_integration.py, service2: `call_service("service2", "World")` returns `{"service": "service2", "output": "WORLD"}`. */
  lemma IntegrationService2(client: Client.ApiClient, services: GatewayRoutes.Registry, listening: Listening)
    requires "service2" in services && services["service2"] in listening
    requires listening[services["service2"]] == "service2"
    ensures var r := CallThrough(client, services, listening, "service2", JString("World"));
      r.JObject? && r.fields.Keys == {"service", "output"} &&
      r.fields["service"] == JString("service2") && r.fields["output"] == JString("WORLD")
  {
    CallThroughIff(client, services, listening, "service2", JString("World"));
    ServiceRoutes.OutputShape("service2", "WORLD");
    assert Upper("World") == "WORLD";
  }

  /**
   * tests/test_integration.py, unknown service: the gateway's 404 for "no_such_service"
   * reaches the caller as `{"error": "Service unavailable"}`.
   */
  lemma IntegrationUnknownService(client: Client.ApiClient, services: GatewayRoutes.Registry, listening: Listening)
    requires "no_such_service" !in services
    ensures var r := CallThrough(client, services, listening, "no_such_service", JString("???"));
      r.JObject? && "error" in r.fields && r.fields["error"] == JString("Service unavailable")
  {
    CallThroughIff(client, services, listening, "no_such_service", JString("???"));
  }

  /** The gateway itself answers an unregistered name with 404 while the client reports it as unavailable. */
  lemma UnknownServiceStatuses(client: Client.ApiClient, services: GatewayRoutes.Registry, listening: Listening,
                               serviceName: string, inputData: Json)
    requires serviceName !in services
    ensures GatewayServe(services, listening, serviceName, Client.Envelope(inputData)).status == 404
    ensures CallThrough(client, services, listening, serviceName, inputData) == ErrorObject("Service unavailable")
  {
    CallThroughIff(client, services, listening, serviceName, inputData);
  }

  /** A registered service that is not running makes the gateway answer 503. */
  lemma BackendDown(services: GatewayRoutes.Registry, listening: Listening, serviceName: string, data: Json)
    requires serviceName in services && services[serviceName] !in listening
    ensures GatewayServe(services, listening, serviceName, data) == GatewayRoutes.Unavailable
  {
  }

  /**
   * A backend started by `start_service` from its launch entry builds SERVICE_CONFIG from its
   * own environment; when its own name is listed there, it reports the name the parent
   * configured for it.
   */
  lemma StartedServiceReportsConfiguredName(osEnviron: Env, serviceConfig: map<string, ServiceConfig>, service: string,
                                            dataDir: string, baseDir: string,
                                            childServices: seq<string>, childConfig: map<string, ServiceConfig>)
    requires service in serviceConfig && service in childServices
    requires ServiceConfigs(StartLocal.ChildEnv(osEnviron, StartLocal.ServiceEntry(serviceConfig, service).envVars, dataDir, baseDir),
                            childServices) == Success(childConfig)
    ensures ServiceRoutes.ServiceName(childConfig, service) == serviceConfig[service].name
  {
    var env := StartLocal.ChildEnv(osEnviron, StartLocal.ServiceEntry(serviceConfig, service).envVars, dataDir, baseDir);
    FillKeys(childServices, RecordOf(env));
    FillValues(childServices, RecordOf(env));
    StartLocal.ChildSeesOwnConfig(osEnviron, serviceConfig, service, dataDir, baseDir);
    assert RecordOf(env)(service) == ServiceConfigOf(env, service);
  }

  /**
   * The whole path for a service that `start_local.py` launched: when the process listening at
   * the registered URL is the one started for `serviceName`, a string input comes back
   * upper-cased under the name the parent configured for that service.
   */
  lemma LaunchedServiceAnswers(client: Client.ApiClient, services: GatewayRoutes.Registry, listening: Listening,
                               serviceName: string, input: string,
                               osEnviron: Env, serviceConfig: map<string, ServiceConfig>, dataDir: string, baseDir: string,
                               childServices: seq<string>, childConfig: map<string, ServiceConfig>)
    requires Reachable(services, listening, serviceName)
    requires serviceName in serviceConfig && serviceName in childServices
    requires ServiceConfigs(StartLocal.ChildEnv(osEnviron, StartLocal.ServiceEntry(serviceConfig, serviceName).envVars, dataDir, baseDir),
                            childServices) == Success(childConfig)
    requires listening[services[serviceName]] == ServiceRoutes.ServiceName(childConfig, serviceName)
    ensures CallThrough(client, services, listening, serviceName, JString(input)) ==
              ServiceRoutes.Output(serviceConfig[serviceName].name, Upper(input))
  {
    StartedServiceReportsConfiguredName(osEnviron, serviceConfig, serviceName, dataDir, baseDir, childServices, childConfig);
    CallThroughIff(client, services, listening, serviceName, JString(input));
  }
}
