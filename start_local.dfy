/**
 * `start_local.py` without the process plumbing: the launch plan (the gateway's entry, then
 * one entry per configured service, in `SERVICES_LIST` order) and the environment a child
 * process is started with.  `Popen`, `sleep`, signals and printing are not modelled.
 */
module StartLocal {
  import opened Wrappers
  import opened Text
  import opened Config

  /** One entry of the launch list: `{"name", "path", "port", "env_vars"}`. */
  datatype LaunchEntry = LaunchEntry(name: string, path: string, port: nat, envVars: map<string, string>)

  /** `build_gateway_dict()` for the configured gateway port. */
  function GatewayEntry(gatewayPort: nat): LaunchEntry
  {
    LaunchEntry("gateway", "gateway", gatewayPort, map["GATEWAY_PORT" := Decimal(gatewayPort), "DOCKER_MODE" := "false"])
  }

  /**
   * The gateway's entry is named and located "gateway", forces DOCKER_MODE to "false" and
   * exports its port as GATEWAY_PORT, written so that `int()` reads back the same port.
   */
  lemma GatewayEntryShape(gatewayPort: nat)
    ensures var e := GatewayEntry(gatewayPort);
      && e.name == "gateway" && e.path == "gateway" && e.port == gatewayPort
      && e.envVars.Keys == {"GATEWAY_PORT", "DOCKER_MODE"}
      && e.envVars["DOCKER_MODE"] == "false"
      && ParseDecimal(e.envVars["GATEWAY_PORT"]) == Some(e.port)
  {
    DecimalRoundTrip(gatewayPort);
  }

  /** `SERVICE_CONFIG.get(service, {})` read field by field with the dict's fallbacks. */
  function EntryName(serviceConfig: map<string, ServiceConfig>, service: string): string
  {
    if service in serviceConfig then serviceConfig[service].name else service
  }

  function EntryPort(serviceConfig: map<string, ServiceConfig>, service: string): nat
  {
    if service in serviceConfig then serviceConfig[service].port else 5000
  }

  /** The `_NAME` and `_PORT` variables of a service are different variables. */
  lemma NameKeyNotPortKey(service: string)
    ensures NameKey(service) != PortKey(service)
  {
    var k := |Upper(service)|;
    assert NameKey(service)[k + 1] == 'N';
    assert PortKey(service)[k + 1] == 'P';
  }

  /** `build_service_dict(service)`. */
  function ServiceEntry(serviceConfig: map<string, ServiceConfig>, service: string): LaunchEntry
  {
    LaunchEntry(service, "services/" + service, EntryPort(serviceConfig, service),
                map[NameKey(service) := EntryName(serviceConfig, service),
                    PortKey(service) := Decimal(EntryPort(serviceConfig, service))])
  }

  /**
   * A service's entry: path `services/<service>`, the configured port (5000 for a service
   * without configuration), and exactly the two variables `<SERVICE>_NAME`, holding the
   * configured name, and `<SERVICE>_PORT`, holding the entry's port so that `int()` reads it back.
   */
  lemma ServiceEntryShape(serviceConfig: map<string, ServiceConfig>, service: string)
    ensures var e := ServiceEntry(serviceConfig, service);
      && e.name == service && e.path == "services/" + service
      && e.port == (if service in serviceConfig then serviceConfig[service].port else 5000)
      && e.envVars.Keys == {NameKey(service), PortKey(service)}
      && e.envVars[NameKey(service)] == (if service in serviceConfig then serviceConfig[service].name else service)
      && ParseDecimal(e.envVars[PortKey(service)]) == Some(e.port)
  {
    NameKeyNotPortKey(service);
    DecimalRoundTrip(EntryPort(serviceConfig, service));
  }

  /**
   * `load_services_from_config()`: the gateway's entry first, then the loop appends one
   * entry per name of `SERVICES_LIST`, in order.
   */
  method LoadServicesFromConfig(c: Configuration) returns (services: seq<LaunchEntry>)
    ensures |services| == 1 + |c.servicesList|
    ensures services[0] == GatewayEntry(c.gatewayPort)
    ensures forall i :: 0 <= i < |c.servicesList| ==> services[i + 1] == ServiceEntry(c.serviceConfig, c.servicesList[i])
  {
    services := [GatewayEntry(c.gatewayPort)];
    var i := 0;
    while i < |c.servicesList|
      invariant 0 <= i <= |c.servicesList|
      invariant |services| == 1 + i
      invariant services[0] == GatewayEntry(c.gatewayPort)
      invariant forall j :: 0 <= j < i ==> services[j + 1] == ServiceEntry(c.serviceConfig, c.servicesList[j])
    {
      services := services + [ServiceEntry(c.serviceConfig, c.servicesList[i])];
      i := i + 1;
    }
  }

  /**
   * Once the SERVICE_CONFIG loop has succeeded, every listed service is launched on the port
   * configured for it, which is the port of the URL the gateway registers for it.
   */
  lemma LaunchedOnConfiguredPorts(env: Env, services: seq<string>, serviceConfig: map<string, ServiceConfig>,
                                  dockerMode: bool, i: nat)
    requires ServiceConfigs(env, services) == Success(serviceConfig) && i < |services|
    ensures var s := services[i];
      && s in serviceConfig && s in GatewayServices(dockerMode, serviceConfig)
      && ServiceEntry(serviceConfig, s).port == serviceConfig[s].port
      && ParseServiceUrl(GatewayServices(dockerMode, serviceConfig)[s]) == Some((Host(dockerMode, s), ServiceEntry(serviceConfig, s).port))
  {
    FillKeys(services, RecordOf(env));
  }

  // ---------------------------------------------------------------------------
  // The environment of a child process (start_service, start_local.py:44-49)
  // ---------------------------------------------------------------------------

  /** The three variables `start_service` sets after the entry's own variables. */
  predicate Forced(key: string)
  {
    key == "DATA_DIR" || key == "DOCKER_MODE" || key == "PYTHONPATH"
  }

  /**
   * The child's environment: the parent's, overlaid with the entry's variables, and then
   * DATA_DIR, DOCKER_MODE = "false" and PYTHONPATH = the project root, which win over both.
   */
  function ChildEnv(osEnviron: Env, envVars: map<string, string>, dataDir: string, baseDir: string): (env: Env)
    ensures env.Keys == osEnviron.Keys + envVars.Keys + {"DATA_DIR", "DOCKER_MODE", "PYTHONPATH"}
    ensures env["DATA_DIR"] == dataDir && env["DOCKER_MODE"] == "false" && env["PYTHONPATH"] == baseDir
    ensures forall k :: k in envVars && !Forced(k) ==> env[k] == envVars[k]
    ensures forall k :: k in osEnviron && k !in envVars && !Forced(k) ==> env[k] == osEnviron[k]
  {
    (osEnviron + envVars)["DATA_DIR" := dataDir]["DOCKER_MODE" := "false"]["PYTHONPATH" := baseDir]
  }

  /** The copy of `os.environ` that `start_service` updates step by step before the launch. */
  method StartServiceEnv(osEnviron: Env, service: LaunchEntry, dataDir: string, baseDir: string) returns (env: Env)
    ensures env == ChildEnv(osEnviron, service.envVars, dataDir, baseDir)
  {
    env := osEnviron;
    env := env + service.envVars;
    env := env["DATA_DIR" := dataDir];
    env := env["DOCKER_MODE" := "false"];
    env := env["PYTHONPATH" := baseDir];
  }

  /** None of a service's own variables is one of the three forced ones. */
  lemma ServiceKeysNotForced(service: string)
    ensures !Forced(NameKey(service)) && !Forced(PortKey(service)) && !Forced(LogLevelKey(service))
  {
    var k := |Upper(service)|;
    assert NameKey(service)[k + 3] == 'M' && NameKey(service)[k + 4] == 'E';
    assert PortKey(service)[k + 4] == 'T';
    assert LogLevelKey(service)[k + 9] == 'L';
  }

  /** The `_LOG_LEVEL` variable is neither of the two an entry sets. */
  lemma LogLevelKeyNotSet(service: string)
    ensures LogLevelKey(service) != NameKey(service) && LogLevelKey(service) != PortKey(service)
  {
    var k := |Upper(service)|;
    assert LogLevelKey(service)[k + 1] == 'L';
    assert NameKey(service)[k + 1] == 'N';
    assert PortKey(service)[k + 1] == 'P';
  }

  /** Every child runs in local mode, whatever the parent's environment and the entry say. */
  lemma ChildIsLocal(osEnviron: Env, envVars: map<string, string>, dataDir: string, baseDir: string)
    ensures !DockerMode(ChildEnv(osEnviron, envVars, dataDir, baseDir))
  {
    DockerModeIff(ChildEnv(osEnviron, envVars, dataDir, baseDir));
  }

  /** A child reads a service's record from the variables its entry sets, and the log level from the parent. */
  lemma ChildReadsEntry(osEnviron: Env, envVars: map<string, string>, dataDir: string, baseDir: string,
                        service: string, name: string, port: nat)
    requires NameKey(service) in envVars && envVars[NameKey(service)] == name
    requires PortKey(service) in envVars && ParseDecimal(envVars[PortKey(service)]) == Some(port)
    requires LogLevelKey(service) !in envVars
    ensures ServiceConfigOf(ChildEnv(osEnviron, envVars, dataDir, baseDir), service) ==
              Success(ServiceConfig(name, port, Get(osEnviron, LogLevelKey(service), DefaultLogLevel)))
  {
    var env := ChildEnv(osEnviron, envVars, dataDir, baseDir);
    ServiceKeysNotForced(service);
    assert Get(env, NameKey(service), service) == name;
    assert Get(env, PortKey(service), DefaultServicePort) == envVars[PortKey(service)];
    assert Get(env, LogLevelKey(service), DefaultLogLevel) == Get(osEnviron, LogLevelKey(service), DefaultLogLevel);
  }

  /**
   * A service started this way runs in local mode and, when it reads config.py, finds the
   * name and port the parent configured for it; its log level still comes from the parent's
   * environment.
   */
  lemma ChildSeesOwnConfig(osEnviron: Env, serviceConfig: map<string, ServiceConfig>, service: string,
                           dataDir: string, baseDir: string)
    requires service in serviceConfig
    ensures var env := ChildEnv(osEnviron, ServiceEntry(serviceConfig, service).envVars, dataDir, baseDir);
      && !DockerMode(env)
      && ServiceConfigOf(env, service) ==
           Success(ServiceConfig(serviceConfig[service].name, serviceConfig[service].port,
                                 Get(osEnviron, LogLevelKey(service), DefaultLogLevel)))
  {
    var e := ServiceEntry(serviceConfig, service);
    ServiceEntryShape(serviceConfig, service);
    LogLevelKeyNotSet(service);
    ChildIsLocal(osEnviron, e.envVars, dataDir, baseDir);
    ChildReadsEntry(osEnviron, e.envVars, dataDir, baseDir, service, serviceConfig[service].name, serviceConfig[service].port);
  }

  /** The gateway started this way runs in local mode and reads back the configured gateway port. */
  lemma GatewaySeesOwnPort(osEnviron: Env, gatewayPort: nat, dataDir: string, baseDir: string)
    ensures var env := ChildEnv(osEnviron, GatewayEntry(gatewayPort).envVars, dataDir, baseDir);
      !DockerMode(env) && PortSetting(env, "GATEWAY_PORT", DefaultGatewayPort) == Success(gatewayPort)
  {
    var env := ChildEnv(osEnviron, GatewayEntry(gatewayPort).envVars, dataDir, baseDir);
    GatewayEntryShape(gatewayPort);
    assert env["GATEWAY_PORT"] == GatewayEntry(gatewayPort).envVars["GATEWAY_PORT"];
    ChildIsLocal(osEnviron, GatewayEntry(gatewayPort).envVars, dataDir, baseDir);
  }
}
