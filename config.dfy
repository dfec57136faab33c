/**
 * The configuration `config.py` derives from the process environment at import time:
 * the docker-mode flag, the gateway's port and log level, the cleaned list of service
 * names, one configuration record per service and the gateway's name-to-URL registry.
 */
module Config {
  import opened Wrappers
  import opened Text

  /** The process environment (after `.env` loading): variable name to value. */
  type Env = map<string, string>

  /** `os.environ.get(key, default)`. */
  function Get(env: Env, key: string, default: string): string
  {
    if key in env then env[key] else default
  }

  /** The services started when SERVICES is unset; the default value of SERVICES is "service1,service2". */
  const DefaultServiceNames: seq<string> := ["service1", "service2"]
  const DefaultServices: string := Join(DefaultServiceNames, ',')
  /** The fallbacks of GATEWAY_PORT and of every `<SERVICE>_PORT`: the numerals "5001" and "5000". */
  const DefaultGatewayPort: string := "5001"
  const DefaultServicePort: string := "5000"
  const DefaultLogLevel := "INFO"

  datatype ServiceConfig = ServiceConfig(name: string, port: nat, logLevel: string)

  /** `int()` raising `ValueError` while the module is imported: the variable and the value it rejected. */
  datatype ConfigError = MalformedPort(variable: string, value: string)

  /** `int(os.environ.get(key, default))`. */
  function PortSetting(env: Env, key: string, default: string): (r: Result<nat, ConfigError>)
  {
    var text := Get(env, key, default);
    match ParseDecimal(text)
    case Some(n) => Success(n)
    case None => Failure(MalformedPort(key, text))
  }

  // ---------------------------------------------------------------------------
  // DOCKER_MODE (config.py:23)
  // ---------------------------------------------------------------------------

  predicate DockerMode(env: Env)
  {
    Lower(Get(env, "DOCKER_MODE", "false")) == "true"
  }

  /** "true" in any mix of upper- and lower-case letters. */
  predicate SpellsTrue(v: string)
  {
    && |v| == 4
    && (v[0] == 't' || v[0] == 'T')
    && (v[1] == 'r' || v[1] == 'R')
    && (v[2] == 'u' || v[2] == 'U')
    && (v[3] == 'e' || v[3] == 'E')
  }

  /** Docker mode is on exactly when the variable is set to some case variant of "true"; unset means off. */
  lemma DockerModeIff(env: Env)
    ensures DockerMode(env) <==> "DOCKER_MODE" in env && SpellsTrue(env["DOCKER_MODE"])
  {
    var v := Get(env, "DOCKER_MODE", "false");
    var l := Lower(v);
    if |v| == 4 {
      assert l == "true" <==> l[0] == 't' && l[1] == 'r' && l[2] == 'u' && l[3] == 'e';
    }
    assert "DOCKER_MODE" !in env ==> |l| == 5;
  }

  // ---------------------------------------------------------------------------
  // SERVICES_LIST (config.py:31-32)
  // ---------------------------------------------------------------------------

  /** `[s.strip() for s in segments if s.strip()]`. */
  function CleanSegments(segments: seq<string>): (r: seq<string>)
    ensures |r| <= |segments|
  {
    if segments == [] then []
    else
      var t := Strip(segments[0]);
      var rest := CleanSegments(segments[1..]);
      if t == "" then rest else [t] + rest
  }

  /** Every kept segment is non-empty and stripped. */
  lemma {:induction false} CleanSegmentsClean(segments: seq<string>)
    ensures forall i :: 0 <= i < |CleanSegments(segments)| ==> CleanSegments(segments)[i] != "" && IsStripped(CleanSegments(segments)[i])
  {
    if segments != [] {
      CleanSegmentsClean(segments[1..]);
    }
  }

  /** config.py:32 applied to the raw value of SERVICES. */
  function ParseServicesList(raw: string): (r: seq<string>)
    ensures forall i :: 0 <= i < |r| ==> r[i] != "" && IsStripped(r[i])
  {
    CleanSegmentsClean(Split(raw, ','));
    CleanSegments(Split(raw, ','))
  }

  function ServicesList(env: Env): (r: seq<string>)
  {
    ParseServicesList(Get(env, "SERVICES", DefaultServices))
  }

  lemma HeadTail<T>(s: seq<T>)
    requires s != []
    ensures [s[0]] + s[1..] == s
  {
  }

  /** A clean first segment is kept as it is. */
  lemma CleanSegmentsCleanHead(names: seq<string>)
    requires names != [] && names[0] != "" && IsStripped(names[0])
    ensures CleanSegments(names) == [names[0]] + CleanSegments(names[1..])
  {
    StripStripped(names[0]);
  }

  /** Segments that are already non-empty and stripped pass through unchanged. */
  lemma {:induction false} CleanSegmentsOfClean(names: seq<string>)
    requires forall i :: 0 <= i < |names| ==> names[i] != "" && IsStripped(names[i])
    ensures CleanSegments(names) == names
  {
    if names != [] {
      CleanSegmentsCleanHead(names);
      CleanSegmentsOfClean(names[1..]);
      HeadTail(names);
    }
  }

  /** One segment is kept, stripped, exactly when its `strip()` is not empty. */
  lemma CleanSegmentsSingle(segment: string)
    ensures CleanSegments([segment]) == (if Strip(segment) == "" then [] else [Strip(segment)])
  {
    assert [segment][1..] == [];
  }

  /** The comprehension works segment by segment: cleaning a concatenation cleans each part in turn, in order. */
  lemma {:induction false} CleanSegmentsAppend(a: seq<string>, b: seq<string>)
    ensures CleanSegments(a + b) == CleanSegments(a) + CleanSegments(b)
  {
    if a == [] {
      assert a + b == b;
    } else {
      assert (a + b)[0] == a[0];
      assert (a + b)[1..] == a[1..] + b;
      CleanSegmentsAppend(a[1..], b);
    }
  }

  /**
   * Every segment whose `strip()` is not empty appears, stripped, at its own place: after
   * what the segments before it give and before what the segments after it give.
   */
  lemma {:induction false} CleanSegmentsAt(segments: seq<string>, i: nat)
    requires i < |segments| && Strip(segments[i]) != ""
    ensures CleanSegments(segments) == CleanSegments(segments[..i]) + [Strip(segments[i])] + CleanSegments(segments[i + 1..])
    ensures Strip(segments[i]) in CleanSegments(segments)
  {
    var pre, x, post := segments[..i], segments[i], segments[i + 1..];
    assert segments == pre + ([x] + post);
    CleanSegmentsAppend(pre, [x] + post);
    assert CleanSegments([x] + post) == [Strip(x)] + CleanSegments(post) by {
      assert ([x] + post)[0] == x && ([x] + post)[1..] == post;
    }
    assert CleanSegments(segments)[|CleanSegments(pre)|] == Strip(x);
  }

  /** Nothing is invented: the `j`-th listed name is the stripped form of some segment. */
  lemma {:induction false} CleanSegmentsFrom(segments: seq<string>, j: nat)
    requires j < |CleanSegments(segments)|
    ensures exists i :: 0 <= i < |segments| && CleanSegments(segments)[j] == Strip(segments[i])
    decreases |segments|
  {
    assert segments != [];
    var rest := CleanSegments(segments[1..]);
    if Strip(segments[0]) != "" && j == 0 {
      assert CleanSegments(segments)[0] == Strip(segments[0]);
    } else {
      var k := if Strip(segments[0]) == "" then j else j - 1;
      assert CleanSegments(segments)[j] == rest[k];
      CleanSegmentsFrom(segments[1..], k);
      var i :| 0 <= i < |segments[1..]| && rest[k] == Strip(segments[1..][i]);
      assert segments[1..][i] == segments[i + 1];
    }
  }

  /** Reading back a SERVICES value written as comma-free parts joined by "," cleans exactly those parts. */
  lemma ParseServicesListOfJoin(parts: seq<string>)
    requires forall i :: 0 <= i < |parts| ==> ',' !in parts[i]
    ensures ParseServicesList(Join(parts, ',')) == CleanSegments(parts)
  {
    if parts == [] {
      assert Split("", ',') == [""];
      CleanSegmentsSingle("");
      assert Strip("") == "";
    } else {
      SplitJoin(parts, ',');
    }
  }

  /**
   * The list keeps the comma-separated names in their order: whatever list of clean,
   * comma-free names is joined with "," into SERVICES is exactly the list recovered.
   */
  lemma ServicesListOfJoin(names: seq<string>)
    requires forall i :: 0 <= i < |names| ==> names[i] != "" && IsStripped(names[i]) && ',' !in names[i]
    ensures ParseServicesList(Join(names, ',')) == names
  {
    ParseServicesListOfJoin(names);
    CleanSegmentsOfClean(names);
  }

  lemma JoinThree(x: string, y: string, z: string, sep: char)
    ensures Join([x, y, z], sep) == x + [sep] + y + [sep] + z
  {
    assert [x, y, z][1..] == [y, z];
    assert [y, z][1..] == [z];
    assert Join([y, z], sep) == y + [sep] + z;
    assert Join([x, y, z], sep) == x + [sep] + (y + [sep] + z);
  }

  lemma StripLeadingSpace(b: string)
    requires b != "" && IsStripped(b)
    ensures Strip(" " + b) == b
  {
    assert (" " + b)[1..] == b;
    assert IsSpace((" " + b)[0]);
    assert TrimLeft(" " + b) == TrimLeft(b);
    assert TrimLeft(b) == b;
    StripStripped(b);
  }

  lemma CleanThree(a: string, b: string)
    requires a != "" && IsStripped(a)
    requires b != "" && IsStripped(b)
    ensures CleanSegments([a, " " + b, ""]) == [a, b]
  {
    var parts := [a, " " + b, ""];
    assert parts == [parts[0]] + ([parts[1]] + [parts[2]]);
    CleanSegmentsAppend([parts[0]], [parts[1]] + [parts[2]]);
    CleanSegmentsAppend([parts[1]], [parts[2]]);
    StripStripped(a);
    StripLeadingSpace(b);
    assert Strip("") == "";
    CleanSegmentsSingle(parts[0]);
    CleanSegmentsSingle(parts[1]);
    CleanSegmentsSingle(parts[2]);
  }

  /**
   * Spaces after the commas are dropped and a trailing comma adds nothing: for clean,
   * comma-free names, `"<a>, <b>,"` lists a and b.
   */
  lemma ServicesListSpaced(a: string, b: string)
    requires a != "" && IsStripped(a) && ',' !in a
    requires b != "" && IsStripped(b) && ',' !in b
    ensures ParseServicesList(a + ", " + b + ",") == [a, b]
  {
    JoinThree(a, " " + b, "", ',');
    assert a + [','] + (" " + b) + [','] + "" == a + ", " + b + ",";
    assert ',' !in " " + b;
    ParseServicesListOfJoin([a, " " + b, ""]);
    CleanThree(a, b);
  }

  /** With SERVICES unset the list is `["service1", "service2"]`. */
  lemma DefaultServicesList(env: Env)
    requires "SERVICES" !in env
    ensures ServicesList(env) == DefaultServiceNames
  {
    ServicesListOfJoin(DefaultServiceNames);
  }

  // ---------------------------------------------------------------------------
  // SERVICE_CONFIG (config.py:34-41)
  // ---------------------------------------------------------------------------

  function NameKey(service: string): string { Upper(service) + "_NAME" }

  function PortKey(service: string): string { Upper(service) + "_PORT" }

  function LogLevelKey(service: string): string { Upper(service) + "_LOG_LEVEL" }

  /** What one iteration of the loop stores for `service`, or the `ValueError` it raises. */
  function ServiceConfigOf(env: Env, service: string): Result<ServiceConfig, ConfigError>
  {
    match PortSetting(env, PortKey(service), DefaultServicePort)
    case Failure(e) => Failure(e)
    case Success(port) =>
      Success(ServiceConfig(Get(env, NameKey(service), service), port, Get(env, LogLevelKey(service), DefaultLogLevel)))
  }

  /** A service none of whose three variables is set gets name = the service itself, port 5000 and level "INFO". */
  lemma ServiceConfigDefaults(env: Env, service: string)
    requires NameKey(service) !in env && PortKey(service) !in env && LogLevelKey(service) !in env
    ensures ServiceConfigOf(env, service) == Success(ServiceConfig(service, 5000, "INFO"))
  {
    ServicePortDefault();
  }

  /** The record for `service` is read from its own three variables and nothing else in the environment. */
  lemma ServiceConfigReadsOwnKeys(env1: Env, env2: Env, service: string)
    requires forall k :: k in {NameKey(service), PortKey(service), LogLevelKey(service)} ==>
               Get(env1, k, "") == Get(env2, k, "") && (k in env1 <==> k in env2)
    ensures ServiceConfigOf(env1, service) == ServiceConfigOf(env2, service)
  {
    assert Get(env1, NameKey(service), service) == Get(env2, NameKey(service), service);
    assert Get(env1, PortKey(service), DefaultServicePort) == Get(env2, PortKey(service), DefaultServicePort);
    assert Get(env1, LogLevelKey(service), DefaultLogLevel) == Get(env2, LogLevelKey(service), DefaultLogLevel);
  }

  /** What the loop body stores for each name, or the error it raises: `ServiceConfigOf(env, ·)`. */
  type Recorder = string -> Result<ServiceConfig, ConfigError>

  function RecordOf(env: Env): Recorder
  {
    service => ServiceConfigOf(env, service)
  }

  /**
   * The dictionary a loop leaves behind after storing `record(s)` under `s` for each name of
   * `services` in order, or the first error a `record` raised.
   */
  function Fill(services: seq<string>, record: Recorder): Result<map<string, ServiceConfig>, ConfigError>
    decreases |services|
  {
    if services == [] then Success(map[])
    else
      match Fill(services[..|services| - 1], record)
      case Failure(e) => Failure(e)
      case Success(m) =>
        match record(services[|services| - 1])
        case Failure(e) => Failure(e)
        case Success(c) => Success(m[services[|services| - 1] := c])
  }

  /** SERVICE_CONFIG as config.py:34-41 fills it from `env`, or the `ValueError` it raises. */
  function ServiceConfigs(env: Env, services: seq<string>): Result<map<string, ServiceConfig>, ConfigError>
  {
    Fill(services, RecordOf(env))
  }

  /** The loop finishes exactly when no name's record raises. */
  lemma {:induction false} FillSucceeds(services: seq<string>, record: Recorder)
    ensures Fill(services, record).Success? <==> forall i :: 0 <= i < |services| ==> record(services[i]).Success?
    decreases |services|
  {
    if services != [] {
      var init := services[..|services| - 1];
      assert forall i :: 0 <= i < |init| ==> init[i] == services[i];
      FillSucceeds(init, record);
    }
  }

  /** The keys are the distinct names of the list: a repeated name collapses to one entry. */
  lemma {:induction false} FillKeys(services: seq<string>, record: Recorder)
    requires Fill(services, record).Success?
    ensures Fill(services, record).value.Keys == set s | s in services
    decreases |services|
  {
    if services != [] {
      var init, last := services[..|services| - 1], services[|services| - 1];
      assert services == init + [last];
      FillKeys(init, record);
    }
  }

  /** Each value is the record of its own name, so a repeated name keeps the same record. */
  lemma {:induction false} FillValues(services: seq<string>, record: Recorder)
    requires Fill(services, record).Success?
    ensures forall s :: s in Fill(services, record).value ==> record(s) == Success(Fill(services, record).value[s])
    decreases |services|
  {
    if services != [] {
      FillValues(services[..|services| - 1], record);
    }
  }

  /** Once a prefix of the list has raised, the whole loop has raised the same error. */
  lemma {:induction false} FillFailurePersists(services: seq<string>, record: Recorder, n: nat)
    requires n <= |services|
    requires Fill(services[..n], record).Failure?
    ensures Fill(services, record) == Fill(services[..n], record)
    decreases |services|
  {
    if n < |services| {
      var init := services[..|services| - 1];
      assert init[..n] == services[..n];
      FillFailurePersists(init, record, n);
    } else {
      assert services[..n] == services;
    }
  }

  /** `k` is the first position of `services` whose record raises. */
  ghost predicate FirstFailure(services: seq<string>, record: Recorder, k: int)
  {
    && 0 <= k < |services|
    && record(services[k]).Failure?
    && forall j :: 0 <= j < k ==> record(services[j]).Success?
  }

  /** The error reported is that of the first name in list order whose record raises. */
  lemma {:induction false} FillFirstFailure(services: seq<string>, record: Recorder)
    requires Fill(services, record).Failure?
    ensures exists k :: FirstFailure(services, record, k) && Fill(services, record).error == record(services[k]).error
    decreases |services|
  {
    var init := services[..|services| - 1];
    assert forall i :: 0 <= i < |init| ==> init[i] == services[i];
    if Fill(init, record).Failure? {
      FillFirstFailure(init, record);
      var k :| FirstFailure(init, record, k) && Fill(init, record).error == record(init[k]).error;
      assert FirstFailure(services, record, k);
    } else {
      FillSucceeds(init, record);
      assert FirstFailure(services, record, |services| - 1);
    }
  }

  /**
   * config.py:34-41: the loop that fills SERVICE_CONFIG one service at a time; the first
   * malformed port ends it with a `ValueError`.
   */
  method BuildServiceConfig(env: Env, services: seq<string>) returns (r: Result<map<string, ServiceConfig>, ConfigError>)
    ensures r == ServiceConfigs(env, services)
  {
    var config: map<string, ServiceConfig> := map[];
    var i := 0;
    while i < |services|
      invariant 0 <= i <= |services|
      invariant Fill(services[..i], RecordOf(env)) == Success(config)
    {
      var service := services[i];
      var key := Upper(service);
      var portText := Get(env, key + "_PORT", DefaultServicePort);
      var port := ParseDecimal(portText);
      assert services[..i + 1][..i] == services[..i];
      assert RecordOf(env)(service) == ServiceConfigOf(env, service);
      if port.None? {
        FillFailurePersists(services, RecordOf(env), i + 1);
        return Failure(MalformedPort(key + "_PORT", portText));
      }
      config := config[service := ServiceConfig(Get(env, key + "_NAME", service), port.value,
                                                Get(env, key + "_LOG_LEVEL", DefaultLogLevel))];
      i := i + 1;
    }
    assert services[..i] == services;
    return Success(config);
  }

  // ---------------------------------------------------------------------------
  // GATEWAY_SERVICES (config.py:43-52)
  // ---------------------------------------------------------------------------

  /** `f"http://{host}:{port}/process"`. */
  function ServiceUrl(host: string, port: nat): string
  {
    "http://" + host + ":" + Decimal(port) + "/process"
  }

  /** The host part of a service's URL: the service's own name in docker mode, "localhost" otherwise. */
  function Host(dockerMode: bool, service: string): string
  {
    if dockerMode then service else "localhost"
  }

  /** Reads host and port back out of a URL of the form `http://{host}:{port}/process`. */
  function ParseServiceUrl(url: string): Option<(string, nat)>
  {
    if |url| < 15 || url[..7] != "http://" || url[|url| - 8..] != "/process" then None
    else
      var authority := url[7..|url| - 8];
      match LastIndexOf(authority, ':')
      case None => None
      case Some(k) =>
        match ParseDecimal(authority[k + 1..])
        case None => None
        case Some(port) => Some((authority[..k], port))
  }

  lemma NoColonAfterHost(host: string, digits: string)
    requires AllDigits(digits)
    ensures forall k :: |host| < k < |host| + 1 + |digits| ==> (host + ":" + digits)[k] != ':'
  {
    var authority := host + ":" + digits;
    forall k | |host| < k < |authority|
      ensures authority[k] != ':'
    {
      assert authority[k] == digits[k - |host| - 1];
    }
  }

  lemma LastColonBeforeDigits(host: string, digits: string)
    requires AllDigits(digits)
    ensures LastIndexOf(host + ":" + digits, ':') == Some(|host|)
  {
    NoColonAfterHost(host, digits);
    LastIndexOfUnique(host + ":" + digits, ':', |host|);
  }

  /** Every URL the gateway is given determines its host and port: reading them back gives what was written. */
  lemma ParseServiceUrlRoundTrip(host: string, port: nat)
    ensures ParseServiceUrl(ServiceUrl(host, port)) == Some((host, port))
  {
    var digits := Decimal(port);
    var url := ServiceUrl(host, port);
    var authority := host + ":" + digits;
    assert url == "http://" + authority + "/process";
    assert url[..7] == "http://";
    assert url[|url| - 8..] == "/process";
    assert url[7..|url| - 8] == authority;
    LastColonBeforeDigits(host, digits);
    assert authority[|host| + 1..] == digits;
    assert authority[..|host|] == host;
    DecimalRoundTrip(port);
  }

  lemma ServiceUrlsParse()
    ensures forall host: string, port: nat :: ParseServiceUrl(ServiceUrl(host, port)) == Some((host, port))
  {
    forall host: string, port: nat ensures ParseServiceUrl(ServiceUrl(host, port)) == Some((host, port)) {
      ParseServiceUrlRoundTrip(host, port);
    }
  }

  /**
   * The registry has exactly the configured services as keys, and each URL names the
   * service's host (by mode) and its configured port.
   */
  function GatewayServices(dockerMode: bool, config: map<string, ServiceConfig>): (r: map<string, string>)
    ensures r.Keys == config.Keys
    ensures forall s :: s in r ==> ParseServiceUrl(r[s]) == Some((Host(dockerMode, s), config[s].port))
  {
    ServiceUrlsParse();
    map s | s in config :: ServiceUrl(Host(dockerMode, s), config[s].port)
  }

  // ---------------------------------------------------------------------------
  // The whole module (config.py:23-52, exposed as CONFIG at config.py:74-84)
  // ---------------------------------------------------------------------------

  datatype Configuration = Configuration(
    dockerMode: bool,
    gatewayPort: nat,
    gatewayLogLevel: string,
    servicesList: seq<string>,
    serviceConfig: map<string, ServiceConfig>,
    gatewayServices: map<string, string>)

  /** `c` is what importing config.py computes from `env`. */
  ghost predicate DerivedFrom(env: Env, c: Configuration)
  {
    && c.dockerMode == DockerMode(env)
    && PortSetting(env, "GATEWAY_PORT", DefaultGatewayPort) == Success(c.gatewayPort)
    && c.gatewayLogLevel == Get(env, "GATEWAY_LOG_LEVEL", DefaultLogLevel)
    && c.servicesList == ServicesList(env)
    && ServiceConfigs(env, c.servicesList) == Success(c.serviceConfig)
    && c.gatewayServices == GatewayServices(c.dockerMode, c.serviceConfig)
  }

  /**
   * Importing config.py: it fails with the gateway port's error if GATEWAY_PORT is malformed
   * (config.py:25 runs first), otherwise with the first malformed service port, otherwise
   * it yields the configuration derived from the environment.
   */
  method LoadConfig(env: Env) returns (r: Result<Configuration, ConfigError>)
    ensures PortSetting(env, "GATEWAY_PORT", DefaultGatewayPort).Failure? ==>
              r == Failure(PortSetting(env, "GATEWAY_PORT", DefaultGatewayPort).error)
    ensures PortSetting(env, "GATEWAY_PORT", DefaultGatewayPort).Success? && ServiceConfigs(env, ServicesList(env)).Failure? ==>
              r == Failure(ServiceConfigs(env, ServicesList(env)).error)
    ensures r.Success? <==> PortSetting(env, "GATEWAY_PORT", DefaultGatewayPort).Success? && ServiceConfigs(env, ServicesList(env)).Success?
    ensures r.Success? ==> DerivedFrom(env, r.value)
  {
    var dockerMode := DockerMode(env);
    var gatewayPort := PortSetting(env, "GATEWAY_PORT", DefaultGatewayPort);
    if gatewayPort.Failure? {
      return Failure(gatewayPort.error);
    }
    var gatewayLogLevel := Get(env, "GATEWAY_LOG_LEVEL", DefaultLogLevel);
    var servicesList := ServicesList(env);
    var serviceConfig := BuildServiceConfig(env, servicesList);
    if serviceConfig.Failure? {
      return Failure(serviceConfig.error);
    }
    var gatewayServices := GatewayServices(dockerMode, serviceConfig.value);
    return Success(Configuration(dockerMode, gatewayPort.value, gatewayLogLevel, servicesList,
                                 serviceConfig.value, gatewayServices));
  }

  /** The registry's keys are the configured services, which are the names in SERVICES_LIST. */
  lemma RegistryKeys(env: Env, c: Configuration)
    requires DerivedFrom(env, c)
    ensures c.gatewayServices.Keys == c.serviceConfig.Keys == set s | s in c.servicesList
  {
    FillKeys(c.servicesList, RecordOf(env));
  }

  lemma GatewayPortDefault()
    ensures ParseDecimal(DefaultGatewayPort) == Some(5001)
  {
    assert Decimal(5001) == DefaultGatewayPort;
    DecimalRoundTrip(5001);
  }

  lemma ServicePortDefault()
    ensures ParseDecimal(DefaultServicePort) == Some(5000)
  {
    assert Decimal(5000) == DefaultServicePort;
    DecimalRoundTrip(5000);
  }

  /** The record every service gets when none of its three variables is set. */
  function DefaultRecord(service: string): ServiceConfig
  {
    ServiceConfig(service, 5000, "INFO")
  }

  /**
   * When no service of the list has any of its variables set, the loop succeeds and every
   * listed service gets its default record.
   */
  lemma ServiceConfigsUnset(env: Env, services: seq<string>)
    requires forall s :: s in services ==> NameKey(s) !in env && PortKey(s) !in env && LogLevelKey(s) !in env
    ensures ServiceConfigs(env, services) == Success(map s | s in services :: DefaultRecord(s))
  {
    var record := RecordOf(env);
    forall s | s in services ensures record(s) == Success(DefaultRecord(s)) {
      ServiceConfigDefaults(env, s);
    }
    FillSucceeds(services, record);
    FillKeys(services, record);
    FillValues(services, record);
    var m := Fill(services, record).value;
    assert forall s :: s in m ==> m[s] == DefaultRecord(s);
    assert m == map s | s in services :: DefaultRecord(s);
  }

  /** In local mode every URL is on "localhost", so two services configured with the same port get the same URL. */
  lemma LocalUrlsCollide(config: map<string, ServiceConfig>, s1: string, s2: string)
    requires s1 in config && s2 in config && config[s1].port == config[s2].port
    ensures GatewayServices(false, config)[s1] == GatewayServices(false, config)[s2]
  {
  }

  /** An empty environment: local mode, gateway on 5001 at level "INFO". */
  lemma DefaultGateway(c: Configuration)
    requires DerivedFrom(map[], c)
    ensures !c.dockerMode && c.gatewayPort == 5001 && c.gatewayLogLevel == "INFO"
  {
    DockerModeIff(map[]);
    GatewayPortDefault();
  }

  /**
   * An empty environment: the two default services, each with its default record (port
   * 5000), registered at their local-mode URLs.
   */
  lemma DefaultConfiguration(c: Configuration)
    requires DerivedFrom(map[], c)
    ensures c.servicesList == DefaultServiceNames
    ensures c.serviceConfig == map s | s in DefaultServiceNames :: DefaultRecord(s)
    ensures c.gatewayServices == GatewayServices(false, c.serviceConfig)
  {
    DefaultGateway(c);
    DefaultServicesList(map[]);
    ServiceConfigsUnset(map[], DefaultServiceNames);
  }

  /** The default services' registry in local mode: both at localhost:5000, that is, at the same URL. */
  lemma DefaultRegistry()
    ensures var r := GatewayServices(false, map s | s in DefaultServiceNames :: DefaultRecord(s));
      && r.Keys == {"service1", "service2"}
      && r["service1"] == r["service2"]
      && forall s :: s in r ==> ParseServiceUrl(r[s]) == Some(("localhost", 5000))
  {
    var config := map s | s in DefaultServiceNames :: DefaultRecord(s);
    assert config.Keys == {"service1", "service2"};
    LocalUrlsCollide(config, "service1", "service2");
  }
}
