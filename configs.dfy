/**
 * The configuration schemas of the `config` package and their methods:
 * every `Validate` (an ordered chain of early-return checks), and the
 * address formatters `HttpConfig.ListenAddr` and `RedisConfig.Addr`.
 *
 * Several Go files declare the same struct twice (types.go and one
 * config_*.go file); where both declarations and methods agree the type is
 * modelled once. The two `HttpConfig` declarations differ and are kept apart:
 * `HttpListenConfig` (types.go) and `HttpConfig` (config_http.go).
 */
module Configs {
  import opened Wrappers
  import opened Strings

  /** A Go `error` result: nil (Pass) or an error carrying its message. */
  datatype Outcome = Pass | Fail(message: string)

  /** One early-return check: `holds` is the condition the field must meet. */
  datatype Check = Check(holds: bool, message: string)

  /**
   * Reference semantics of an early-return chain: the first check that does not
   * hold decides the error; if every check holds the result is nil.
   */
  function FirstFailure(checks: seq<Check>): (r: Outcome)
    ensures r == Pass <==> forall j :: 0 <= j < |checks| ==> checks[j].holds
    ensures r.Fail? ==> exists i :: 0 <= i < |checks| && FailsFirstAt(checks, i) && r.message == checks[i].message
    decreases |checks|
  {
    if |checks| == 0 then Pass
    else if !checks[0].holds then
      assert FailsFirstAt(checks, 0);
      Fail(checks[0].message)
    else
      var r := FirstFailure(checks[1..]);
      assert r.Fail? ==> exists i :: 0 <= i < |checks| && FailsFirstAt(checks, i) && r.message == checks[i].message by {
        if r.Fail? {
          var i :| 0 <= i < |checks[1..]| && FailsFirstAt(checks[1..], i) && r.message == checks[1..][i].message;
          assert FailsFirstAt(checks, i + 1);
        }
      }
      r
  }

  /** Check `i` is the first one in the chain that does not hold. */
  ghost predicate FailsFirstAt(checks: seq<Check>, i: nat)
    requires i < |checks|
  {
    !checks[i].holds && forall j :: 0 <= j < i ==> checks[j].holds
  }

  /** The first failing check's message is the one reported. */
  lemma {:induction false} FirstFailureAt(checks: seq<Check>, i: nat)
    requires i < |checks| && FailsFirstAt(checks, i)
    ensures FirstFailure(checks) == Fail(checks[i].message)
    decreases i
  {
    if i > 0 {
      assert FailsFirstAt(checks[1..], i - 1);
      FirstFailureAt(checks[1..], i - 1);
    }
  }

  // ---------------------------------------------------------------------
  // Error messages, as the source spells them
  // ---------------------------------------------------------------------

  const EtcdEndpointsRequired := "etcd endpoints are required"
  const EtcdEndpointEmpty := "etcd endpoint cannot be empty"
  const EtcdDialTimeout := "dial timeout must be greater than 0"
  const AppNameRequired := "app name is required"
  const AppEnvRequired := "environment is required"
  const DatabaseEngineRequired := "database engine is required"
  const DatabaseHostRequired := "database host is required"
  const DatabasePortPositive := "database port must be greater than 0"
  const DatabaseNameRequired := "database name is required"
  const HttpListenRequired := "http listen address is required"
  const HttpHostRequired := "http host is required"
  const HttpPortPositive := "http port must be greater than 0"
  const DifyBaseUrlRequired := "dify base URL is required"
  const DifyApiKeyRequired := "dify API key is required"
  const FuiouKeyRequired := "fuiou merchant key is required"
  const NatsAddressRequired := "nats address is required"
  const PrtgSubjectRequired := "prtg subject is required"
  const WeixinCorpIdRequired := "weixin corp ID is required when enabled"
  const WebHookKeyRequired := "workwx webhook key is required"
  const WorkwxAddressRequired := "workwx app address is required"
  const WorkwxSecretRequired := "workwx app corp secret is required"
  const WorkwxAgentIdPositive := "workwx app agent ID must be greater than 0"
  const WorkwxTokenRequired := "workwx app token is required"
  const IpWhiteListEmpty := "IP whitelist is enabled but no IPs are provided"

  // ---------------------------------------------------------------------
  // etcd and the application root config
  // ---------------------------------------------------------------------

  datatype TlsConfig = TlsConfig(certFile: string, keyFile: string, caFile: string)

  /** `dialTimeout` is a time.Duration: a count of nanoseconds. */
  datatype EtcdConfig = EtcdConfig(
    endpoints: seq<string>,
    username: string,
    password: string,
    dialTimeout: int,
    tls: Option<TlsConfig>,
    prefix: string)
  {
    /** Endpoints present, none of them empty, and a positive timeout, checked in that order. */
    function Validate(): (r: Outcome)
      ensures r == FirstFailure([
        Check(|endpoints| != 0, EtcdEndpointsRequired),
        Check(forall i :: 0 <= i < |endpoints| ==> endpoints[i] != "", EtcdEndpointEmpty),
        Check(dialTimeout > 0, EtcdDialTimeout)])
      ensures r == Fail(EtcdEndpointsRequired) <==> |endpoints| == 0
      ensures r == Fail(EtcdEndpointEmpty) <==> |endpoints| != 0 && exists i :: 0 <= i < |endpoints| && endpoints[i] == ""
      ensures r == Fail(EtcdDialTimeout) <==>
        |endpoints| != 0 && (forall i :: 0 <= i < |endpoints| ==> endpoints[i] != "") && dialTimeout <= 0
      ensures r == Pass <==>
        |endpoints| != 0 && (forall i :: 0 <= i < |endpoints| ==> endpoints[i] != "") && dialTimeout > 0
    {
      if |endpoints| == 0 then Fail(EtcdEndpointsRequired)
      else if "" in endpoints then Fail(EtcdEndpointEmpty)
      else if dialTimeout <= 0 then
        FirstFailureAt([
          Check(|endpoints| != 0, EtcdEndpointsRequired),
          Check(forall i :: 0 <= i < |endpoints| ==> endpoints[i] != "", EtcdEndpointEmpty),
          Check(dialTimeout > 0, EtcdDialTimeout)], 2);
        Fail(EtcdDialTimeout)
      else Pass
    }
  }

  /** Credentials, TLS and the key prefix never influence EtcdConfig.Validate. */
  lemma EtcdIgnoresCredentialsTlsPrefix(a: EtcdConfig, b: EtcdConfig)
    requires a.endpoints == b.endpoints && a.dialTimeout == b.dialTimeout
    ensures a.Validate() == b.Validate()
  {
  }

  datatype LogConfig = LogConfig(level: string, format: string, toFile: bool, directory: string, development: bool)

  datatype AppConfig = AppConfig(appName: string, env: string, etcd: EtcdConfig, logger: LogConfig)
  {
    /**
     * App name, then environment, then a non-empty endpoint list; the nested etcd
     * configuration is NOT validated beyond its endpoint count.
     */
    function Validate(): (r: Outcome)
      ensures r == FirstFailure([
        Check(appName != "", AppNameRequired),
        Check(env != "", AppEnvRequired),
        Check(|etcd.endpoints| != 0, EtcdEndpointsRequired)])
      ensures r == Fail(AppNameRequired) <==> appName == ""
      ensures r == Fail(AppEnvRequired) <==> appName != "" && env == ""
      ensures r == Fail(EtcdEndpointsRequired) <==> appName != "" && env != "" && |etcd.endpoints| == 0
      ensures r == Pass <==> appName != "" && env != "" && |etcd.endpoints| != 0
    {
      if appName == "" then Fail(AppNameRequired)
      else if env == "" then Fail(AppEnvRequired)
      else if |etcd.endpoints| == 0 then
        FirstFailureAt([
          Check(appName != "", AppNameRequired),
          Check(env != "", AppEnvRequired),
          Check(|etcd.endpoints| != 0, EtcdEndpointsRequired)], 2);
        Fail(EtcdEndpointsRequired)
      else Pass
    }
  }

  /** A valid etcd section and the two names make the application config valid. */
  lemma AppValidFromEtcdValid(c: AppConfig)
    requires c.appName != "" && c.env != "" && c.etcd.Validate() == Pass
    ensures c.Validate() == Pass
  {
  }

  /**
   * The converse fails: an application config passes with an empty endpoint string
   * and a zero dial timeout, which EtcdConfig.Validate rejects.
   */
  lemma AppValidDoesNotValidateEtcd()
    ensures var c := AppConfig("myapp", "prod", EtcdConfig([""], "", "", 0, None, "/config"),
                               LogConfig("info", "json", false, "", false));
            c.Validate() == Pass && c.etcd.Validate() == Fail(EtcdEndpointEmpty)
  {
    var e := EtcdConfig([""], "", "", 0, None, "/config");
    assert e.endpoints[0] == "";
  }

  // ---------------------------------------------------------------------
  // Database
  // ---------------------------------------------------------------------

  datatype DatabaseConfig = DatabaseConfig(
    engine: string,
    name: string,
    host: string,
    port: int,
    username: string,
    password: string,
    tablePrefix: string,
    parameters: string,
    maxLifetime: int,
    maxOpenConns: int,
    maxIdleConns: int)
  {
    /** Engine, host, a positive port and the name, in that order. */
    function Validate(): (r: Outcome)
      ensures r == FirstFailure([
        Check(engine != "", DatabaseEngineRequired),
        Check(host != "", DatabaseHostRequired),
        Check(port > 0, DatabasePortPositive),
        Check(name != "", DatabaseNameRequired)])
      ensures r.Fail? <==> engine == "" || host == "" || port <= 0 || name == ""
    {
      ghost var checks := [
        Check(engine != "", DatabaseEngineRequired),
        Check(host != "", DatabaseHostRequired),
        Check(port > 0, DatabasePortPositive),
        Check(name != "", DatabaseNameRequired)];
      if engine == "" then Fail(DatabaseEngineRequired)
      else if host == "" then Fail(DatabaseHostRequired)
      else if port <= 0 then
        FirstFailureAt(checks, 2);
        Fail(DatabasePortPositive)
      else if name == "" then
        FirstFailureAt(checks, 3);
        Fail(DatabaseNameRequired)
      else Pass
    }
  }

  // ---------------------------------------------------------------------
  // HTTP: the two declarations of HttpConfig
  // ---------------------------------------------------------------------

  /** HttpConfig as declared in types.go: a single listen address. */
  datatype HttpListenConfig = HttpListenConfig(listen: string, prefix: string)
  {
    /** Fails exactly when the listen address is empty; the prefix is never checked. */
    function Validate(): (r: Outcome)
      ensures r == FirstFailure([Check(listen != "", HttpListenRequired)])
      ensures r == Pass <==> listen != ""
    {
      if listen == "" then Fail(HttpListenRequired) else Pass
    }
  }

  /** HttpConfig as declared in config_http.go: host and port. */
  datatype HttpConfig = HttpConfig(host: string, port: int, prefix: string)
  {
    /** `host:port`, the port in Go's `%d` form and without any validation. */
    function ListenAddr(): (addr: string)
      ensures SplitLast(addr, ':') == Some((host, FormatInt(port)))
      ensures ParseInt(SplitLast(addr, ':').value.1) == Some(port)
    {
      HostPort(host, port)
    }

    /** The host first, then a positive port; the prefix is never checked. */
    function Validate(): (r: Outcome)
      ensures r == FirstFailure([Check(host != "", HttpHostRequired), Check(port > 0, HttpPortPositive)])
      ensures r == Fail(HttpHostRequired) <==> host == ""
      ensures r == Pass <==> host != "" && port > 0
    {
      if host == "" then Fail(HttpHostRequired)
      else if port <= 0 then Fail(HttpPortPositive)
      else Pass
    }
  }

  /**
   * fmt.Sprintf("%s:%d", host, port). Splitting at the last ':' gives back the host
   * and the rendered port, which parses back to the port, whatever the host holds.
   */
  function HostPort(host: string, port: int): (addr: string)
    ensures SplitLast(addr, ':') == Some((host, FormatInt(port)))
    ensures ParseInt(SplitLast(addr, ':').value.1) == Some(port)
  {
    var digits := FormatInt(port);
    assert ':' !in digits by {
      forall i | 0 <= i < |digits| ensures digits[i] != ':' {
        assert IsDigit(digits[i]) || digits[i] == '-';
      }
    }
    SplitLastAt(host, digits, ':');
    FormatIntRoundTrip(port);
    host + ":" + digits
  }

  /** ListenAddr renders a non-positive port as it is; Validate would reject it. */
  lemma ListenAddrDoesNotValidate()
    ensures HttpConfig("", -1, "").ListenAddr() == ":-1"
    ensures HttpConfig("", -1, "").Validate() == Fail(HttpHostRequired)
  {
    assert FormatInt(-1) == "-1";
  }

  // ---------------------------------------------------------------------
  // Redis
  // ---------------------------------------------------------------------

  datatype RedisConfig = RedisConfig(host: string, port: int, password: string, keyPrefix: string, mainDbId: int)
  {
    /** `host:port` like ListenAddr: no validation, a negative port keeps its '-'. */
    function Addr(): (addr: string)
      ensures SplitLast(addr, ':') == Some((host, FormatInt(port)))
      ensures ParseInt(SplitLast(addr, ':').value.1) == Some(port)
      ensures port < 0 <==> addr[|host| + 1] == '-'
    {
      HostPort(host, port)
    }
  }

  /** Password, key prefix and database index never influence Addr. */
  lemma RedisAddrIgnoresOtherFields(a: RedisConfig, b: RedisConfig)
    requires a.host == b.host && a.port == b.port
    ensures a.Addr() == b.Addr()
  {
  }

  /** An empty host yields just ':' and the port. */
  lemma RedisAddrEmptyHost(c: RedisConfig)
    requires c.host == ""
    ensures c.Addr() == ":" + FormatInt(c.port)
  {
  }

  // ---------------------------------------------------------------------
  // Dify, Fuiou, NATS, PRTG
  // ---------------------------------------------------------------------

  datatype DifyConfig = DifyConfig(
    baseUrl: string,
    apiKey: string,
    cachePeriod: string,
    defaultPrompt: string,
    botType: string,
    workflowId: string)
  {
    /** Base URL first, then API key. */
    function Validate(): (r: Outcome)
      ensures r == FirstFailure([Check(baseUrl != "", DifyBaseUrlRequired), Check(apiKey != "", DifyApiKeyRequired)])
      ensures r == Fail(DifyBaseUrlRequired) <==> baseUrl == ""
      ensures r == Fail(DifyApiKeyRequired) <==> baseUrl != "" && apiKey == ""
      ensures r == Pass <==> baseUrl != "" && apiKey != ""
    {
      if baseUrl == "" then Fail(DifyBaseUrlRequired)
      else if apiKey == "" then Fail(DifyApiKeyRequired)
      else Pass
    }
  }

  /** Cache period, default prompt, bot type and workflow id never influence Validate. */
  lemma DifyDependsOnUrlAndKey(a: DifyConfig, b: DifyConfig)
    requires a.baseUrl == b.baseUrl && a.apiKey == b.apiKey
    ensures a.Validate() == b.Validate()
  {
  }

  datatype FuiouConfig = FuiouConfig(mchntKey: string)
  {
    function Validate(): (r: Outcome)
      ensures r == FirstFailure([Check(mchntKey != "", FuiouKeyRequired)])
      ensures r == Pass <==> mchntKey != ""
    {
      if mchntKey == "" then Fail(FuiouKeyRequired) else Pass
    }
  }

  datatype NatsConfig = NatsConfig(address: string, username: string, password: string, subscribes: seq<string>)
  {
    function Validate(): (r: Outcome)
      ensures r == FirstFailure([Check(address != "", NatsAddressRequired)])
      ensures r == Pass <==> address != ""
    {
      if address == "" then Fail(NatsAddressRequired) else Pass
    }
  }

  /** Username, password and subscriptions never influence NatsConfig.Validate. */
  lemma NatsDependsOnAddress(a: NatsConfig, b: NatsConfig)
    requires a.address == b.address
    ensures a.Validate() == b.Validate()
  {
  }

  datatype PrtgConfig = PrtgConfig(subject: string)
  {
    function Validate(): (r: Outcome)
      ensures r == FirstFailure([Check(subject != "", PrtgSubjectRequired)])
      ensures r == Pass <==> subject != ""
    {
      if subject == "" then Fail(PrtgSubjectRequired) else Pass
    }
  }

  // ---------------------------------------------------------------------
  // WeChat Work
  // ---------------------------------------------------------------------

  datatype WorkwxWebHookConfig = WorkwxWebHookConfig(key: string, subscribe: string)
  {
    /** Fails exactly when the key is empty; the subject is never checked. */
    function Validate(): (r: Outcome)
      ensures r == FirstFailure([Check(key != "", WebHookKeyRequired)])
      ensures r == Pass <==> key != ""
    {
      if key == "" then Fail(WebHookKeyRequired) else Pass
    }
  }

  /** `agentId` is a Go int64. */
  datatype WorkwxAppConfig = WorkwxAppConfig(
    address: string,
    corpSecret: string,
    agentId: int,
    token: string,
    encodingAesKey: string,
    txSubscribe: string,
    rxSubscribe: string)
  {
    /** Address, corp secret, a positive agent id and the token, in that order. */
    function Validate(): (r: Outcome)
      ensures r == FirstFailure([
        Check(address != "", WorkwxAddressRequired),
        Check(corpSecret != "", WorkwxSecretRequired),
        Check(agentId > 0, WorkwxAgentIdPositive),
        Check(token != "", WorkwxTokenRequired)])
      ensures r == Pass <==> address != "" && corpSecret != "" && agentId > 0 && token != ""
    {
      ghost var checks := [
        Check(address != "", WorkwxAddressRequired),
        Check(corpSecret != "", WorkwxSecretRequired),
        Check(agentId > 0, WorkwxAgentIdPositive),
        Check(token != "", WorkwxTokenRequired)];
      if address == "" then Fail(WorkwxAddressRequired)
      else if corpSecret == "" then Fail(WorkwxSecretRequired)
      else if agentId <= 0 then
        FirstFailureAt(checks, 2);
        Fail(WorkwxAgentIdPositive)
      else if token == "" then
        FirstFailureAt(checks, 3);
        Fail(WorkwxTokenRequired)
      else Pass
    }
  }

  /** The AES key and the two subjects never influence WorkwxAppConfig.Validate. */
  lemma WorkwxAppIgnoresKeyAndSubjects(a: WorkwxAppConfig, b: WorkwxAppConfig)
    requires a.address == b.address && a.corpSecret == b.corpSecret
    requires a.agentId == b.agentId && a.token == b.token
    ensures a.Validate() == b.Validate()
  {
  }

  datatype WeixinConfig = WeixinConfig(
    enabled: bool,
    corpId: string,
    webHook: WorkwxWebHookConfig,
    app: WorkwxAppConfig,
    qyapiHostOverride: string,
    tlsKeyLogFile: string)
  {
    /** Fails exactly when enabled without a corp id; the nested configs are not validated. */
    function Validate(): (r: Outcome)
      ensures r == FirstFailure([Check(!(enabled && corpId == ""), WeixinCorpIdRequired)])
      ensures r.Fail? <==> enabled && corpId == ""
      ensures !enabled ==> r == Pass
    {
      if enabled && corpId == "" then Fail(WeixinCorpIdRequired) else Pass
    }
  }

  /** An enabled config with a corp id passes even when both nested configs fail. */
  lemma WeixinIgnoresNested(c: WeixinConfig)
    requires c.corpId != ""
    ensures c.Validate() == Pass
  {
  }

  // ---------------------------------------------------------------------
  // Middleware
  // ---------------------------------------------------------------------

  datatype IpWhiteListConfig = IpWhiteListConfig(enabled: bool, whiteList: seq<string>)
  {
    /** Fails exactly when enabled with no entries; the entries are never inspected. */
    function Validate(): (r: Outcome)
      ensures r == FirstFailure([Check(!(enabled && |whiteList| == 0), IpWhiteListEmpty)])
      ensures r.Fail? <==> enabled && |whiteList| == 0
    {
      if enabled && |whiteList| == 0 then Fail(IpWhiteListEmpty) else Pass
    }
  }

  datatype MiddleConfig = MiddleConfig(ipWhiteList: IpWhiteListConfig)
  {
    /** Exactly the whitelist's own result. */
    function Validate(): (r: Outcome)
      ensures r == FirstFailure([Check(!(ipWhiteList.enabled && |ipWhiteList.whiteList| == 0), IpWhiteListEmpty)])
    {
      ipWhiteList.Validate()
    }
  }

  /** Any non-empty whitelist validates, even one holding an empty entry. */
  lemma WhiteListEntriesNotInspected(c: MiddleConfig)
    requires |c.ipWhiteList.whiteList| > 0
    ensures c.Validate() == Pass
  {
  }
}
