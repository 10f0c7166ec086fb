/**
 * Configuration resolution and client set-up (jirahhh/client.py): where the
 * token, URL, proxy, custom-field ids and security level come from, whether
 * name resolution is restricted to IPv4, and the process-wide IPv4 switch.
 *
 * The process environment and the loaded configuration are parameters. A
 * configuration of `None` and an empty one behave alike in every getter
 * (each tests `if config`), so both are the empty map here.
 */
module Client {
  import opened Wrappers
  import opened Values
  import opened Errors

  /** The process environment: variable name to value. */
  type Environ = map<string, string>

  /** The top-level mapping of the configuration file. */
  type Config = map<string, Value>

  const IPV4_ONLY_VAR := "JIRAHHH_IPV4_ONLY"
  const TOKEN_VAR := "JIRA_API_TOKEN"
  const URL_VAR := "JIRA_URL"
  const HTTPS_PROXY_VAR := "HTTPS_PROXY"
  const HTTP_PROXY_VAR := "HTTP_PROXY"

  /** Switch words that force IPv4-only mode on, and off, once lower-cased. */
  const IPV4_ON_WORDS: set<string> := {"1", "true", "yes"}
  const IPV4_OFF_WORDS: set<string> := {"0", "false", "no"}

  /** The address family number of IPv4 (`socket.AF_INET`). */
  const AF_INET := 2

  /** `os.getenv(name)` is truthy: the variable is set and not empty. */
  predicate EnvSet(environ: Environ, name: string) {
    name in environ && environ[name] != ""
  }

  // ---------------------------------------------------------------------------
  // IPv4-only decision

  /** `os.environ.get("JIRAHHH_IPV4_ONLY", "").lower()` */
  function Ipv4Switch(environ: Environ): string {
    Lower(if IPV4_ONLY_VAR in environ then environ[IPV4_ONLY_VAR] else "")
  }

  /** The configuration's top-level `ipv4_only` flag is set to a truthy value. */
  predicate ConfigIpv4Only(config: Config) {
    "ipv4_only" in config && Truthy(config["ipv4_only"])
  }

  /**
   * Whether IPv4-only mode should be enabled: an on or off word in the
   * environment decides regardless of the configuration; any other value,
   * the empty one included, defers to the configuration's flag.
   */
  function ShouldUseIpv4Only(environ: Environ, config: Config): (r: bool)
    ensures Ipv4Switch(environ) in IPV4_ON_WORDS ==> r
    ensures Ipv4Switch(environ) in IPV4_OFF_WORDS ==> !r
    ensures Ipv4Switch(environ) !in IPV4_ON_WORDS + IPV4_OFF_WORDS ==> (r <==> ConfigIpv4Only(config))
  {
    var switch := Ipv4Switch(environ);
    if switch == "1" || switch == "true" || switch == "yes" then true
    else if switch == "0" || switch == "false" || switch == "no" then false
    else |config| > 0 && Truthy(Get(config, "ipv4_only", VNone))
  }

  /** The switch is case-insensitive: "TRUE" turns the mode on although the configuration turns it off. */
  lemma Ipv4SwitchIgnoresCase()
    ensures ShouldUseIpv4Only(map[IPV4_ONLY_VAR := "TRUE"], map["ipv4_only" := VBool(false)])
    ensures !ShouldUseIpv4Only(map[IPV4_ONLY_VAR := "No"], map["ipv4_only" := VBool(true)])
  {
    assert Lower("TRUE") == "true";
    assert Lower("No") == "no";
  }

  // ---------------------------------------------------------------------------
  // The IPv4 filter over name-resolution results

  /** One result of `getaddrinfo`: family, socket type, protocol, canonical name and address. */
  datatype AddrInfo = AddrInfo(family: int, sockType: int, proto: int, canonName: string, host: string, port: int)

  /** `[r for r in results if r[0] == socket.AF_INET]` */
  function Ipv4Filter(results: seq<AddrInfo>): (r: seq<AddrInfo>)
    ensures forall a :: a in r <==> a in results && a.family == AF_INET
    ensures |r| <= |results|
    decreases |results|
  {
    if results == [] then []
    else (if results[0].family == AF_INET then [results[0]] else []) + Ipv4Filter(results[1..])
  }

  /** Filtering a concatenation filters each part and keeps them in order. */
  lemma {:induction false} Ipv4FilterAppend(a: seq<AddrInfo>, b: seq<AddrInfo>)
    ensures Ipv4Filter(a + b) == Ipv4Filter(a) + Ipv4Filter(b)
    decreases |a|
  {
    if a == [] {
      assert a + b == b;
    } else {
      assert (a + b)[0] == a[0];
      assert (a + b)[1..] == a[1..] + b;
      Ipv4FilterAppend(a[1..], b);
    }
  }

  /** Each IPv4 result is kept as often as it occurs, every other result is dropped. */
  lemma {:induction false} Ipv4FilterCount(results: seq<AddrInfo>, a: AddrInfo)
    ensures multiset(Ipv4Filter(results))[a] == if a.family == AF_INET then multiset(results)[a] else 0
    decreases |results|
  {
    if results != [] {
      Ipv4FilterCount(results[1..], a);
      assert results == [results[0]] + results[1..];
    }
  }

  /** Results that are all IPv4 pass unchanged; in particular filtering is idempotent. */
  lemma {:induction false} Ipv4FilterKeepsIpv4(results: seq<AddrInfo>)
    requires forall i :: 0 <= i < |results| ==> results[i].family == AF_INET
    ensures Ipv4Filter(results) == results
    decreases |results|
  {
    if results != [] {
      Ipv4FilterKeepsIpv4(results[1..]);
    }
  }

  lemma Ipv4FilterIdempotent(results: seq<AddrInfo>)
    ensures Ipv4Filter(Ipv4Filter(results)) == Ipv4Filter(results)
  {
    var r := Ipv4Filter(results);
    forall i | 0 <= i < |r| ensures r[i].family == AF_INET {
      assert r[i] in r;
    }
    Ipv4FilterKeepsIpv4(r);
  }

  // ---------------------------------------------------------------------------
  // Proxy selection in get_jira_client

  /** The `proxies` dict handed to the client: one URL for both schemes. */
  function BothSchemes(url: Value): map<string, Value> {
    map["http" := url, "https" := url]
  }

  /**
   * The proxies for the client: an explicit proxy wins, then HTTPS_PROXY,
   * then HTTP_PROXY (each only when non-empty), otherwise none; whichever is
   * chosen serves both "http" and "https".
   */
  function Proxies(proxyUrl: Value, environ: Environ): (r: Option<map<string, Value>>)
    ensures r.Some? <==> Truthy(proxyUrl) || EnvSet(environ, HTTPS_PROXY_VAR) || EnvSet(environ, HTTP_PROXY_VAR)
    ensures r.Some? ==> r.value.Keys == {"http", "https"} && r.value["http"] == r.value["https"] && Truthy(r.value["https"])
    ensures Truthy(proxyUrl) ==> r == Some(BothSchemes(proxyUrl))
    ensures !Truthy(proxyUrl) && EnvSet(environ, HTTPS_PROXY_VAR) ==> r == Some(BothSchemes(VStr(environ[HTTPS_PROXY_VAR])))
    ensures !Truthy(proxyUrl) && !EnvSet(environ, HTTPS_PROXY_VAR) && EnvSet(environ, HTTP_PROXY_VAR)
      ==> r == Some(BothSchemes(VStr(environ[HTTP_PROXY_VAR])))
  {
    if Truthy(proxyUrl) then Some(BothSchemes(proxyUrl))
    else if EnvSet(environ, HTTPS_PROXY_VAR) then Some(BothSchemes(VStr(environ[HTTPS_PROXY_VAR])))
    else if EnvSet(environ, HTTP_PROXY_VAR) then Some(BothSchemes(VStr(environ[HTTP_PROXY_VAR])))
    else None
  }

  /** What `get_jira_client` hands to the `JIRA` constructor. */
  datatype ClientOptions = ClientOptions(options: map<string, Value>, tokenAuth: Value, proxies: Option<map<string, Value>>)

  /** Which `socket.getaddrinfo` is installed in the process. */
  datatype Resolver = SystemResolver | Ipv4OnlyResolver

  /**
   * The process-wide state client.py keeps: the `_ipv4_only_enabled` flag
   * and the name-resolution function it patches.
   */
  class Process {
    var ipv4OnlyEnabled: bool
    var getaddrinfo: Resolver

    /** The flag records exactly whether resolution has been patched. */
    ghost predicate Valid()
      reads this
    {
      ipv4OnlyEnabled <==> getaddrinfo == Ipv4OnlyResolver
    }

    /** A fresh process: nothing patched. */
    constructor ()
      ensures Valid() && !ipv4OnlyEnabled && getaddrinfo == SystemResolver
    {
      ipv4OnlyEnabled := false;
      getaddrinfo := SystemResolver;
    }

    /** Patch resolution to IPv4 once; a later call changes nothing. */
    method EnableIpv4Only()
      requires Valid()
      modifies this
      ensures Valid() && ipv4OnlyEnabled && getaddrinfo == Ipv4OnlyResolver
      ensures old(ipv4OnlyEnabled) ==> unchanged(this)
    {
      if !ipv4OnlyEnabled {
        getaddrinfo := Ipv4OnlyResolver;
        ipv4OnlyEnabled := true;
      }
    }

    /** Resolve through the installed function, given what the system resolver answers. */
    method GetAddrInfo(system: seq<AddrInfo>) returns (r: seq<AddrInfo>)
      requires Valid()
      ensures ipv4OnlyEnabled ==> r == Ipv4Filter(system)
      ensures !ipv4OnlyEnabled ==> r == system
    {
      match getaddrinfo
      case SystemResolver => r := system;
      case Ipv4OnlyResolver => r := Ipv4Filter(system);
    }

    /**
     * `get_jira_client`: choose the proxies, enable IPv4-only mode when asked
     * for, and build the options for a token-authenticated client.
     */
    method GetJiraClient(jiraUrl: Value, apiToken: Value, proxyUrl: Value, environ: Environ, config: Config)
      returns (client: ClientOptions)
      requires Valid()
      modifies this
      ensures Valid()
      ensures ipv4OnlyEnabled == (old(ipv4OnlyEnabled) || ShouldUseIpv4Only(environ, config))
      ensures !ShouldUseIpv4Only(environ, config) ==> unchanged(this)
      ensures client.options == map["server" := jiraUrl, "verify" := VBool(true)]
      ensures client.tokenAuth == apiToken
      ensures client.proxies == Proxies(proxyUrl, environ)
    {
      var proxies: Option<map<string, Value>> := None;
      if Truthy(proxyUrl) {
        proxies := Some(map["http" := proxyUrl, "https" := proxyUrl]);
      } else if EnvSet(environ, HTTPS_PROXY_VAR) || EnvSet(environ, HTTP_PROXY_VAR) {
        var envProxy := if EnvSet(environ, HTTPS_PROXY_VAR) then environ[HTTPS_PROXY_VAR] else environ[HTTP_PROXY_VAR];
        proxies := Some(map["http" := VStr(envProxy), "https" := VStr(envProxy)]);
      }
      var jiraOptions := map["server" := jiraUrl, "verify" := VBool(true)];
      if ShouldUseIpv4Only(environ, config) {
        EnableIpv4Only();
      }
      client := ClientOptions(jiraOptions, apiToken, proxies);
    }
  }

  // ---------------------------------------------------------------------------
  // Getters

  /** `config.get(env, {})`, which the callers then read with `.get`: anything but a mapping raises. */
  function Section(config: Config, env: string): Result<map<string, Value>, Error> {
    if env !in config then Success(map[])
    else if config[env].VMap? then Success(config[env].entries)
    else Failure(NotAMapping(env))
  }

  /** `config.get(env, {})` can be read with `.get`: absent or a mapping. */
  predicate SectionReadable(config: Config, env: string) {
    env !in config || config[env].VMap?
  }

  /** `config[env][key]` exists and is truthy. */
  predicate HasSetting(config: Config, env: string, key: string) {
    env in config && config[env].VMap? && key in config[env].entries && Truthy(config[env].entries[key])
  }

  /** The value of `config[env][key]`, for use where HasSetting holds. */
  function Setting(config: Config, env: string, key: string): Value
    requires HasSetting(config, env, key)
  {
    config[env].entries[key]
  }

  /** The rule get_api_token and get_jira_url share: a non-empty variable, else `config[env][key]`, else an error. */
  function FromEnvOrConfig(environ: Environ, variable: string, config: Config, env: string, key: string): Result<Value, Error> {
    if EnvSet(environ, variable) then Success(VStr(environ[variable]))
    else if |config| == 0 then Failure(MissingSetting(variable, env, key))
    else
      match Section(config, env)
      case Failure(e) => Failure(e)
      case Success(section) =>
        var found := Get(section, key, VNone);
        if Truthy(found) then Success(found) else Failure(MissingSetting(variable, env, key))
  }

  /** `get_api_token`: JIRA_API_TOKEN when non-empty, else `config[env].token`, else MissingSetting. */
  function GetApiToken(environ: Environ, env: string, config: Config): (r: Result<Value, Error>)
    ensures EnvSet(environ, TOKEN_VAR) ==> r == Success(VStr(environ[TOKEN_VAR]))
    ensures !EnvSet(environ, TOKEN_VAR) && HasSetting(config, env, "token") ==> r == Success(Setting(config, env, "token"))
    ensures !EnvSet(environ, TOKEN_VAR) && !SectionReadable(config, env) ==> r == Failure(NotAMapping(env))
    ensures !EnvSet(environ, TOKEN_VAR) && SectionReadable(config, env) && !HasSetting(config, env, "token")
      ==> r == Failure(MissingSetting(TOKEN_VAR, env, "token"))
    ensures r.Success? ==> Truthy(r.value)
  {
    FromEnvOrConfig(environ, TOKEN_VAR, config, env, "token")
  }

  /** `get_jira_url`: JIRA_URL when non-empty, else `config[env].url`, else MissingSetting. */
  function GetJiraUrl(environ: Environ, env: string, config: Config): (r: Result<Value, Error>)
    ensures EnvSet(environ, URL_VAR) ==> r == Success(VStr(environ[URL_VAR]))
    ensures !EnvSet(environ, URL_VAR) && HasSetting(config, env, "url") ==> r == Success(Setting(config, env, "url"))
    ensures !EnvSet(environ, URL_VAR) && !SectionReadable(config, env) ==> r == Failure(NotAMapping(env))
    ensures !EnvSet(environ, URL_VAR) && SectionReadable(config, env) && !HasSetting(config, env, "url")
      ==> r == Failure(MissingSetting(URL_VAR, env, "url"))
    ensures r.Success? ==> Truthy(r.value)
  {
    FromEnvOrConfig(environ, URL_VAR, config, env, "url")
  }

  /** `get_proxy_url`: `config[env].proxy`, or None; no environment variable is consulted. */
  function GetProxyUrl(env: string, config: Config): (r: Result<Value, Error>)
    ensures !SectionReadable(config, env) <==> r.Failure?
    ensures !SectionReadable(config, env) ==> r == Failure(NotAMapping(env))
    ensures env in config && config[env].VMap? && "proxy" in config[env].entries ==> r == Success(config[env].entries["proxy"])
    ensures SectionReadable(config, env) && !(env in config && "proxy" in config[env].entries) ==> r == Success(VNone)
  {
    if |config| > 0 then
      var section :- Section(config, env);
      Success(Get(section, "proxy", VNone))
    else Success(VNone)
  }

  /** `get_custom_fields`: the top-level `custom_fields` entry as it is, else an empty mapping. */
  function GetCustomFields(config: Config): (r: Value)
    ensures "custom_fields" in config ==> r == config["custom_fields"]
    ensures "custom_fields" !in config ==> r == VMap(map[])
  {
    if |config| > 0 && "custom_fields" in config then config["custom_fields"] else VMap(map[])
  }

  /** The mapping is global: no environment's own entry can change it. */
  lemma CustomFieldsIgnoreEnvironments(config: Config, env: string, section: Value)
    requires env != "custom_fields"
    ensures GetCustomFields(config[env := section]) == GetCustomFields(config)
  {
  }

  /** `get_security_level`: `security_levels[levelName]` from the top level, or None. */
  function GetSecurityLevel(levelName: string, config: Config): (r: Result<Value, Error>)
    ensures "security_levels" !in config ==> r == Success(VNone)
    ensures "security_levels" in config && !config["security_levels"].VMap? ==> r == Failure(NotAMapping("security_levels"))
    ensures "security_levels" in config && config["security_levels"].VMap?
      ==> r == Success(Get(config["security_levels"].entries, levelName, VNone))
  {
    if |config| > 0 && "security_levels" in config then
      match config["security_levels"]
      case VMap(levels) => Success(Get(levels, levelName, VNone))
      case _ => Failure(NotAMapping("security_levels"))
    else Success(VNone)
  }

  /** Security levels are global too: no environment's own entry can change the lookup. */
  lemma SecurityLevelIgnoresEnvironments(levelName: string, config: Config, env: string, section: Value)
    requires env != "security_levels"
    ensures GetSecurityLevel(levelName, config[env := section]) == GetSecurityLevel(levelName, config)
  {
  }
}
