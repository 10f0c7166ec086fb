/**
 * The override rules the command line applies on top of the client's
 * getters: a truthy `--url`, `--proxy` or `--env` wins, and the environment
 * name otherwise falls back to the config's `default_env`.
 */
module Cli {
  import opened Wrappers
  import opened Values
  import opened Errors
  import opened Client

  /** The tracker URL: a non-empty `--url`, else `get_jira_url`. */
  function JiraUrlFor(cliUrl: Option<string>, environ: Environ, env: string, config: Config): (r: Result<Value, Error>)
    ensures Given(cliUrl) ==> r == Success(VStr(cliUrl.value))
    ensures !Given(cliUrl) ==> r == GetJiraUrl(environ, env, config)
    ensures r.Success? ==> Truthy(r.value)
  {
    if Given(cliUrl) then Success(VStr(cliUrl.value)) else GetJiraUrl(environ, env, config)
  }

  /** The proxy: a non-empty `--proxy`, else the environment's `proxy` setting. */
  function ProxyFor(cliProxy: Option<string>, env: string, config: Config): (r: Result<Value, Error>)
    ensures Given(cliProxy) ==> r == Success(VStr(cliProxy.value))
    ensures !Given(cliProxy) ==> r == GetProxyUrl(env, config)
  {
    if Given(cliProxy) then Success(VStr(cliProxy.value)) else GetProxyUrl(env, config)
  }

  /**
   * The environment name: a non-empty `--env`; else a truthy `default_env`
   * of the loaded configuration; else an error. `loaded` is what the
   * configuration file loads as: None when it holds no mapping (an empty
   * file loads as None), and then reading `default_env` raises.
   */
  function EnvName(cliEnv: Option<string>, loaded: Option<Config>): (r: Result<Value, Error>)
    ensures Given(cliEnv) ==> r == Success(VStr(cliEnv.value))
    ensures !Given(cliEnv) && loaded.None? ==> r == Failure(ConfigNotAMapping)
    ensures !Given(cliEnv) && loaded.Some? ==>
      r == if Truthy(Get(loaded.value, "default_env", VNone)) then Success(loaded.value["default_env"])
           else Failure(EnvRequired)
    ensures r.Success? ==> Truthy(r.value)
  {
    if Given(cliEnv) then Success(VStr(cliEnv.value))
    else if loaded.None? then Failure(ConfigNotAMapping)
    else
      var fallback := Get(loaded.value, "default_env", VNone);
      if Truthy(fallback) then Success(fallback) else Failure(EnvRequired)
  }

  /** A command-line proxy makes the client use it for both schemes, whatever HTTPS_PROXY says. */
  lemma CliProxyWins(cliProxy: string, env: string, config: Config, environ: Environ)
    requires cliProxy != ""
    ensures var p := ProxyFor(Some(cliProxy), env, config);
      p.Success? && Proxies(p.value, environ) == Some(map["http" := VStr(cliProxy), "https" := VStr(cliProxy)])
  {
  }
}
