/** Configuration management (shared/config.py): which environment variables are kept, the
    required fields and the value ranges checked on load, the cached configuration, the
    masked example file and the module's single manager. The process environment is a
    parameter (after `.env` has been merged into it); files are not modelled. */
module Config {
  import opened Wrappers
  import opened Text
  import opened Types
  import opened Lex

  const RelevantPrefixes: seq<string> := [
    "WALLET_", "HOTKEY_", "NETWORK", "SUBNET_", "API_",
    "VALIDATOR_", "MINER_", "LOG_", "WANDB_",
    "MAX_", "REQUEST_", "RESPONSE_", "CACHE_",
    "OPENAI_", "ANTHROPIC_", "COINGECKO_", "ALPHAAVANTAGE_",
    "CONSENSUS_", "MIN_", "QUERY_", "VERIFICATION_"]

  /** The key names a secret: its upper-cased form contains PASSWORD, KEY or SECRET. */
  predicate Sensitive(key: string) {
    var upper := ToUpper(key);
    Contains(upper, "PASSWORD") || Contains(upper, "KEY") || Contains(upper, "SECRET")
  }

  /** `_is_relevant_env_var`: a listed prefix, or a secret. */
  predicate IsRelevant(key: string)
    ensures Sensitive(key) ==> IsRelevant(key)
    ensures IsRelevant(key) ==> |key| >= 3
  {
    (exists i :: 0 <= i < |RelevantPrefixes| && StartsWith(key, RelevantPrefixes[i])) || Sensitive(key)
  }

  /** The variables `SubnetConfig.from_env` reads. */
  const SettingKeys: seq<string> := [
    "WALLET_NAME", "HOTKEY_NAME", "NETWORK", "SUBNET_UID", "API_URL", "VALIDATOR_ID",
    "VALIDATOR_PORT", "QUERY_TIMEOUT", "MIN_MINERS_REQUIRED", "CONSENSUS_THRESHOLD",
    "MINER_AGENT", "MINER_PORT", "VERIFICATION_TIMEOUT", "CACHE_DURATION",
    "MAX_CONCURRENT_REQUESTS", "REQUEST_RATE_LIMIT", "RESPONSE_CACHE_SIZE"]

  /** Every variable the configuration is built from is relevant, so the filter keeps each
      one that is set and non-empty. */
  lemma SettingsRelevant(environ: map<string, string>)
    ensures forall j :: 0 <= j < |SettingKeys| ==> IsRelevant(SettingKeys[j])
    ensures forall j :: 0 <= j < |SettingKeys| && SettingKeys[j] in environ && environ[SettingKeys[j]] != "" ==>
      SettingKeys[j] in EnvFilter(environ) && EnvFilter(environ)[SettingKeys[j]] == environ[SettingKeys[j]]
  {
    forall j | 0 <= j < |SettingKeys| ensures IsRelevant(SettingKeys[j]) {
      SettingRelevant(j);
    }
  }

  /** The index of the listed prefix each setting starts with. */
  const SettingPrefix: seq<nat> := [0, 1, 2, 3, 4, 5, 5, 19, 18, 17, 6, 6, 20, 12, 9, 10, 11]

  /** One setting starts with its listed prefix. */
  lemma SettingRelevant(j: nat)
    requires j < |SettingKeys|
    ensures IsRelevant(SettingKeys[j])
  {
    var i := SettingPrefix[j];
    var k, p := SettingKeys[j], RelevantPrefixes[i];
    if j == 0 { assert k[..|p|] == p; }
    else if j == 1 { assert k[..|p|] == p; }
    else if j == 2 { assert k[..|p|] == p; }
    else if j == 3 { assert k[..|p|] == p; }
    else if j == 4 { assert k[..|p|] == p; }
    else if j == 5 { assert k[..|p|] == p; }
    else if j == 6 { assert k[..|p|] == p; }
    else if j == 7 { assert k[..|p|] == p; }
    else if j == 8 { assert k[..|p|] == p; }
    else if j == 9 { assert k[..|p|] == p; }
    else if j == 10 { assert k[..|p|] == p; }
    else if j == 11 { assert k[..|p|] == p; }
    else if j == 12 { assert k[..|p|] == p; }
    else if j == 13 { assert k[..|p|] == p; }
    else if j == 14 { assert k[..|p|] == p; }
    else if j == 15 { assert k[..|p|] == p; }
    else { assert k[..|p|] == p; }
    assert StartsWith(k, p);
  }

  /** The environment dict `load` builds: the relevant keys with non-empty values. */
  function EnvFilter(environ: map<string, string>): (env: map<string, string>)
    ensures forall k :: k in env <==> k in environ && IsRelevant(k) && environ[k] != ""
    ensures forall k :: k in env ==> env[k] == environ[k]
  {
    map k | k in environ && IsRelevant(k) && environ[k] != "" :: environ[k]
  }

  /** Filtering keeps only what a second filtering keeps: it is idempotent, and it only
      ever removes entries. */
  lemma EnvFilterIdempotent(environ: map<string, string>)
    ensures EnvFilter(EnvFilter(environ)) == EnvFilter(environ)
    ensures EnvFilter(environ).Keys <= environ.Keys
  {
  }

  /** `_validate_required_fields`: the first of WALLET_NAME, HOTKEY_NAME and API_URL that
      is absent raises. */
  function RequiredFields(env: map<string, string>): (r: Option<Exception>)
    ensures r.None? <==> "WALLET_NAME" in env && "HOTKEY_NAME" in env && "API_URL" in env
    ensures "WALLET_NAME" !in env ==> r == Some(Exception("WALLET_NAME is required"))
    ensures "WALLET_NAME" in env && "HOTKEY_NAME" !in env ==> r == Some(Exception("HOTKEY_NAME is required"))
    ensures "WALLET_NAME" in env && "HOTKEY_NAME" in env && "API_URL" !in env ==>
      r == Some(Exception("API_URL is required"))
  {
    if "WALLET_NAME" !in env then Some(Exception("WALLET_NAME is required"))
    else if "HOTKEY_NAME" !in env then Some(Exception("HOTKEY_NAME is required"))
    else if "API_URL" !in env then Some(Exception("API_URL is required"))
    else None
  }

  const ValidNetworks: set<string> := {"finney", "test", "local"}

  /** The ranges `_validate_config` demands. */
  predicate ValidConfig(c: SubnetConfig) {
    c.network in ValidNetworks && 0.0 <= c.consensusThreshold <= 1.0
    && c.minMinersRequired >= 1 && c.queryTimeout >= 1
  }

  /** `_validate_config`: the first violated range raises, checked in the order network,
      threshold, miners, timeout. */
  function ValidateConfig(c: SubnetConfig): (r: Option<Exception>)
    ensures r.None? <==> ValidConfig(c)
    ensures c.network !in ValidNetworks ==>
      r == Some(Exception("NETWORK must be one of ['finney', 'test', 'local']"))
    ensures c.network in ValidNetworks && !(0.0 <= c.consensusThreshold <= 1.0) ==>
      r == Some(Exception("CONSENSUS_THRESHOLD must be between 0 and 1"))
  {
    if c.network !in ValidNetworks then Some(Exception("NETWORK must be one of ['finney', 'test', 'local']"))
    else if c.consensusThreshold < 0.0 || c.consensusThreshold > 1.0 then
      Some(Exception("CONSENSUS_THRESHOLD must be between 0 and 1"))
    else if c.minMinersRequired < 1 then Some(Exception("MIN_MINERS_REQUIRED must be at least 1"))
    else if c.queryTimeout < 1 then Some(Exception("QUERY_TIMEOUT must be at least 1 second"))
    else None
  }

  /** What a manager holds: the filtered environment and the cached configuration. */
  datatype ManagerState = ManagerState(envDict: map<string, string>, config: Option<SubnetConfig>)

  /** `load` as written: a cached configuration is returned at once; otherwise the
      environment is filtered and stored, the required fields checked, the configuration
      built, CACHED, and only then validated. */
  function LoadedAsWritten(st: ManagerState, environ: map<string, string>): (r: (ManagerState, Result<SubnetConfig>))
    ensures st.config.Some? ==> r == (st, Ok(st.config.value))
    ensures st.config.None? ==> r.0.envDict == EnvFilter(environ)
    ensures st.config.None? && r.1.Ok? ==> r.0.config == Some(r.1.value) && ValidConfig(r.1.value)
  {
    if st.config.Some? then (st, Ok(st.config.value))
    else
      var env := EnvFilter(environ);
      match RequiredFields(env)
      case Some(e) => (ManagerState(env, None), Err(e))
      case None =>
        match FromEnv(env)
        case Err(e) => (ManagerState(env, None), Err(e))
        case Ok(c) =>
          match ValidateConfig(c)
          case Some(e) => (ManagerState(env, Some(c)), Err(e))
          case None => (ManagerState(env, Some(c)), Ok(c))
  }

  /** `load` as evidently intended: a configuration is cached only once it has passed
      validation. */
  function Loaded(st: ManagerState, environ: map<string, string>): (r: (ManagerState, Result<SubnetConfig>))
    ensures st.config.Some? ==> r == (st, Ok(st.config.value))
    ensures st.config.None? ==> r.0.envDict == EnvFilter(environ)
    ensures st.config.None? ==> (r.0.config.Some? <==> r.1.Ok?)
    ensures st.config.None? && r.1.Ok? ==> r.0.config == Some(r.1.value) && ValidConfig(r.1.value)
  {
    if st.config.Some? then (st, Ok(st.config.value))
    else
      var env := EnvFilter(environ);
      match RequiredFields(env)
      case Some(e) => (ManagerState(env, None), Err(e))
      case None =>
        match FromEnv(env)
        case Err(e) => (ManagerState(env, None), Err(e))
        case Ok(c) =>
          match ValidateConfig(c)
          case Some(e) => (ManagerState(env, None), Err(e))
          case None => (ManagerState(env, Some(c)), Ok(c))
  }

  /** A manager whose cache holds only valid configurations. */
  predicate CacheValid(st: ManagerState) {
    st.config.Some? ==> ValidConfig(st.config.value)
  }

  /** The corrected `load` keeps the cache valid, so every configuration it returns passes
      validation, whatever the environment and however often it is called. */
  lemma LoadedKeepsCacheValid(st: ManagerState, environ: map<string, string>)
    requires CacheValid(st)
    ensures CacheValid(Loaded(st, environ).0)
    ensures Loaded(st, environ).1.Ok? ==> ValidConfig(Loaded(st, environ).1.value)
  {
  }

  /** As written, a configuration that fails validation is cached anyway: the first load
      raises, and the next load returns that invalid configuration without complaint, even
      from a corrected environment. */
  lemma InvalidConfigCachedAsWritten(environ: map<string, string>, later: map<string, string>)
    requires RequiredFields(EnvFilter(environ)).None? && FromEnv(EnvFilter(environ)).Ok?
    requires !ValidConfig(FromEnv(EnvFilter(environ)).value)
    ensures var first := LoadedAsWritten(ManagerState(map[], None), environ);
      var second := LoadedAsWritten(first.0, later);
      && first.1.Err? && second.1 == Ok(FromEnv(EnvFilter(environ)).value)
      && !ValidConfig(second.1.value)
    ensures var first := Loaded(ManagerState(map[], None), environ);
      first.1.Err? && first.0.config.None?
  {
  }

  /** The line `save_example` writes for one variable: secrets are masked as
      `# KEY=your_key_here`, other variables written out as `KEY=value`. */
  function ExampleLine(key: string, value: string): (line: string)
    ensures Sensitive(key) ==> line == "# " + key + "=your_" + ToLower(key) + "_here"
    ensures !Sensitive(key) ==> line == key + "=" + value
  {
    if Sensitive(key) then "# " + key + "=your_" + ToLower(key) + "_here" else key + "=" + value
  }

  /** The lines for `keys`, in that order. */
  function ExampleLines(keys: seq<string>, env: map<string, string>): (lines: seq<string>)
    requires forall k :: k in keys ==> k in env
    ensures |lines| == |keys|
    ensures forall i :: 0 <= i < |keys| ==> lines[i] == ExampleLine(keys[i], env[keys[i]])
  {
    if |keys| == 0 then [] else [ExampleLine(keys[0], env[keys[0]])] + ExampleLines(keys[1..], env)
  }

  /** The example file for `env`: one line per variable, in ascending key order. */
  ghost function ExampleFile(env: map<string, string>): string {
    Join(ExampleLines(Sorted(env.Keys), env), "\n")
  }

  /** The example file never depends on a secret's value: two environments with the same
      variables that differ only in secret values give the same file. */
  lemma {:induction false} MaskHidesSecrets(a: map<string, string>, b: map<string, string>)
    requires a.Keys == b.Keys
    requires forall k :: k in a && !Sensitive(k) ==> a[k] == b[k]
    ensures ExampleFile(a) == ExampleFile(b)
  {
    var keys := Sorted(a.Keys);
    assert ExampleLines(keys, a) == ExampleLines(keys, b);
  }

  /** The example file lists every variable once, in strictly ascending key order. */
  lemma ExampleOrder(env: map<string, string>)
    ensures var keys := Sorted(env.Keys);
      && |ExampleLines(keys, env)| == |env|
      && (forall k :: k in keys <==> k in env)
      && (forall i, j :: 0 <= i < j < |keys| ==> Below(keys[i], keys[j]))
  {
  }

  /** The lines for a set of keys start with the line of its least key. */
  lemma ExampleLinesFirst(keys: set<string>, k: string, env: map<string, string>)
    requires keys <= env.Keys && k in keys && IsLeast(keys, k)
    ensures ExampleLines(Sorted(keys), env) == [ExampleLine(k, env[k])] + ExampleLines(Sorted(keys - {k}), env)
  {
    SortedFirst(keys, k);
    var rest := Sorted(keys - {k});
    assert Sorted(keys)[1..] == rest;
  }

  /** The lines written so far, followed by the lines of the keys still to write, are the
      whole example. */
  ghost predicate LinesSoFar(lines: seq<string>, remaining: set<string>, env: map<string, string>)
    requires remaining <= env.Keys
  {
    lines + ExampleLines(Sorted(remaining), env) == ExampleLines(Sorted(env.Keys), env)
  }

  /** Writing the least remaining key keeps the lines on course. */
  lemma WriteLeast(lines: seq<string>, remaining: set<string>, k: string, env: map<string, string>)
    requires remaining <= env.Keys && k in remaining && IsLeast(remaining, k)
    requires LinesSoFar(lines, remaining, env)
    ensures LinesSoFar(lines + [ExampleLine(k, env[k])], remaining - {k}, env)
  {
    ExampleLinesFirst(remaining, k, env);
  }

  /** Once no key remains, the lines written are the whole example. */
  lemma LinesDone(lines: seq<string>, env: map<string, string>)
    requires LinesSoFar(lines, {}, env)
    ensures lines == ExampleLines(Sorted(env.Keys), env)
  {
    assert Sorted({}) == [];
    assert ExampleLines([], env) == [];
  }

  class ConfigManager {
    var envDict: map<string, string>
    var config: Option<SubnetConfig>

    function State(): ManagerState
      reads this
    {
      ManagerState(envDict, config)
    }

    /** `ConfigManager.__init__`: nothing read, nothing cached. */
    constructor()
      ensures envDict == map[] && config.None?
    {
      envDict := map[];
      config := None;
    }

    /** `load` as written, step by step. */
    method LoadAsWritten(environ: map<string, string>) returns (r: Result<SubnetConfig>)
      modifies this
      ensures (State(), r) == LoadedAsWritten(old(State()), environ)
    {
      if config.Some? {
        return Ok(config.value);
      }
      envDict := EnvFilter(environ);
      var missing := RequiredFields(envDict);
      if missing.Some? {
        return Err(missing.value);
      }
      var built := FromEnv(envDict);
      if built.Err? {
        return Err(built.error);
      }
      config := Some(built.value);
      var invalid := ValidateConfig(config.value);
      if invalid.Some? {
        return Err(invalid.value);
      }
      return Ok(config.value);
    }

    /** `load` with the configuration cached only after it validates. */
    method Load(environ: map<string, string>) returns (r: Result<SubnetConfig>)
      modifies this
      ensures (State(), r) == Loaded(old(State()), environ)
    {
      if config.Some? {
        return Ok(config.value);
      }
      envDict := EnvFilter(environ);
      var missing := RequiredFields(envDict);
      if missing.Some? {
        return Err(missing.value);
      }
      var built := FromEnv(envDict);
      if built.Err? {
        return Err(built.error);
      }
      var invalid := ValidateConfig(built.value);
      if invalid.Some? {
        return Err(invalid.value);
      }
      config := Some(built.value);
      return Ok(built.value);
    }

    /** `is_production`: a configuration is loaded and its network is "finney". */
    predicate IsProduction()
      reads this
      ensures IsProduction() <==> config.Some? && config.value.network == "finney"
    {
      if config.Some? then config.value.network == "finney" else false
    }

    /** `save_example`: the lines for the stored variables in ascending key order, joined by
        newlines (the text the file receives). */
    method SaveExample() returns (text: string)
      ensures text == ExampleFile(envDict)
    {
      text := ExampleText(envDict);
    }
  }

  /** The text `save_example` writes for the variables `env`, built line by line in ascending
      key order. */
  method ExampleText(env: map<string, string>) returns (text: string)
    ensures text == ExampleFile(env)
  {
    var remaining := env.Keys;
    var lines: seq<string> := [];
    while remaining != {}
      invariant remaining <= env.Keys
      invariant LinesSoFar(lines, remaining, env)
      decreases |remaining|
    {
      HasLeast(remaining);
      var k :| k in remaining && IsLeast(remaining, k);
      WriteLeast(lines, remaining, k, env);
      lines := lines + [ExampleLine(k, env[k])];
      remaining := remaining - {k};
    }
    LinesDone(lines, env);
    text := Join(lines, "\n");
  }

  /** The module's single manager, created on first use and dropped by `reset_config`. */
  class Registry {
    var manager: ConfigManager?

    constructor()
      ensures manager == null
    {
      manager := null;
    }

    /** `get_config_manager`: the existing manager, or a new one that is kept. */
    method GetConfigManager() returns (m: ConfigManager)
      modifies this
      ensures old(manager) != null ==> m == old(manager)
      ensures old(manager) == null ==> fresh(m) && m.config.None? && m.envDict == map[]
      ensures manager == m
    {
      if manager == null {
        manager := new ConfigManager();
      }
      m := manager;
    }

    /** `get_config` as written: the manager's `load` as written, on the manager created if
        need be. With an invalid environment the first call raises and the second returns
        the invalid configuration. */
    method GetConfigAsWritten(environ: map<string, string>) returns (r: Result<SubnetConfig>)
      modifies this, manager
      ensures manager != null && (old(manager) != null ==> manager == old(manager))
      ensures old(manager) != null ==> (manager.State(), r) == LoadedAsWritten(old(manager.State()), environ)
      ensures old(manager) == null ==> fresh(manager) && (manager.State(), r) == LoadedAsWritten(ManagerState(map[], None), environ)
    {
      var m := GetConfigManager();
      r := m.LoadAsWritten(environ);
    }

    /** `get_config` with the corrected `load`, which caches only validated
        configurations. */
    method GetConfig(environ: map<string, string>) returns (r: Result<SubnetConfig>)
      modifies this, manager
      ensures manager != null && (old(manager) != null ==> manager == old(manager))
      ensures old(manager) != null ==> (manager.State(), r) == Loaded(old(manager.State()), environ)
      ensures old(manager) == null ==> fresh(manager) && (manager.State(), r) == Loaded(ManagerState(map[], None), environ)
    {
      var m := GetConfigManager();
      r := m.Load(environ);
    }

    /** `reset_config` */
    method ResetConfig()
      modifies this
      ensures manager == null
    {
      manager := null;
    }
  }
}
