/**
 * Configuration (src/config.rs): the LLM provider, key and model, the Python interpreter used for
 * the bridge, and the output format, with the defaults that apply when a setting is absent and the
 * environment variables consulted for the API key. The environment is a map from variable names to
 * values; the TOML parser and the file system are parameters.
 */
module Config {
  import opened Wrappers

  datatype LlmConfig = LlmConfig(provider: string, apiKey: Option<string>, model: Option<string>)

  datatype ResolveConfig = ResolveConfig(pythonPath: Option<string>)

  datatype OutputConfig = OutputConfig(defaultFormat: string)

  datatype Config = Config(llm: LlmConfig, resolve: ResolveConfig, output: OutputConfig)

  /** The environment: variable name to value, for the variables that are set. */
  type Env = map<string, string>

  /** What the TOML file says, before defaults: every table and every defaulted key may be absent. */
  datatype RawLlm = RawLlm(provider: Option<string>, apiKey: Option<string>, model: Option<string>)

  datatype RawOutput = RawOutput(defaultFormat: Option<string>)

  datatype RawConfig = RawConfig(llm: Option<RawLlm>, resolve: Option<ResolveConfig>, output: Option<RawOutput>)

  /** The state of the config file at the chosen path. */
  datatype ConfigFile = Missing | Unreadable | Contents(text: string)

  const DefaultProvider := "anthropic"
  const DefaultFormat := "json"

  /** `Config::default()`: provider `anthropic`, no key, no model, no Python path, JSON output. */
  const Default := Config(LlmConfig(DefaultProvider, None, None), ResolveConfig(None), OutputConfig(DefaultFormat))

  /** serde's defaulting: an absent table takes its `Default`, an absent defaulted key its default. */
  function FromRaw(raw: RawConfig): (c: Config)
    ensures raw.llm.None? ==> c.llm == Default.llm
    ensures raw.llm.Some? ==> c.llm.provider == raw.llm.value.provider.GetOr(DefaultProvider)
    ensures raw.llm.Some? ==> c.llm.apiKey == raw.llm.value.apiKey && c.llm.model == raw.llm.value.model
    ensures c.resolve == raw.resolve.GetOr(Default.resolve)
    ensures raw.output.Some? ==> c.output.defaultFormat == raw.output.value.defaultFormat.GetOr(DefaultFormat)
    ensures raw.output.None? ==> c.output == Default.output
  {
    var llm := match raw.llm
      case None => Default.llm
      case Some(l) => LlmConfig(l.provider.GetOr(DefaultProvider), l.apiKey, l.model);
    var output := match raw.output
      case None => Default.output
      case Some(o) => OutputConfig(o.defaultFormat.GetOr(DefaultFormat));
    Config(llm, raw.resolve.GetOr(Default.resolve), output)
  }

  /** An empty file yields the default configuration. */
  lemma EmptyFileIsDefault()
    ensures FromRaw(RawConfig(None, None, None)) == Default
  {
  }

  /** The model used when none is configured. */
  function DefaultModel(provider: string): string {
    match provider
    case "anthropic" => "claude-sonnet-4-20250514"
    case "openai" => "gpt-4o"
    case "openrouter" => "anthropic/claude-sonnet-4-20250514"
    case _ => "gpt-4o"
  }

  /** `LlmConfig::model`: the configured model if any, otherwise the provider's default. */
  function Model(llm: LlmConfig): (m: string)
    ensures llm.model.Some? ==> m == llm.model.value
    ensures llm.model.None? ==> m == DefaultModel(llm.provider)
  {
    llm.model.GetOr(DefaultModel(llm.provider))
  }

  /** OpenRouter's default is the Anthropic default, addressed through the `anthropic/` namespace. */
  lemma OpenRouterDefaultIsAnthropicModel()
    ensures DefaultModel("openrouter") == "anthropic/" + DefaultModel("anthropic")
  {
  }

  /**
   * Without an explicit model, every provider other than `anthropic` and `openrouter` gets `gpt-4o`,
   * and the model never depends on the API key.
   */
  lemma ModelFallsBackToGpt4o(llm: LlmConfig, key: Option<string>)
    requires llm.model.None? && llm.provider != "anthropic" && llm.provider != "openrouter"
    ensures Model(llm) == "gpt-4o"
    ensures Model(llm.(apiKey := key)) == Model(llm)
  {
  }

  /** The environment variable that holds the key for `provider`; none for an unknown provider. */
  function KeyVariable(provider: string): (v: Option<string>)
    ensures v.Some? <==> provider in {"anthropic", "openai", "openrouter"}
  {
    match provider
    case "anthropic" => Some("ANTHROPIC_API_KEY")
    case "openai" => Some("OPENAI_API_KEY")
    case "openrouter" => Some("OPENROUTER_API_KEY")
    case _ => None
  }

  /** `std::env::var(name).ok()`. */
  function Lookup(env: Env, name: string): (r: Option<string>)
    ensures r.Some? <==> name in env
    ensures r.Some? ==> r.value == env[name]
  {
    if name in env then Some(env[name]) else None
  }

  /**
   * `apply_env_fallbacks`: when no key is configured, take it from the provider's environment
   * variable (if that variable is set). Nothing else changes.
   */
  function WithEnvFallbacks(c: Config, env: Env): (r: Config)
    ensures r.llm.provider == c.llm.provider && r.llm.model == c.llm.model
    ensures r.resolve == c.resolve && r.output == c.output
    ensures c.llm.apiKey.Some? ==> r == c
    ensures c.llm.apiKey.None? && KeyVariable(c.llm.provider).Some? ==>
              r.llm.apiKey == Lookup(env, KeyVariable(c.llm.provider).value)
    ensures c.llm.apiKey.None? && KeyVariable(c.llm.provider).None? ==> r == c
  {
    if c.llm.apiKey.Some? then c
    else
      var key := match KeyVariable(c.llm.provider)
        case Some(name) => Lookup(env, name)
        case None => None;
      c.(llm := c.llm.(apiKey := key))
  }

  /** Applying the fallbacks twice changes nothing more. */
  lemma EnvFallbacksIdempotent(c: Config, env: Env)
    ensures WithEnvFallbacks(WithEnvFallbacks(c, env), env) == WithEnvFallbacks(c, env)
  {
  }

  /** `Config::api_key`: the key, or an error naming where to set it. */
  function ApiKey(c: Config): (r: Result<string, string>)
    ensures r.Ok? <==> c.llm.apiKey.Some?
    ensures r.Ok? ==> r.value == c.llm.apiKey.value
    ensures r.Err? ==> r.error == "API key not configured. Set " + KeyVariable(c.llm.provider).GetOr("API key") + " or add to config."
  {
    match c.llm.apiKey
    case Some(key) => Ok(key)
    case None => Err("API key not configured. Set " + KeyVariable(c.llm.provider).GetOr("API key") + " or add to config.")
  }

  /**
   * After the fallbacks, a key is available exactly when one was configured or the provider's
   * variable is set; an explicit key is never replaced by the environment.
   */
  lemma ApiKeyAfterFallbacks(c: Config, env: Env)
    ensures ApiKey(WithEnvFallbacks(c, env)).Ok? <==>
              c.llm.apiKey.Some? || (KeyVariable(c.llm.provider).Some? && KeyVariable(c.llm.provider).value in env)
    ensures c.llm.apiKey.Some? ==> ApiKey(WithEnvFallbacks(c, env)) == Ok(c.llm.apiKey.value)
  {
  }

  /**
   * `Config::load` for a given path. `pathText` is the path as the error messages render it, and
   * `parseToml` stands for the TOML parser (None when the text is not a valid configuration).
   */
  function Load(pathText: string, file: ConfigFile, parseToml: string -> Option<RawConfig>, env: Env): (r: Result<Config, string>)
    ensures r.Ok? <==> file.Missing? || (file.Contents? && parseToml(file.text).Some?)
    ensures r.Err? && file.Unreadable? ==> r.error == "Failed to read config from " + pathText
    ensures r.Err? && file.Contents? ==> r.error == "Failed to parse config from " + pathText
  {
    match file
    case Missing => Ok(WithEnvFallbacks(Default, env))
    case Unreadable => Err("Failed to read config from " + pathText)
    case Contents(text) =>
      match parseToml(text)
      case None => Err("Failed to parse config from " + pathText)
      case Some(raw) => Ok(WithEnvFallbacks(FromRaw(raw), env))
  }

  /**
   * With no config file the provider is `anthropic`, the output format `json`, no model is set
   * (so the Anthropic default model is used), and the key comes from `ANTHROPIC_API_KEY` if set.
   */
  lemma LoadWithoutFile(pathText: string, parseToml: string -> Option<RawConfig>, env: Env)
    ensures Load(pathText, Missing, parseToml, env).Ok?
    ensures var c := Load(pathText, Missing, parseToml, env).value;
      && c.llm.provider == "anthropic" && c.output.defaultFormat == "json"
      && c.llm.model.None? && Model(c.llm) == "claude-sonnet-4-20250514"
      && c.resolve.pythonPath.None?
      && c.llm.apiKey == Lookup(env, "ANTHROPIC_API_KEY")
  {
  }

  /**
   * A key written in the config file is kept as is; a file without one gets the provider's
   * environment variable, and every other setting comes from the file (or its defaults).
   */
  lemma LoadFromFile(pathText: string, text: string, parseToml: string -> Option<RawConfig>, env: Env)
    requires parseToml(text).Some?
    ensures var c := FromRaw(parseToml(text).value);
      var r := Load(pathText, Contents(text), parseToml, env);
      && r.Ok?
      && r.value.llm.provider == c.llm.provider && r.value.llm.model == c.llm.model
      && r.value.resolve == c.resolve && r.value.output == c.output
      && (c.llm.apiKey.Some? ==> r.value.llm.apiKey == c.llm.apiKey)
      && (c.llm.apiKey.None? && KeyVariable(c.llm.provider).Some? ==>
            r.value.llm.apiKey == Lookup(env, KeyVariable(c.llm.provider).value))
  {
  }

  /** Interpreters tried, in order, when no Python path is configured. */
  const PythonCandidates: seq<string> := ["/opt/homebrew/bin/python3", "/usr/local/bin/python3", "/usr/bin/python3", "python3"]

  /**
   * The probed interpreter: the first candidate that runs, or `python3` when none does.
   */
  predicate FirstRunning(runs: string -> bool, path: string) {
    || (exists k :: 0 <= k < |PythonCandidates| && path == PythonCandidates[k] && runs(path)
                    && forall j :: 0 <= j < k ==> !runs(PythonCandidates[j]))
    || (path == "python3" && forall j :: 0 <= j < |PythonCandidates| ==> !runs(PythonCandidates[j]))
  }

  /**
   * `Config::python_path`: the configured path verbatim; otherwise the first candidate for which
   * `runs` (standing for `<path> --version` starting) holds, falling back to `python3`.
   */
  method PythonPath(c: Config, runs: string -> bool) returns (path: string)
    ensures c.resolve.pythonPath.Some? ==> path == c.resolve.pythonPath.value
    ensures c.resolve.pythonPath.None? ==> FirstRunning(runs, path)
  {
    if c.resolve.pythonPath.Some? {
      return c.resolve.pythonPath.value;
    }
    var i := 0;
    while i < |PythonCandidates|
      invariant 0 <= i <= |PythonCandidates|
      invariant forall j :: 0 <= j < i ==> !runs(PythonCandidates[j])
    {
      if runs(PythonCandidates[i]) {
        return PythonCandidates[i];
      }
      i := i + 1;
    }
    return "python3";
  }
}
