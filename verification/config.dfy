/**
 * `config/config.py`: the three configuration records with their validation,
 * their construction from the environment (a map from variable names to
 * values), the warnings of `TagSenseConfig.validate` and the cached global
 * configuration of `get_config`.
 */
module Config {
  import opened Wrappers
  import opened Errors
  import opened Text

  /** The process environment. */
  type Env = map<string, string>

  /** `os.getenv(name, default)`. */
  function GetEnv(env: Env, name: string, default: string): string {
    if name in env then env[name] else default
  }

  /** `os.getenv(name)`. */
  function LookupEnv(env: Env, name: string): Option<string> {
    if name in env then Some(env[name]) else None
  }

  /** `int(s)`, raising Python's ValueError message. */
  function ToInt(s: string): (r: Result<int, Error>)
    ensures r.Ok? <==> ParseInt(s).Some?
    ensures r.Ok? ==> r.value == ParseInt(s).value
    ensures r.Err? ==> r.error == ValueError("invalid literal for int() with base 10: '" + s + "'")
  {
    match ParseInt(s)
    case Some(n) => Ok(n)
    case None => Err(ValueError("invalid literal for int() with base 10: '" + s + "'"))
  }

  /** `float(s)` on decimal notation, raising Python's ValueError message. */
  function ToFloat(s: string): (r: Result<real, Error>)
    ensures r.Ok? <==> ParseDecimal(s).Some?
    ensures r.Ok? ==> r.value == ParseDecimal(s).value
    ensures r.Err? ==> r.error == ValueError("could not convert string to float: '" + s + "'")
  {
    match ParseDecimal(s)
    case Some(x) => Ok(x)
    case None => Err(ValueError("could not convert string to float: '" + s + "'"))
  }

  // ---- LLM ----

  datatype LLMProvider = OpenAI | Anthropic {
    function Value(): string {
      match this
      case OpenAI => "openai"
      case Anthropic => "anthropic"
    }
  }

  /** `LLMProvider(value)`. */
  function ParseProvider(value: string): (r: Result<LLMProvider, Error>)
    ensures r.Ok? <==> value == "openai" || value == "anthropic"
    ensures r.Ok? ==> r.value.Value() == value
    ensures r.Err? ==> r.error == ValueError("'" + value + "' is not a valid LLMProvider")
  {
    if value == "openai" then Ok(OpenAI)
    else if value == "anthropic" then Ok(Anthropic)
    else Err(ValueError("'" + value + "' is not a valid LLMProvider"))
  }

  datatype LLMConfig = LLMConfig(
    primaryBackend: LLMProvider, fallbackBackend: Option<LLMProvider>,
    openaiApiKey: Option<string>, openaiModel: string,
    anthropicApiKey: Option<string>, anthropicModel: string,
    temperature: real, maxTokens: int, enableCache: bool, cacheTtl: int)

  /** `LLMConfig.__post_init__`: the record as given, unless the temperature or the token limit is out of range. */
  function NewLLMConfig(c: LLMConfig): (r: Result<LLMConfig, Error>)
    ensures r.Ok? <==> 0.0 <= c.temperature <= 1.0 && c.maxTokens > 0
    ensures r.Ok? ==> r.value == c
    ensures !(0.0 <= c.temperature <= 1.0) ==> r == Err(ValueError("Temperature must be between 0.0 and 1.0"))
    ensures 0.0 <= c.temperature <= 1.0 && c.maxTokens <= 0 ==>
      r == Err(ValueError("max_tokens must be positive, got " + IntToString(c.maxTokens)))
  {
    if !(0.0 <= c.temperature <= 1.0) then Err(ValueError("Temperature must be between 0.0 and 1.0"))
    else if c.maxTokens <= 0 then Err(ValueError("max_tokens must be positive, got " + IntToString(c.maxTokens)))
    else Ok(c)
  }

  /** The fallback setting: "none" in any letter case means no fallback. */
  function ParseFallback(value: string): (r: Result<Option<LLMProvider>, Error>)
    ensures Lower(value) == "none" ==> r == Ok(None)
    ensures r.Ok? && r.value.Some? ==> r.value.value.Value() == Lower(value)
    ensures r.Err? <==> Lower(value) != "none" && ParseProvider(Lower(value)).Err?
  {
    var v := Lower(value);
    if v == "none" then Ok(None)
    else
      match ParseProvider(v)
      case Ok(p) => Ok(Some(p))
      case Err(e) => Err(e)
  }

  /** `LLMConfig.from_env`: the settings are read in the order the constructor call lists them, then validated. */
  function LLMConfigFromEnv(env: Env): (r: Result<LLMConfig, Error>)
    ensures r.Ok? ==> r.value.primaryBackend.Value() == Lower(GetEnv(env, "LLM_PRIMARY_BACKEND", "openai"))
    ensures r.Ok? ==> (r.value.fallbackBackend.None? <==> Lower(GetEnv(env, "LLM_FALLBACK_BACKEND", "anthropic")) == "none")
    ensures r.Ok? ==> (r.value.openaiApiKey == LookupEnv(env, "OPENAI_API_KEY")
      && r.value.anthropicApiKey == LookupEnv(env, "ANTHROPIC_API_KEY"))
    ensures r.Ok? ==> (r.value.enableCache <==> Lower(GetEnv(env, "ENABLE_CACHE", "true")) == "true")
    ensures r.Ok? ==> 0.0 <= r.value.temperature <= 1.0 && r.value.maxTokens > 0
    ensures ParseProvider(Lower(GetEnv(env, "LLM_PRIMARY_BACKEND", "openai"))).Err? ==>
      r == Err(ValueError("'" + Lower(GetEnv(env, "LLM_PRIMARY_BACKEND", "openai")) + "' is not a valid LLMProvider"))
  {
    var primary :- ParseProvider(Lower(GetEnv(env, "LLM_PRIMARY_BACKEND", "openai")));
    var fallback :- ParseFallback(GetEnv(env, "LLM_FALLBACK_BACKEND", "anthropic"));
    var temperature :- ToFloat(GetEnv(env, "LLM_TEMPERATURE", "0.3"));
    var maxTokens :- ToInt(GetEnv(env, "LLM_MAX_TOKENS", "2048"));
    var cacheTtl :- ToInt(GetEnv(env, "CACHE_TTL", "3600"));
    NewLLMConfig(LLMConfig(
      primary, fallback,
      LookupEnv(env, "OPENAI_API_KEY"), GetEnv(env, "OPENAI_MODEL", "gpt-3.5-turbo"),
      LookupEnv(env, "ANTHROPIC_API_KEY"), GetEnv(env, "ANTHROPIC_MODEL", "claude-3-5-sonnet-20241022"),
      temperature, maxTokens, Lower(GetEnv(env, "ENABLE_CACHE", "true")) == "true", cacheTtl))
  }

  // ---- AWS ----

  datatype AWSConfig = AWSConfig(
    defaultRegion: string, profile: string, regions: seq<string>,
    maxRetries: int, retryBackoffMultiplier: int, requestTimeout: int)

  /** `AWSConfig.__post_init__`. */
  function NewAWSConfig(c: AWSConfig): (r: Result<AWSConfig, Error>)
    ensures r.Ok? <==> c.maxRetries >= 0 && c.requestTimeout > 0 && |c.regions| > 0
    ensures r.Ok? ==> r.value == c
    ensures c.maxRetries < 0 ==> r == Err(ValueError("max_retries must be non-negative, got " + IntToString(c.maxRetries)))
  {
    if c.maxRetries < 0 then Err(ValueError("max_retries must be non-negative, got " + IntToString(c.maxRetries)))
    else if c.requestTimeout <= 0 then Err(ValueError("request_timeout must be positive, got " + IntToString(c.requestTimeout)))
    else if |c.regions| == 0 then Err(ValueError("At least one region must be specified"))
    else Ok(c)
  }

  /** `[r.strip() for r in s.split(",")]`. */
  function ParseRegions(s: string): (regions: seq<string>)
    ensures |regions| == |Split(s, ',')|
    ensures forall i :: 0 <= i < |regions| ==> regions[i] == Strip(Split(s, ',')[i])
  {
    var parts := Split(s, ',');
    seq(|parts|, i requires 0 <= i < |parts| => Strip(parts[i]))
  }

  /**
   * The region list is never empty, whatever `AWS_REGIONS` holds, and its
   * pieces are exactly the comma-separated parts of the setting, stripped.
   */
  lemma ParseRegionsShape(s: string)
    ensures |ParseRegions(s)| >= 1
    ensures Join(Split(s, ','), ",") == s
    ensures forall i :: 0 <= i < |ParseRegions(s)| ==> ',' !in ParseRegions(s)[i]
  {
    JoinSplit(s, ',');
    var parts := Split(s, ',');
    forall i | 0 <= i < |parts| ensures ',' !in Strip(parts[i]) {
      StripKeeps(parts[i], ',');
    }
  }

  /**
   * `AWSConfig.from_env`: the region list defaults to the default region. It
   * fails only on the numeric settings, never on an empty region list.
   */
  function AWSConfigFromEnv(env: Env): (r: Result<AWSConfig, Error>)
    ensures r.Ok? ==> r.value.regions == ParseRegions(GetEnv(env, "AWS_REGIONS", GetEnv(env, "AWS_DEFAULT_REGION", "us-west-2")))
    ensures var retries, timeout := ToInt(GetEnv(env, "MAX_RETRIES", "3")), ToInt(GetEnv(env, "REQUEST_TIMEOUT", "30"));
      r.Ok? <==> (retries.Ok? && ToInt(GetEnv(env, "RETRY_BACKOFF_MULTIPLIER", "2")).Ok? && timeout.Ok?
        && retries.value >= 0 && timeout.value > 0)
  {
    var defaultRegion := GetEnv(env, "AWS_DEFAULT_REGION", "us-west-2");
    var regionsSetting := GetEnv(env, "AWS_REGIONS", defaultRegion);
    ParseRegionsShape(regionsSetting);
    var regions := ParseRegions(regionsSetting);
    var maxRetries :- ToInt(GetEnv(env, "MAX_RETRIES", "3"));
    var multiplier :- ToInt(GetEnv(env, "RETRY_BACKOFF_MULTIPLIER", "2"));
    var timeout :- ToInt(GetEnv(env, "REQUEST_TIMEOUT", "30"));
    NewAWSConfig(AWSConfig(defaultRegion, GetEnv(env, "AWS_PROFILE", "default"), regions, maxRetries, multiplier, timeout))
  }

  // ---- application ----

  datatype LogLevel = Debug | Info | Warning | Error | Critical {
    function Name(): string {
      match this
      case Debug => "DEBUG"
      case Info => "INFO"
      case Warning => "WARNING"
      case Error => "ERROR"
      case Critical => "CRITICAL"
    }
  }

  /** `LogLevel[name]`: lookup by member name, a KeyError otherwise. */
  function LogLevelByName(name: string): (r: Result<LogLevel, Error>)
    ensures r.Ok? ==> r.value.Name() == name
    ensures r.Err? ==> r.error == OtherError("'" + name + "'")
  {
    if name == "DEBUG" then Ok(Debug)
    else if name == "INFO" then Ok(Info)
    else if name == "WARNING" then Ok(Warning)
    else if name == "ERROR" then Ok(LogLevel.Error)
    else if name == "CRITICAL" then Ok(Critical)
    else Err(OtherError("'" + name + "'"))
  }

  /** Every level's name finds it. */
  lemma LogLevelByNameComplete(l: LogLevel)
    ensures LogLevelByName(l.Name()) == Ok(l)
  {
  }

  datatype AppConfig = AppConfig(debug: bool, logLevel: LogLevel, logFormat: string, conversationHistoryLength: int)

  /** `AppConfig.__post_init__`. */
  function NewAppConfig(c: AppConfig): (r: Result<AppConfig, Error>)
    ensures r.Ok? <==> (c.logFormat == "text" || c.logFormat == "json") && c.conversationHistoryLength >= 1
    ensures r.Ok? ==> r.value == c
  {
    if c.logFormat != "text" && c.logFormat != "json" then
      Err(ValueError("log_format must be 'text' or 'json', got " + c.logFormat))
    else if c.conversationHistoryLength < 1 then
      Err(ValueError("conversation_history_length must be at least 1, got " + IntToString(c.conversationHistoryLength)))
    else Ok(c)
  }

  /** `AppConfig.from_env`: the level is looked up by its upper-cased name, the format is lower-cased. */
  function AppConfigFromEnv(env: Env): (r: Result<AppConfig, Error>)
    ensures r.Ok? ==> r.value.logLevel.Name() == Upper(GetEnv(env, "LOG_LEVEL", "INFO"))
    ensures r.Ok? ==> r.value.logFormat == Lower(GetEnv(env, "LOG_FORMAT", "text"))
    ensures r.Ok? ==> (r.value.debug <==> Lower(GetEnv(env, "DEBUG", "false")) == "true")
    ensures r.Ok? ==> r.value.conversationHistoryLength >= 1
  {
    var level :- LogLevelByName(Upper(GetEnv(env, "LOG_LEVEL", "INFO")));
    var length :- ToInt(GetEnv(env, "CONVERSATION_HISTORY_LENGTH", "10"));
    NewAppConfig(AppConfig(Lower(GetEnv(env, "DEBUG", "false")) == "true", level, Lower(GetEnv(env, "LOG_FORMAT", "text")), length))
  }

  // ---- the whole configuration ----

  datatype TagSenseConfig = TagSenseConfig(llm: LLMConfig, aws: AWSConfig, app: AppConfig)

  /** `TagSenseConfig.from_env`: the LLM part first, then AWS, then the application part; the first error wins. */
  function TagSenseConfigFromEnv(env: Env): (r: Result<TagSenseConfig, Error>)
    ensures r.Ok? <==> LLMConfigFromEnv(env).Ok? && AWSConfigFromEnv(env).Ok? && AppConfigFromEnv(env).Ok?
    ensures r.Ok? ==> r.value == TagSenseConfig(LLMConfigFromEnv(env).value, AWSConfigFromEnv(env).value, AppConfigFromEnv(env).value)
    ensures LLMConfigFromEnv(env).Err? ==> r == Err(LLMConfigFromEnv(env).error)
  {
    var llm :- LLMConfigFromEnv(env);
    var aws :- AWSConfigFromEnv(env);
    var app :- AppConfigFromEnv(env);
    Ok(TagSenseConfig(llm, aws, app))
  }

  /** `not key`: no key, or an empty one. */
  predicate Missing(key: Option<string>) {
    key.None? || key.value == ""
  }

  function KeyOf(llm: LLMConfig, p: LLMProvider): Option<string> {
    match p
    case OpenAI => llm.openaiApiKey
    case Anthropic => llm.anthropicApiKey
  }

  const OpenAIPrimaryWarning := "OpenAI is the primary backend but OPENAI_API_KEY is not set"
  const AnthropicPrimaryWarning := "Anthropic is the primary backend but ANTHROPIC_API_KEY is not set"
  const OpenAIFallbackWarning := "OpenAI is the fallback backend but OPENAI_API_KEY is not set"
  const AnthropicFallbackWarning := "Anthropic is the fallback backend but ANTHROPIC_API_KEY is not set"

  function PrimaryWarning(p: LLMProvider): string {
    match p
    case OpenAI => OpenAIPrimaryWarning
    case Anthropic => AnthropicPrimaryWarning
  }

  function FallbackWarning(p: LLMProvider): string {
    match p
    case OpenAI => OpenAIFallbackWarning
    case Anthropic => AnthropicFallbackWarning
  }

  /** `TagSenseConfig.validate`. */
  function Validate(c: TagSenseConfig): seq<string> {
    var llm := c.llm;
    (if llm.primaryBackend == OpenAI && Missing(llm.openaiApiKey) then [OpenAIPrimaryWarning] else [])
    + (if llm.primaryBackend == Anthropic && Missing(llm.anthropicApiKey) then [AnthropicPrimaryWarning] else [])
    + (if llm.fallbackBackend == Some(OpenAI) && Missing(llm.openaiApiKey) then [OpenAIFallbackWarning] else [])
    + (if llm.fallbackBackend == Some(Anthropic) && Missing(llm.anthropicApiKey) then [AnthropicFallbackWarning] else [])
  }

  /**
   * One warning for the primary backend when its key is missing, then one for
   * the fallback when it has one and its key is missing; no warnings exactly
   * when every backend in use has its key.
   */
  lemma ValidateWarnings(c: TagSenseConfig)
    ensures var w := Validate(c); var llm := c.llm;
      var primary := if Missing(KeyOf(llm, llm.primaryBackend)) then [PrimaryWarning(llm.primaryBackend)] else [];
      var fallback := if llm.fallbackBackend.Some? && Missing(KeyOf(llm, llm.fallbackBackend.value))
        then [FallbackWarning(llm.fallbackBackend.value)] else [];
      w == primary + fallback
    ensures Validate(c) == [] <==>
      !Missing(KeyOf(c.llm, c.llm.primaryBackend))
      && (c.llm.fallbackBackend.Some? ==> !Missing(KeyOf(c.llm, c.llm.fallbackBackend.value)))
  {
  }

  /**
   * `get_config`: the cached configuration unless there is none or `reload` is
   * set; then a fresh one read from the environment, which is cached only when
   * building it did not raise. Returns the result and the new cache.
   */
  function GetConfig(cache: Option<TagSenseConfig>, reload: bool, env: Env): (r: (Result<TagSenseConfig, Error>, Option<TagSenseConfig>))
    ensures cache.Some? && !reload ==> r == (Ok(cache.value), cache)
    ensures cache.None? || reload ==> r.0 == TagSenseConfigFromEnv(env)
    ensures r.0.Ok? ==> r.1 == Some(r.0.value)
    ensures r.0.Err? ==> r.1 == cache
  {
    if cache.None? || reload then
      match TagSenseConfigFromEnv(env)
      case Ok(c) => (Ok(c), Some(c))
      case Err(e) => (Err(e), cache)
    else (Ok(cache.value), cache)
  }

  /** Once a configuration is cached, later calls without `reload` return it whatever the environment has become. */
  lemma GetConfigCached(cache: Option<TagSenseConfig>, reload: bool, env: Env, env': Env)
    requires GetConfig(cache, reload, env).0.Ok?
    ensures var (first, cache') := GetConfig(cache, reload, env);
      GetConfig(cache', false, env') == (first, cache')
  {
  }
}
