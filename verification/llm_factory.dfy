/**
 * The LLM backend factory (llm_backends/factory.py): backend creation by
 * name, the response cache with its time-to-live, the cache/primary/fallback
 * decision of `generate`, and the process-wide factory of `get_llm_factory`.
 *
 * The clock is a parameter (`now`), backend SDK calls are outcome oracles,
 * and the cache is keyed by the request itself rather than by its md5 digest.
 */
module LlmFactory {
  import opened Wrappers
  import opened Errors
  import opened Text
  import opened LlmBase
  import Config
  import OpenAIBackend
  import AnthropicBackend

  /** The `**backend_kwargs` handed to either backend's constructor. */
  datatype BackendArgs = BackendArgs(model: Option<string>, temperature: Option<real>, maxTokens: Option<int>, apiKey: Option<string>)

  const DefaultTemperature: real := 0.3
  const DefaultMaxTokens: int := 2048
  const DefaultCacheTtl: int := 3600

  /** A constructed backend and which provider it talks to. */
  datatype Backend = Backend(provider: Provider, config: BackendConfig)

  /** `_create_backend(name)`: the name is lower-cased, and only the two providers are known. */
  function CreateBackend(name: string, args: BackendArgs, env: map<string, string>, libraryAvailable: bool): (r: Result<Backend, Error>)
    ensures r.Ok? ==> r.value.provider.Value() == Lower(name)
    ensures Lower(name) != "openai" && Lower(name) != "anthropic" ==>
      r == Err(ValueError("Unknown backend: " + Lower(name) + ". Supported backends: openai, anthropic"))
    ensures Lower(name) == "openai" ==> (r.Ok? <==> ValidateKey(ResolveKey(args.apiKey, env, OpenAIBackend.Key), OpenAIBackend.Key).Ok?)
    ensures Lower(name) == "anthropic" ==>
      (r.Ok? <==> libraryAvailable && ValidateKey(ResolveKey(args.apiKey, env, AnthropicBackend.Key), AnthropicBackend.Key).Ok?)
  {
    var n := Lower(name);
    var temperature := args.temperature.GetOr(DefaultTemperature);
    var maxTokens := args.maxTokens.GetOr(DefaultMaxTokens);
    if n == "openai" then
      var c :- OpenAIBackend.New(args.model.GetOr(OpenAIBackend.DefaultModel), temperature, maxTokens, args.apiKey, env);
      Ok(Backend(OpenAI, c))
    else if n == "anthropic" then
      var c :- AnthropicBackend.New(args.model.GetOr(AnthropicBackend.DefaultModel), temperature, maxTokens, args.apiKey, env, libraryAvailable);
      Ok(Backend(Anthropic, c))
    else Err(ValueError("Unknown backend: " + n + ". Supported backends: openai, anthropic"))
  }

  /** Backend names are case-insensitive. */
  lemma CreateBackendCaseInsensitive(name: string, args: BackendArgs, env: map<string, string>, libraryAvailable: bool)
    ensures CreateBackend(name, args, env, libraryAvailable) == CreateBackend(Lower(name), args, env, libraryAvailable)
  {
    LowerIdempotent(name);
  }

  /** The backend's `generate`. */
  function BackendGenerate(b: Backend, msgs: seq<Message>, outcomes: nat -> ApiOutcome): (r: Result<Response, Error>)
    ensures r.Err? ==> r.error.IsLLMError()
    ensures r.Ok? ==> !r.value.cached && r.value.provider == b.provider
  {
    match b.provider
    case OpenAI => OpenAIBackend.Generate(b.config, msgs, outcomes)
    case Anthropic => AnthropicBackend.Generate(b.config, msgs, outcomes)
  }

  /** What the cache key is computed from: the messages' roles and contents, the model and the temperature. */
  datatype CacheKey = CacheKey(messages: seq<(string, string)>, model: string, temperature: real)

  /** `ResponseCache`: each key maps to the stored content and the time it was stored. */
  datatype ResponseCache = ResponseCache(entries: map<CacheKey, (string, int)>, ttl: int)

  function KeyOf(msgs: seq<Message>, model: string, temperature: real): CacheKey {
    CacheKey(Pairs(msgs), model, temperature)
  }

  /** An entry is fresh while less than `ttl` has passed since it was stored. */
  predicate Fresh(c: ResponseCache, k: CacheKey, now: int) {
    k in c.entries && now - c.entries[k].1 < c.ttl
  }

  /** `cache.get(messages, model, temperature)` at time `now`: an expired entry is deleted. */
  function CacheGet(c: ResponseCache, msgs: seq<Message>, model: string, temperature: real, now: int): (r: (Option<string>, ResponseCache))
    ensures r.0.Some? <==> Fresh(c, KeyOf(msgs, model, temperature), now)
    ensures r.0.Some? ==> r.0.value == c.entries[KeyOf(msgs, model, temperature)].0 && r.1 == c
    ensures r.0.None? ==> r.1 == c.(entries := c.entries - {KeyOf(msgs, model, temperature)})
  {
    var k := KeyOf(msgs, model, temperature);
    if k in c.entries then
      if now - c.entries[k].1 < c.ttl then (Some(c.entries[k].0), c)
      else (None, c.(entries := c.entries - {k}))
    else (None, c)
  }

  /** `cache.set(messages, model, temperature, response)` at time `now`. */
  function CacheSet(c: ResponseCache, msgs: seq<Message>, model: string, temperature: real, response: string, now: int): (r: ResponseCache)
    ensures r.ttl == c.ttl
    ensures KeyOf(msgs, model, temperature) in r.entries
    ensures forall k :: k != KeyOf(msgs, model, temperature) ==> (k in r.entries <==> k in c.entries)
  {
    c.(entries := c.entries[KeyOf(msgs, model, temperature) := (response, now)])
  }

  /** `cache.clear()`. */
  function CacheClear(c: ResponseCache): (r: ResponseCache)
    ensures forall k, now :: !Fresh(r, k, now)
  {
    c.(entries := map[])
  }

  /** What was stored is served back until the time-to-live has passed, and no longer. */
  lemma CacheSetGet(c: ResponseCache, msgs: seq<Message>, model: string, temperature: real, response: string, now: int, later: int)
    ensures later - now < c.ttl ==> CacheGet(CacheSet(c, msgs, model, temperature, response, now), msgs, model, temperature, later).0 == Some(response)
    ensures later - now >= c.ttl ==> CacheGet(CacheSet(c, msgs, model, temperature, response, now), msgs, model, temperature, later).0.None?
  {
  }

  /** Storing under one key leaves what every other key serves unchanged. */
  lemma CacheSetOthers(c: ResponseCache, msgs: seq<Message>, model: string, temperature: real, response: string, now: int,
                       msgs': seq<Message>, model': string, temperature': real, later: int)
    requires KeyOf(msgs', model', temperature') != KeyOf(msgs, model, temperature)
    ensures CacheGet(CacheSet(c, msgs, model, temperature, response, now), msgs', model', temperature', later).0
         == CacheGet(c, msgs', model', temperature', later).0
  {
  }

  /** Two requests with the same roles, contents, model and temperature share their cache entry. */
  lemma CacheKeyIsContent(c: ResponseCache, m1: seq<Message>, m2: seq<Message>, model: string, temperature: real, now: int)
    requires |m1| == |m2| && forall i :: 0 <= i < |m1| ==> m1[i].role == m2[i].role && m1[i].content == m2[i].content
    ensures CacheGet(c, m1, model, temperature, now) == CacheGet(c, m2, model, temperature, now)
  {
    assert Pairs(m1) == Pairs(m2);
  }

  /** `LLMBackendFactory`'s state. */
  datatype Factory = Factory(
    primaryName: string,
    fallbackName: Option<string>,
    cache: Option<ResponseCache>,
    primary: Backend,
    fallback: Option<Backend>)

  /**
   * `LLMBackendFactory(primary, fallback, enable_cache, cache_ttl, **args)`:
   * a primary that cannot be built is an error, a fallback that cannot be
   * built is dropped.
   */
  function NewFactory(primaryName: string, fallbackName: Option<string>, enableCache: bool, cacheTtl: int,
                      args: BackendArgs, env: map<string, string>, libraryAvailable: bool): (r: Result<Factory, Error>)
    ensures r.Ok? <==> CreateBackend(primaryName, args, env, libraryAvailable).Ok?
    ensures r.Err? ==> r.error == CreateBackend(primaryName, args, env, libraryAvailable).error
    ensures r.Ok? ==> r.value.primary == CreateBackend(primaryName, args, env, libraryAvailable).value
    ensures r.Ok? ==> (r.value.fallback.Some? <==>
      fallbackName.Some? && fallbackName.value != "" && CreateBackend(fallbackName.value, args, env, libraryAvailable).Ok?)
    ensures r.Ok? && r.value.fallback.Some? ==> r.value.fallback == Some(CreateBackend(fallbackName.value, args, env, libraryAvailable).value)
    ensures r.Ok? ==> (r.value.cache.Some? <==> enableCache) && (enableCache ==> r.value.cache == Some(ResponseCache(map[], cacheTtl)))
  {
    var primary :- CreateBackend(primaryName, args, env, libraryAvailable);
    var fallback :=
      if fallbackName.Some? && fallbackName.value != "" then
        match CreateBackend(fallbackName.value, args, env, libraryAvailable)
        case Ok(b) => Some(b)
        case Err(_) => None
      else None;
    Ok(Factory(primaryName, fallbackName, if enableCache then Some(ResponseCache(map[], cacheTtl)) else None, primary, fallback))
  }

  /** The outcome of `generate`: the result, the factory afterwards, and which backends were called. */
  datatype Outcome = Outcome(result: Result<Response, Error>, factory: Factory, calledPrimary: bool, calledFallback: bool)

  /** The cache is enabled and holds a fresh, non-empty answer under the primary's model and temperature. */
  predicate CacheHit(f: Factory, msgs: seq<Message>, now: int) {
    var k := KeyOf(msgs, f.primary.config.model, f.primary.config.temperature);
    f.cache.Some? && Fresh(f.cache.value, k, now) && f.cache.value.entries[k].0 != ""
  }

  /** The cache lookup of `generate`, if the cache is enabled. */
  function Lookup(f: Factory, msgs: seq<Message>, now: int): (Option<string>, Factory) {
    if f.cache.Some? then
      var (hit, c) := CacheGet(f.cache.value, msgs, f.primary.config.model, f.primary.config.temperature, now);
      (hit, f.(cache := Some(c)))
    else (None, f)
  }

  /** Caching a successful response under the backend that produced it. */
  function Store(f: Factory, b: Backend, msgs: seq<Message>, content: string, now: int): Factory {
    if f.cache.Some? then f.(cache := Some(CacheSet(f.cache.value, msgs, b.config.model, b.config.temperature, content, now)))
    else f
  }

  /** An error of the primary that the fallback is tried for. */
  predicate FallbackWorthy(e: Error) {
    e.IsLLMError() && !e.RateLimitError? && !e.AuthenticationError?
  }

  function BothFailed(f: Factory, e: Error, fe: Error): Error {
    LLMError("Both primary (" + f.primaryName + ") and fallback (" + f.fallbackName.GetOr("None") + ") backends failed. Primary error: "
      + e.Str() + ". Fallback error: " + fe.Str())
  }

  /**
   * `generate(messages, use_fallback)` at time `now`, with `primaryCalls` and
   * `fallbackCalls` the SDK outcomes of the two backends.
   */
  function Generate(f: Factory, msgs: seq<Message>, useFallback: bool, primaryCalls: nat -> ApiOutcome, fallbackCalls: nat -> ApiOutcome, now: int): (o: Outcome)
    ensures o.factory.primary == f.primary && o.factory.fallback == f.fallback && o.factory.primaryName == f.primaryName
    ensures o.factory.cache.Some? <==> f.cache.Some?
    ensures o.calledFallback ==> o.calledPrimary
    ensures !o.calledPrimary <==> CacheHit(f, msgs, now)
    ensures !o.calledPrimary ==> o.result == Ok(Response(
      f.cache.value.entries[KeyOf(msgs, f.primary.config.model, f.primary.config.temperature)].0,
      f.primary.config.model, f.primary.provider, None, true))
    ensures o.calledPrimary ==> (o.result.Ok? && o.result.value.cached) == false
    ensures o.calledFallback <==> (o.calledPrimary && BackendGenerate(f.primary, msgs, primaryCalls).Err?
      && FallbackWorthy(BackendGenerate(f.primary, msgs, primaryCalls).error) && useFallback && f.fallback.Some?)
    ensures o.calledPrimary && !o.calledFallback ==> o.result == BackendGenerate(f.primary, msgs, primaryCalls)
    ensures o.calledFallback && BackendGenerate(f.fallback.value, msgs, fallbackCalls).Ok? ==>
      o.result == BackendGenerate(f.fallback.value, msgs, fallbackCalls)
    ensures o.calledFallback && BackendGenerate(f.fallback.value, msgs, fallbackCalls).Err? ==>
      o.result == Err(BothFailed(f, BackendGenerate(f.primary, msgs, primaryCalls).error, BackendGenerate(f.fallback.value, msgs, fallbackCalls).error))
  {
    var (hit, f1) := Lookup(f, msgs, now);
    if hit.Some? && hit.value != "" then
      Outcome(Ok(Response(hit.value, f.primary.config.model, f.primary.provider, None, true)), f1, false, false)
    else
      match BackendGenerate(f.primary, msgs, primaryCalls)
      case Ok(resp) => Outcome(Ok(resp), Store(f1, f.primary, msgs, resp.content, now), true, false)
      case Err(e) =>
        if e.RateLimitError? || e.AuthenticationError? then Outcome(Err(e), f1, true, false)
        else if e.IsLLMError() && useFallback && f.fallback.Some? then
          match BackendGenerate(f.fallback.value, msgs, fallbackCalls)
          case Ok(resp) => Outcome(Ok(resp), Store(f1, f.fallback.value, msgs, resp.content, now), true, true)
          case Err(fe) => Outcome(Err(BothFailed(f, e, fe)), f1, true, true)
        else Outcome(Err(e), f1, true, false)
  }

  /** A successful answer is cached under the model and temperature of the backend that gave it. */
  lemma GenerateCachesAnswer(f: Factory, msgs: seq<Message>, useFallback: bool, primaryCalls: nat -> ApiOutcome, fallbackCalls: nat -> ApiOutcome, now: int)
    requires f.cache.Some?
    ensures
      var o := Generate(f, msgs, useFallback, primaryCalls, fallbackCalls, now);
      var b := if o.calledFallback then f.fallback.value else f.primary;
      o.calledPrimary && o.result.Ok? ==>
        o.factory.cache.value.entries[KeyOf(msgs, b.config.model, b.config.temperature)] == (o.result.value.content, now)
  {
  }

  /**
   * Asking again within the time-to-live, after the primary answered with
   * non-empty content, is served from the cache without calling any backend.
   */
  lemma GenerateThenHit(f: Factory, msgs: seq<Message>, useFallback: bool, primaryCalls: nat -> ApiOutcome, fallbackCalls: nat -> ApiOutcome,
                        now: int, later: int, useFallback': bool, primaryCalls': nat -> ApiOutcome, fallbackCalls': nat -> ApiOutcome)
    requires f.cache.Some? && later - now < f.cache.value.ttl
    requires
      var o := Generate(f, msgs, useFallback, primaryCalls, fallbackCalls, now);
      o.calledPrimary && !o.calledFallback && o.result.Ok? && o.result.value.content != ""
    ensures
      var o := Generate(f, msgs, useFallback, primaryCalls, fallbackCalls, now);
      var o' := Generate(o.factory, msgs, useFallback', primaryCalls', fallbackCalls', later);
      !o'.calledPrimary && o'.result == Ok(Response(o.result.value.content, f.primary.config.model, f.primary.provider, None, true))
  {
    var o := Generate(f, msgs, useFallback, primaryCalls, fallbackCalls, now);
    GenerateCachesAnswer(f, msgs, useFallback, primaryCalls, fallbackCalls, now);
    assert o.factory.cache.value.ttl == f.cache.value.ttl;
  }

  /** `generate_simple(prompt, system_prompt, context, use_fallback)`: the content of the answer. */
  function GenerateSimple(f: Factory, prompt: string, systemPrompt: Option<string>, context: Option<string>, useFallback: bool,
                          primaryCalls: nat -> ApiOutcome, fallbackCalls: nat -> ApiOutcome, now: int): (r: (Result<string, Error>, Factory))
    ensures
      var o := Generate(f, SimpleMessages(prompt, systemPrompt, context), useFallback, primaryCalls, fallbackCalls, now);
      && r.1 == o.factory
      && (r.0.Ok? <==> o.result.Ok?)
      && (r.0.Ok? ==> r.0.value == o.result.value.content)
  {
    var o := Generate(f, SimpleMessages(prompt, systemPrompt, context), useFallback, primaryCalls, fallbackCalls, now);
    match o.result
    case Ok(resp) => (Ok(resp.content), o.factory)
    case Err(e) => (Err(e), o.factory)
  }

  /** `clear_cache()`. */
  function ClearCache(f: Factory): (r: Factory)
    ensures r.cache.Some? <==> f.cache.Some?
    ensures forall msgs, now :: !CacheHit(r, msgs, now)
  {
    if f.cache.Some? then f.(cache := Some(CacheClear(f.cache.value))) else f
  }

  /** The fallback name `get_llm_factory` uses: the argument as given, else the environment's unless it says "none". */
  function ResolveFallback(fallback: Option<string>, env: map<string, string>): (r: Option<string>)
    ensures fallback.Some? ==> r == fallback
    ensures fallback.None? ==> (r.None? <==> Lower(Config.GetEnv(env, "LLM_FALLBACK_BACKEND", "anthropic")) == "none")
    ensures fallback.None? && r.Some? ==> r.value == Config.GetEnv(env, "LLM_FALLBACK_BACKEND", "anthropic")
  {
    if fallback.Some? then fallback
    else
      var v := Config.GetEnv(env, "LLM_FALLBACK_BACKEND", "anthropic");
      if Lower(v) == "none" then None else Some(v)
  }

  /**
   * `get_llm_factory(primary, fallback, enable_cache, **args)` given the
   * process-wide factory so far: it is created on the first call and
   * returned unchanged afterwards, whatever the arguments.
   */
  function GetLlmFactory(global: Option<Factory>, primary: Option<string>, fallback: Option<string>, enableCache: Option<bool>,
                         args: BackendArgs, env: map<string, string>, libraryAvailable: bool): (r: (Result<Factory, Error>, Option<Factory>))
    ensures global.Some? ==> r == (Ok(global.value), global)
    ensures global.None? ==> r.1 == (if r.0.Ok? then Some(r.0.value) else None)
    ensures global.None? ==> r.0 == NewFactory(
      primary.GetOr(Config.GetEnv(env, "LLM_PRIMARY_BACKEND", "openai")),
      ResolveFallback(fallback, env),
      enableCache.GetOr(Lower(Config.GetEnv(env, "ENABLE_CACHE", "true")) == "true"),
      DefaultCacheTtl, args, env, libraryAvailable)
  {
    if global.Some? then (Ok(global.value), global)
    else
      var p := primary.GetOr(Config.GetEnv(env, "LLM_PRIMARY_BACKEND", "openai"));
      var e := enableCache.GetOr(Lower(Config.GetEnv(env, "ENABLE_CACHE", "true")) == "true");
      var made := NewFactory(p, ResolveFallback(fallback, env), e, DefaultCacheTtl, args, env, libraryAvailable);
      (made, if made.Ok? then Some(made.value) else None)
  }

  /** Once a factory exists, every later call returns that same factory. */
  lemma FactoryIsSingleton(primary: Option<string>, fallback: Option<string>, enableCache: Option<bool>, args: BackendArgs,
                           primary': Option<string>, fallback': Option<string>, enableCache': Option<bool>, args': BackendArgs,
                           env: map<string, string>, libraryAvailable: bool)
    requires GetLlmFactory(None, primary, fallback, enableCache, args, env, libraryAvailable).0.Ok?
    ensures
      var first := GetLlmFactory(None, primary, fallback, enableCache, args, env, libraryAvailable);
      GetLlmFactory(first.1, primary', fallback', enableCache', args', env, libraryAvailable) == first
  {
  }
}
