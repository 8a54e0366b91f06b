/**
 * The OpenAI backend (llm_backends/openai_backend.py): key lookup and
 * validation, availability, the one-to-one message mapping, the response
 * and usage figures, the error translation of `generate` and the model
 * listing with its static fallback. SDK calls are outcome oracles.
 */
module OpenAIBackend {
  import opened Wrappers
  import opened Errors
  import opened Text
  import opened Seqs
  import opened Retry
  import opened LlmBase

  const SupportedModels: seq<string> := [
    "gpt-4",
    "gpt-4-turbo",
    "gpt-4-turbo-preview",
    "gpt-3.5-turbo",
    "gpt-3.5-turbo-16k"
  ]

  const DefaultModel := "gpt-3.5-turbo"
  const KeyPrefix := "sk-"
  const KeyVariable := "OPENAI_API_KEY"

  const KeyMissing := "OpenAI API key is required. Set OPENAI_API_KEY environment variable or provide it as a parameter."
  const KeyMalformed := "Invalid OpenAI API key format. API keys should start with 'sk-'"

  /** The key this backend looks for and accepts. */
  const Key := KeyRule(KeyVariable, KeyPrefix, KeyMissing, KeyMalformed)

  /** The prefix check is loose: a key in Anthropic's format passes it too. */
  lemma AnthropicKeyAccepted(key: string)
    requires StartsWith(key, "sk-ant-")
    ensures ValidateKey(Some(key), Key).Ok?
  {
    assert key[..3] == "sk-ant-"[..3];
    assert "sk-ant-"[..3] == KeyPrefix;
  }

  /** `OpenAIBackend(model, temperature, max_tokens, api_key)`. */
  function New(model: string, temperature: real, maxTokens: int, apiKey: Option<string>, env: map<string, string>): (r: Result<BackendConfig, Error>)
    ensures r.Ok? <==> ValidateKey(ResolveKey(apiKey, env, Key), Key).Ok?
    ensures r.Ok? ==> r.value == BackendConfig(model, temperature, maxTokens, ResolveKey(apiKey, env, Key).value)
  {
    var key :- ValidateKey(ResolveKey(apiKey, env, Key), Key);
    Ok(BackendConfig(model, temperature, maxTokens, key))
  }

  /** `is_available()`. */
  predicate IsAvailable(b: BackendConfig) {
    b.apiKey != "" && StartsWith(b.apiKey, KeyPrefix)
  }

  /** Every backend that could be constructed reports itself available. */
  lemma ConstructedIsAvailable(model: string, temperature: real, maxTokens: int, apiKey: Option<string>, env: map<string, string>)
    requires New(model, temperature, maxTokens, apiKey, env).Ok?
    ensures IsAvailable(New(model, temperature, maxTokens, apiKey, env).value)
  {
  }

  /** The `chat.completions.create` parameters. */
  datatype Request = Request(model: string, messages: seq<(string, string)>, temperature: real, maxTokens: int)

  /** The request `generate` sends: every message, in order, as a role/content pair. */
  function BuildRequest(b: BackendConfig, msgs: seq<Message>): (r: Request)
    ensures r.model == b.model && r.temperature == b.temperature && r.maxTokens == b.maxTokens
    ensures |r.messages| == |msgs|
    ensures forall i :: 0 <= i < |msgs| ==> r.messages[i] == (msgs[i].role, msgs[i].content)
  {
    Request(b.model, Pairs(msgs), b.temperature, b.maxTokens)
  }

  /** `usage` of the response: the three counts as reported. */
  function UsageOf(u: Option<ApiUsage>): (r: Option<Usage>)
    ensures r.Some? <==> u.Some?
    ensures r.Some? ==> r.value == Usage(u.value.input, u.value.output, u.value.total)
  {
    match u
    case None => None
    case Some(x) => Some(Usage(x.input, x.output, x.total))
  }

  /** One attempt of `generate`: every failure leaves translated. */
  function Attempt(b: BackendConfig, outcome: ApiOutcome): (r: Result<Response, Escaped>)
    ensures r.Err? ==> r.error.Translated?
  {
    match outcome
    case Ok(reply) =>
      if |reply.texts| == 0 then Err(Translated(ClassifyFailure("OpenAI", b.model, SupportedModels, Unexpected(IndexErrorMessage))))
      else Ok(Response(reply.texts[0], reply.model, OpenAI, UsageOf(reply.usage), false))
    case Err(f) => Err(Translated(ClassifyFailure("OpenAI", b.model, SupportedModels, f)))
  }

  /**
   * `generate(messages)` under the retry decorator, with `outcomes(i)` the
   * SDK's answer to attempt `i` (the request is `BuildRequest(b, msgs)`).
   * Since no SDK exception leaves the method, only the first attempt counts.
   */
  function Generate(b: BackendConfig, msgs: seq<Message>, outcomes: nat -> ApiOutcome): (r: Result<Response, Error>)
    ensures r.Ok? <==> outcomes(0).Ok? && |outcomes(0).value.texts| > 0
    ensures r.Ok? ==> r.value == Response(outcomes(0).value.texts[0], outcomes(0).value.model, OpenAI, UsageOf(outcomes(0).value.usage), false)
    ensures r.Err? ==> r.error.IsLLMError()
    ensures outcomes(0).Err? ==> r == Err(ClassifyFailure("OpenAI", b.model, SupportedModels, outcomes(0).error))
  {
    var attempt := (i: nat) => Attempt(b, outcomes(i));
    assert forall i: nat :: attempt(i) == Attempt(b, outcomes(i));
    TranslatedNeverRetried(attempt);
    var (res, _) := WithRetry(attempt, IsSdkRateLimit);
    Unescape(res)
  }

  /** `generate_simple(prompt, system_prompt, context)`: the content of the generated response. */
  function GenerateSimple(b: BackendConfig, prompt: string, systemPrompt: Option<string>, context: Option<string>, outcomes: nat -> ApiOutcome): (r: Result<string, Error>)
    ensures r.Ok? <==> Generate(b, SimpleMessages(prompt, systemPrompt, context), outcomes).Ok?
    ensures r.Ok? ==> r.value == outcomes(0).value.texts[0]
  {
    var resp :- Generate(b, SimpleMessages(prompt, systemPrompt, context), outcomes);
    Ok(resp.content)
  }

  /** `get_provider()`. */
  function GetProvider(): (p: Provider)
    ensures p.Value() == "openai"
  {
    OpenAI
  }

  predicate IsGpt(id: string) {
    Contains(id, "gpt")
  }

  /** `list_models()`, given the ids the API listed or the exception it raised. */
  function ListModels(listed: Result<seq<string>, Error>): (r: seq<string>)
    ensures listed.Err? ==> r == SupportedModels
    ensures listed.Ok? ==> forall i :: 0 <= i < |r| ==> IsGpt(r[i]) && r[i] in listed.value
    ensures listed.Ok? ==> forall i :: 0 <= i < |listed.value| && IsGpt(listed.value[i]) ==> listed.value[i] in r
  {
    match listed
    case Ok(ids) => Filter(ids, IsGpt)
    case Err(_) => SupportedModels
  }

  /** The listing keeps the API's order: listing the listing again changes nothing. */
  lemma ListModelsStable(ids: seq<string>)
    ensures ListModels(Ok(ListModels(Ok(ids)))) == ListModels(Ok(ids))
  {
    FilterIdempotent(ids, IsGpt);
  }
}
