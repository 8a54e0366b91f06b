/**
 * What the two LLM backends share (llm_backends/base.py and the identical
 * parts of openai_backend.py and anthropic_backend.py): messages and
 * responses, the SDK call as an outcome oracle, the `generate_simple`
 * message construction and the classification of SDK failures into the
 * LLM error family.
 */
module LlmBase {
  import opened Wrappers
  import opened Errors
  import opened Text
  import opened Retry
  import opened Seqs

  datatype Provider = OpenAI | Anthropic {
    /** The enum value. */
    function Value(): string {
      match this
      case OpenAI => "openai"
      case Anthropic => "anthropic"
    }
  }

  /** `LLMMessage`. */
  datatype Message = Message(role: string, content: string)

  /**
   * How one backend finds and checks its API key: the environment variable
   * it falls back on, the prefix a well-formed key starts with, and the
   * messages for a missing and a malformed key.
   */
  datatype KeyRule = KeyRule(variable: string, prefix: string, missing: string, malformed: string)

  /** An explicit key wins, even an empty one; otherwise the environment's, if set. */
  function ResolveKey(apiKey: Option<string>, env: map<string, string>, rule: KeyRule): (k: Option<string>)
    ensures apiKey.Some? ==> k == apiKey
    ensures apiKey.None? ==> (k.Some? <==> rule.variable in env)
    ensures apiKey.None? && k.Some? ==> k.value == env[rule.variable]
  {
    if apiKey.Some? then apiKey
    else if rule.variable in env then Some(env[rule.variable])
    else None
  }

  /** `_validate_config()`. */
  function ValidateKey(key: Option<string>, rule: KeyRule): (r: Result<string, Error>)
    ensures r.Ok? <==> key.Some? && key.value != "" && StartsWith(key.value, rule.prefix)
    ensures r.Ok? ==> r.value == key.value
    ensures r.Err? ==> r.error == ValueError(if key.None? || key.value == "" then rule.missing else rule.malformed)
  {
    if key.None? || key.value == "" then Err(ValueError(rule.missing))
    else if !StartsWith(key.value, rule.prefix) then Err(ValueError(rule.malformed))
    else Ok(key.value)
  }

  /** The token counts of `LLMResponse.usage`. */
  datatype Usage = Usage(promptTokens: int, completionTokens: int, totalTokens: int)

  /** `LLMResponse`. */
  datatype Response = Response(content: string, model: string, provider: Provider, usage: Option<Usage>, cached: bool)

  /** A configured backend: what `BaseLLMBackend.__init__` stores. */
  datatype BackendConfig = BackendConfig(model: string, temperature: real, maxTokens: int, apiKey: string)

  /** The token figures an SDK reply reports (`input`/`output` for Anthropic, `prompt`/`completion`/`total` for OpenAI). */
  datatype ApiUsage = ApiUsage(input: int, output: int, total: int)

  /** What the SDK call returns: the reply texts (`content` blocks or `choices`), the model and the usage. */
  datatype ApiReply = ApiReply(texts: seq<string>, model: string, usage: Option<ApiUsage>)

  /** What the SDK call raises. */
  datatype ApiFailure =
    | SdkRateLimit(message: string)
    /** Any other exception of the SDK's own hierarchy. */
    | SdkError(message: string)
    /** An exception from outside the SDK's hierarchy. */
    | Unexpected(message: string)

  type ApiOutcome = Result<ApiReply, ApiFailure>

  /** An exception leaving a backend's `generate`: the SDK's own, or a translated one. */
  datatype Escaped = Sdk(failure: ApiFailure) | Translated(error: Error)

  /** `retry_if_exception_type(<SDK>RateLimitError)`. */
  predicate IsSdkRateLimit(e: Escaped) {
    e.Sdk? && e.failure.SdkRateLimit?
  }

  /** The message Python raises for `reply[0]` on an empty list. */
  const IndexErrorMessage := "list index out of range"

  /**
   * The backends' `generate_simple` message list: an optional system message
   * (only for a non-empty system prompt) and one user message, which wraps
   * the prompt with a non-empty context.
   */
  function SimpleMessages(prompt: string, systemPrompt: Option<string>, context: Option<string>): (msgs: seq<Message>)
    ensures |msgs| == (if systemPrompt.Some? && systemPrompt.value != "" then 2 else 1)
    ensures msgs[|msgs| - 1].role == "user"
    ensures |msgs| == 2 ==> msgs[0] == Message("system", systemPrompt.value)
  {
    var user := if context.Some? && context.value != "" then "Context:\n" + context.value + "\n\nQuestion:\n" + prompt else prompt;
    (if systemPrompt.Some? && systemPrompt.value != "" then [Message("system", systemPrompt.value)] else [])
      + [Message("user", user)]
  }

  /**
   * The user message always ends with the prompt, is the prompt itself
   * without context, and otherwise starts with the context block.
   */
  lemma SimpleMessagesCarryPrompt(prompt: string, systemPrompt: Option<string>, context: Option<string>)
    ensures
      var user := SimpleMessages(prompt, systemPrompt, context)[|SimpleMessages(prompt, systemPrompt, context)| - 1].content;
      && prompt <= user[|user| - |prompt|..]
      && |prompt| <= |user|
      && ((context.None? || context.value == "") ==> user == prompt)
      && ((context.Some? && context.value != "") ==> StartsWith(user, "Context:\n" + context.value))
  {
    var msgs := SimpleMessages(prompt, systemPrompt, context);
    var user := msgs[|msgs| - 1].content;
    if context.Some? && context.value != "" {
      var head := "Context:\n" + context.value + "\n\nQuestion:\n";
      assert user == head + prompt;
      assert user[|user| - |prompt|..] == prompt;
      assert user[..|"Context:\n" + context.value|] == "Context:\n" + context.value;
    }
  }

  predicate IsAuthFailure(message: string) {
    Contains(message, "invalid_api_key") || Contains(Lower(message), "authentication")
  }

  predicate IsModelFailure(message: string, model: string) {
    Contains(message, "model_not_found") || Contains(message, "model '" + model + "'")
  }

  /**
   * The `except` chain of both backends' `generate`, for a backend named
   * `vendor` ("OpenAI" or "Anthropic"): the SDK's rate-limit exception first,
   * then the SDK's other exceptions by message substring (authentication,
   * then unknown model, then generic), then anything else.
   */
  function ClassifyFailure(vendor: string, model: string, supportedModels: seq<string>, f: ApiFailure): (e: Error)
    ensures e.IsLLMError() && !e.ContextLengthExceededError?
    ensures e.RateLimitError? <==> f.SdkRateLimit?
    ensures e.AuthenticationError? <==> f.SdkError? && IsAuthFailure(f.message)
    ensures e.ModelNotFoundError? <==> f.SdkError? && !IsAuthFailure(f.message) && IsModelFailure(f.message, model)
    ensures e.LLMError? <==> f.Unexpected? || (f.SdkError? && !IsAuthFailure(f.message) && !IsModelFailure(f.message, model))
    ensures !e.ModelNotFoundError? ==> Contains(e.message, f.message)
  {
    match f
    case SdkRateLimit(m) =>
      var e := RateLimitError(vendor + " rate limit exceeded: " + m + ". Please wait a moment and try again.");
      ContainsMiddle(vendor + " rate limit exceeded: ", m, ". Please wait a moment and try again.");
      e
    case SdkError(m) =>
      if IsAuthFailure(m) then
        ContainsMiddle(vendor + " authentication failed: ", m, ". Please check your API key.");
        AuthenticationError(vendor + " authentication failed: " + m + ". Please check your API key.")
      else if IsModelFailure(m, model) then
        ModelNotFoundError("Model '" + model + "' not found. Supported models: " + Join(supportedModels, ", "))
      else
        ContainsEnd(vendor + " API error: ", m);
        LLMError(vendor + " API error: " + m)
    case Unexpected(m) =>
      ContainsEnd("Unexpected error during " + vendor + " API call: ", m);
      LLMError("Unexpected error during " + vendor + " API call: " + m)
  }

  /** A string occurs in any text that has it in the middle. */
  lemma ContainsMiddle(a: string, m: string, b: string)
    ensures Contains(a + m + b, m)
  {
    var s := a + m + b;
    assert s[|a|..|a| + |m|] == m;
    assert OccursAt(s, m, |a|);
  }

  /** A string occurs in any text that ends with it. */
  lemma ContainsEnd(a: string, m: string)
    ensures Contains(a + m, m)
  {
    var s := a + m;
    assert s[|a|..|a| + |m|] == m;
    assert OccursAt(s, m, |a|);
  }

  /**
   * Whatever the SDK raises, the exception leaving a backend's `generate` is
   * a translated one, so `retry_if_exception_type(<SDK>RateLimitError)`
   * never fires: every `generate` makes exactly one attempt.
   */
  lemma TranslatedNeverRetried<T>(attempt: nat -> Result<T, Escaped>)
    requires forall i :: attempt(i).Err? ==> attempt(i).error.Translated?
    ensures WithRetry(attempt, IsSdkRateLimit) == (attempt(0), 1)
  {
    if attempt(0).Err? {
      NoRetryOnRejectedError(attempt, IsSdkRateLimit);
    }
  }

  /** The exception a backend call leaves with, as the modelled error. */
  function Unescape<T>(r: Result<T, Escaped>): Result<T, Error>
    requires r.Err? ==> r.error.Translated?
  {
    match r
    case Ok(v) => Ok(v)
    case Err(e) => Err(e.error)
  }

  /** Messages as the role/content dicts the SDKs take, in order. */
  function Pairs(msgs: seq<Message>): (ps: seq<(string, string)>)
    ensures |ps| == |msgs|
    ensures forall i :: 0 <= i < |msgs| ==> ps[i] == (msgs[i].role, msgs[i].content)
  {
    Map(msgs, (m: Message) => (m.role, m.content))
  }
}
