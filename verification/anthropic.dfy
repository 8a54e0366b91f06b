/**
 * The Anthropic backend (llm_backends/anthropic_backend.py): key lookup and
 * validation, availability, the request built from a message list (the
 * system prompt travels separately), the response and usage figures, and
 * the error translation of `generate`. The SDK call is an outcome oracle,
 * one outcome per attempt.
 */
module AnthropicBackend {
  import opened Wrappers
  import opened Errors
  import opened Text
  import opened Retry
  import opened LlmBase

  const SupportedModels: seq<string> := [
    "claude-3-5-sonnet-20241022",
    "claude-3-opus-20240229",
    "claude-3-sonnet-20240229",
    "claude-3-haiku-20240307"
  ]

  const DefaultModel := "claude-3-5-sonnet-20241022"
  const KeyPrefix := "sk-ant-"
  const KeyVariable := "ANTHROPIC_API_KEY"

  const LibraryMissing := "Anthropic library is not installed. Install with: pip install anthropic"
  const KeyMissing := "Anthropic API key is required. Set ANTHROPIC_API_KEY environment variable or provide it as a parameter."
  const KeyMalformed := "Invalid Anthropic API key format. API keys should start with 'sk-ant-'"

  /** The key this backend looks for and accepts. */
  const Key := KeyRule(KeyVariable, KeyPrefix, KeyMissing, KeyMalformed)

  /** `AnthropicBackend(model, temperature, max_tokens, api_key)` with the library present or not. */
  function New(model: string, temperature: real, maxTokens: int, apiKey: Option<string>, env: map<string, string>, libraryAvailable: bool): (r: Result<BackendConfig, Error>)
    ensures !libraryAvailable ==> r == Err(ValueError(LibraryMissing))
    ensures r.Ok? <==> libraryAvailable && ValidateKey(ResolveKey(apiKey, env, Key), Key).Ok?
    ensures r.Ok? ==> r.value == BackendConfig(model, temperature, maxTokens, ResolveKey(apiKey, env, Key).value)
  {
    if !libraryAvailable then Err(ValueError(LibraryMissing))
    else
      var key :- ValidateKey(ResolveKey(apiKey, env, Key), Key);
      Ok(BackendConfig(model, temperature, maxTokens, key))
  }

  /** `is_available()`. */
  predicate IsAvailable(b: BackendConfig, libraryAvailable: bool) {
    libraryAvailable && b.apiKey != "" && StartsWith(b.apiKey, KeyPrefix)
  }

  /** Every backend that could be constructed reports itself available. */
  lemma ConstructedIsAvailable(model: string, temperature: real, maxTokens: int, apiKey: Option<string>, env: map<string, string>, libraryAvailable: bool)
    requires New(model, temperature, maxTokens, apiKey, env, libraryAvailable).Ok?
    ensures IsAvailable(New(model, temperature, maxTokens, apiKey, env, libraryAvailable).value, libraryAvailable)
  {
  }

  /** The `messages.create` parameters; `system` is absent unless there is a non-empty system prompt. */
  datatype Request = Request(model: string, maxTokens: int, temperature: real, messages: seq<(string, string)>, system: Option<string>)

  /**
   * The loop of `generate` over the messages: a system message replaces the
   * system prompt seen so far, every other message is forwarded.
   */
  function SplitSystem(msgs: seq<Message>, system: Option<string>, forwarded: seq<(string, string)>): (Option<string>, seq<(string, string)>) {
    if |msgs| == 0 then (system, forwarded)
    else if msgs[0].role == "system" then SplitSystem(msgs[1..], Some(msgs[0].content), forwarded)
    else SplitSystem(msgs[1..], system, forwarded + [(msgs[0].role, msgs[0].content)])
  }

  /** The content of the last system message, if any: the reference definition, read from the end. */
  function LastSystem(msgs: seq<Message>): Option<string> {
    if |msgs| == 0 then None
    else if msgs[|msgs| - 1].role == "system" then Some(msgs[|msgs| - 1].content)
    else LastSystem(msgs[..|msgs| - 1])
  }

  /** The non-system messages in order: the reference definition. */
  function NonSystem(msgs: seq<Message>): seq<(string, string)> {
    if |msgs| == 0 then []
    else (if msgs[0].role == "system" then [] else [(msgs[0].role, msgs[0].content)]) + NonSystem(msgs[1..])
  }

  /** Splitting `a + b` sees `a`'s system prompt unless `b` has its own. */
  lemma {:induction false} LastSystemAppend(a: seq<Message>, b: seq<Message>)
    ensures LastSystem(a + b) == if LastSystem(b).Some? then LastSystem(b) else LastSystem(a)
  {
    if |b| > 0 {
      var ab := a + b;
      assert ab[|ab| - 1] == b[|b| - 1];
      assert ab[..|ab| - 1] == a + b[..|b| - 1];
      LastSystemAppend(a, b[..|b| - 1]);
    } else {
      assert a + b == a;
    }
  }

  /** The loop ends with the last system prompt and the other messages, in order. */
  lemma {:induction false} SplitSystemSpec(msgs: seq<Message>, system: Option<string>, forwarded: seq<(string, string)>)
    ensures SplitSystem(msgs, system, forwarded) == (if LastSystem(msgs).Some? then LastSystem(msgs) else system, forwarded + NonSystem(msgs))
  {
    if |msgs| == 0 {
      assert forwarded + [] == forwarded;
    } else {
      var rest := msgs[1..];
      assert msgs == [msgs[0]] + rest;
      LastSystemAppend([msgs[0]], rest);
      assert LastSystem([msgs[0]]) == if msgs[0].role == "system" then Some(msgs[0].content) else LastSystem([]);
      if msgs[0].role == "system" {
        SplitSystemSpec(rest, Some(msgs[0].content), forwarded);
        assert NonSystem(msgs) == [] + NonSystem(rest);
        assert [] + NonSystem(rest) == NonSystem(rest);
      } else {
        SplitSystemSpec(rest, system, forwarded + [(msgs[0].role, msgs[0].content)]);
        assert forwarded + [(msgs[0].role, msgs[0].content)] + NonSystem(rest) == forwarded + NonSystem(msgs);
      }
    }
  }

  /** The request `generate` sends for a message list. */
  function BuildRequest(b: BackendConfig, msgs: seq<Message>): Request {
    var (system, forwarded) := SplitSystem(msgs, None, []);
    Request(b.model, b.maxTokens, b.temperature, forwarded, if system.Some? && system.value != "" then system else None)
  }

  /**
   * The request forwards exactly the non-system messages in order and
   * carries the last system message's content as `system` when that is
   * non-empty.
   */
  lemma BuildRequestSpec(b: BackendConfig, msgs: seq<Message>)
    ensures BuildRequest(b, msgs).messages == NonSystem(msgs)
    ensures BuildRequest(b, msgs).system.Some? <==> LastSystem(msgs).Some? && LastSystem(msgs).value != ""
    ensures BuildRequest(b, msgs).system.Some? ==> BuildRequest(b, msgs).system == LastSystem(msgs)
  {
    SplitSystemSpec(msgs, None, []);
    assert [] + NonSystem(msgs) == NonSystem(msgs);
  }

  /** `usage` of the response: input, output and their sum. */
  function UsageOf(u: Option<ApiUsage>): (r: Option<Usage>)
    ensures r.Some? <==> u.Some?
    ensures r.Some? ==> r.value.totalTokens == r.value.promptTokens + r.value.completionTokens
    ensures r.Some? ==> r.value.promptTokens == u.value.input && r.value.completionTokens == u.value.output
  {
    match u
    case None => None
    case Some(x) => Some(Usage(x.input, x.output, x.input + x.output))
  }

  /** One attempt of `generate`: every failure leaves translated. */
  function Attempt(b: BackendConfig, outcome: ApiOutcome): (r: Result<Response, Escaped>)
    ensures r.Err? ==> r.error.Translated?
  {
    match outcome
    case Ok(reply) =>
      if |reply.texts| == 0 then Err(Translated(ClassifyFailure("Anthropic", b.model, SupportedModels, Unexpected(IndexErrorMessage))))
      else Ok(Response(reply.texts[0], reply.model, Anthropic, UsageOf(reply.usage), false))
    case Err(f) => Err(Translated(ClassifyFailure("Anthropic", b.model, SupportedModels, f)))
  }

  /**
   * `generate(messages)` under the retry decorator, with `outcomes(i)` the
   * SDK's answer to attempt `i` (the request is `BuildRequest(b, msgs)`).
   * Since no SDK exception leaves the method, only the first attempt counts.
   */
  function Generate(b: BackendConfig, msgs: seq<Message>, outcomes: nat -> ApiOutcome): (r: Result<Response, Error>)
    ensures r.Ok? <==> outcomes(0).Ok? && |outcomes(0).value.texts| > 0
    ensures r.Ok? ==> r.value == Response(outcomes(0).value.texts[0], outcomes(0).value.model, Anthropic, UsageOf(outcomes(0).value.usage), false)
    ensures r.Err? ==> r.error.IsLLMError()
    ensures outcomes(0).Err? ==> r == Err(ClassifyFailure("Anthropic", b.model, SupportedModels, outcomes(0).error))
  {
    var attempt := (i: nat) => Attempt(b, outcomes(i));
    assert forall i: nat :: attempt(i) == Attempt(b, outcomes(i));
    TranslatedNeverRetried(attempt);
    var (res, _) := WithRetry(attempt, IsSdkRateLimit);
    Unescape(res)
  }

  /** `generate_simple(prompt, system_prompt, context)`: the content of the generated response. */
  function GenerateSimple(b: BackendConfig, prompt: string, systemPrompt: Option<string>, context: Option<string>, outcomes: nat -> ApiOutcome): (r: Result<string, Error>)
    ensures r.Ok? <==> Generate(b, SimpleMessages(prompt, systemPrompt, context), outcomes).Ok?
    ensures r.Ok? ==> r.value == outcomes(0).value.texts[0]
  {
    var resp :- Generate(b, SimpleMessages(prompt, systemPrompt, context), outcomes);
    Ok(resp.content)
  }

  /** `get_provider()`. */
  function GetProvider(): (p: Provider)
    ensures p.Value() == "anthropic"
  {
    Anthropic
  }
}
