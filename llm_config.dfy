/** llm_config: which chat model the assistant talks to, chosen by the LLM_PROVIDER
    environment variable. */
module LlmConfig {
  import opened Wrappers

  /** The providers, each with the string value the environment variable names it by. */
  datatype LLMProvider = OpenAI | Gemini

  function Value(p: LLMProvider): (s: string)
  {
    match p
    case OpenAI => "openai"
    case Gemini => "gemini"
  }

  /** `LLMProvider(s)`: the provider whose value is exactly `s`, if any. */
  function FromValue(s: string): (r: Option<LLMProvider>)
    ensures r.Some? ==> Value(r.value) == s
    ensures r.None? ==> forall p: LLMProvider :: Value(p) != s
  {
    if s == "openai" then Some(OpenAI)
    else if s == "gemini" then Some(Gemini)
    else None
  }

  /** Provider values are distinct and read back as the provider that gave them. */
  lemma ValueRoundTrip(p: LLMProvider)
    ensures FromValue(Value(p)) == Some(p)
  {
  }

  /** A chat model client: its provider and the model name it was built with. */
  datatype ChatModel = ChatModel(provider: LLMProvider, model: string)

  /** The model each provider is built with. */
  function ModelName(p: LLMProvider): string
  {
    match p
    case OpenAI => "gpt-4o-mini"
    case Gemini => "gemini-2.0-flash"
  }

  const UnsupportedPrefix: string := "Unsupported LLM provider: "
  const LogPrefix: string := "Error creating LLM provider: "

  /** The outcome of the factory: the client or the exception it raises, and what it logged. */
  datatype Created = Created(result: Result<ChatModel, string>, logs: seq<string>)

  /** The value the factory reads: the variable's value, or the Gemini value when unset. */
  function ProviderSetting(env: Option<string>): (v: string)
    ensures env.Some? ==> v == env.value
    ensures env.None? ==> v == Value(Gemini)
  {
    if env.Some? then env.value else Value(Gemini)
  }

  /** llm_provider_factory(), with `env` the value of LLM_PROVIDER and `clientError` the
      exception the client constructor raises, if it raises one. Every failure is logged
      once and re-raised unchanged. */
  function LlmProviderFactory(env: Option<string>, clientError: Option<string>): (c: Created)
    ensures var v := ProviderSetting(env);
      && (c.result.Success? <==> FromValue(v).Some? && clientError.None?)
      && (c.result.Success? ==> c.result.value == ChatModel(FromValue(v).value, ModelName(FromValue(v).value)) && c.logs == [])
      && (FromValue(v).None? ==> c.result == Failure(UnsupportedPrefix + v))
      && (FromValue(v).Some? && clientError.Some? ==> c.result == Failure(clientError.value))
      && (c.result.Failure? ==> c.logs == [LogPrefix + c.result.error])
  {
    var raised: Result<ChatModel, string> :=
      match FromValue(ProviderSetting(env))
      case None => Failure(UnsupportedPrefix + ProviderSetting(env))
      case Some(p) => if clientError.Some? then Failure(clientError.value) else Success(ChatModel(p, ModelName(p)));
    match raised
    case Success(_) => Created(raised, [])
    case Failure(e) => Created(raised, [LogPrefix + e])
  }

  /** With LLM_PROVIDER unset the factory builds the Gemini client on "gemini-2.0-flash". */
  lemma DefaultIsGemini()
    ensures LlmProviderFactory(None, None) == Created(Success(ChatModel(Gemini, "gemini-2.0-flash")), [])
  {
  }

  /** Selection is exact string equality on the provider values: "openai" gives
      "gpt-4o-mini", "gemini" gives "gemini-2.0-flash", and nothing else succeeds. */
  lemma SelectionIsExact(s: string)
    ensures LlmProviderFactory(Some(s), None).result.Success? <==> s == "openai" || s == "gemini"
    ensures s == "openai" ==> LlmProviderFactory(Some(s), None).result == Success(ChatModel(OpenAI, "gpt-4o-mini"))
    ensures s == "gemini" ==> LlmProviderFactory(Some(s), None).result == Success(ChatModel(Gemini, "gemini-2.0-flash"))
  {
  }

  /** A failure is never swallowed: the factory logs the error message under the fixed
      prefix and raises the very same error. */
  lemma FailureLoggedAndRaised(env: Option<string>, clientError: Option<string>)
    ensures var c := LlmProviderFactory(env, clientError);
      c.result.Failure? ==> |c.logs| == 1 && c.logs[0][..|LogPrefix|] == LogPrefix && c.logs[0][|LogPrefix|..] == c.result.error
  {
    var c := LlmProviderFactory(env, clientError);
    if c.result.Failure? {
      assert c.logs[0] == LogPrefix + c.result.error;
    }
  }
}
