/**
 * Generation settings (`AIConfig`) and the two factory functions that turn a
 * provider name into a configuration and a configuration into a client.
 */
module AIConfigs {
  import opened Wrappers

  datatype AIProvider = OpenAI | Gemini | Anthropic

  /** The enum member as Python's `str()` renders it inside an f-string. */
  function ProviderRepr(p: AIProvider): string
  {
    match p
    case OpenAI => "AIProvider.OPENAI"
    case Gemini => "AIProvider.GEMINI"
    case Anthropic => "AIProvider.ANTHROPIC"
  }

  datatype AIConfig = AIConfig(
    provider: AIProvider,
    model: string,
    temperature: real,
    maxTokens: int,
    apiKey: Option<string>,
    minCharacters: int,
    maxCharacters: int,
    targetCharacters: int,
    maxRetry: int,
    requestsPerMinute: int,
    tokensPerMinute: int)

  /** `AIConfig(provider=…, model=…, api_key=…)`: every other field at its declared default. */
  function ConfigWith(provider: AIProvider, model: string, apiKey: Option<string>): AIConfig
  {
    AIConfig(provider, model, 0.7, 4096, apiKey, 2500, 4000, 3000, 3, 10, 100000)
  }

  const DefaultOpenAIConfig: AIConfig := ConfigWith(OpenAI, "gpt-4o", None)
  const DefaultGeminiConfig: AIConfig := ConfigWith(Gemini, "gemini-1.5-pro", None).(maxTokens := 8192)

  datatype ClientKind = OpenAIClient | GeminiClient

  /** `create_ai_client`: only the OpenAI and Gemini providers have a client. */
  function CreateAIClient(config: AIConfig): (r: Result<ClientKind, string>)
    ensures r == Success(OpenAIClient) <==> config.provider == OpenAI
    ensures r == Success(GeminiClient) <==> config.provider == Gemini
    ensures r.Failure? <==> config.provider == Anthropic
    ensures r.Failure? ==> r.error == "Unsupported provider: " + ProviderRepr(Anthropic)
  {
    match config.provider
    case OpenAI => Success(OpenAIClient)
    case Gemini => Success(GeminiClient)
    case Anthropic => Failure("Unsupported provider: " + ProviderRepr(config.provider))
  }

  /** Python's `model or default`: a missing or empty name falls back. */
  function ModelOr(model: Option<string>, default: string): string
  {
    match model
    case Some(m) => if m != "" then m else default
    case None => default
  }

  /** `create_generator`'s choice of configuration for a provider name. */
  function CreateGeneratorConfig(provider: string, model: Option<string>, apiKey: Option<string>): (r: Result<AIConfig, string>)
    ensures r.Success? <==> provider == "openai" || provider == "gemini"
    ensures r.Failure? ==> r.error == "Unsupported provider: " + provider
    ensures r.Success? ==> r.value.provider == (if provider == "openai" then OpenAI else Gemini)
    ensures r.Success? && model.Some? && model.value != "" ==> r.value.model == model.value
    ensures r.Success? && (model.None? || model == Some("")) ==>
      r.value.model == (if provider == "openai" then "gpt-4o" else "gemini-1.5-pro")
    ensures r.Success? ==> r.value.apiKey == apiKey && r.value.maxTokens == 4096
    ensures r.Success? ==> r.value.minCharacters == 2500 && r.value.maxCharacters == 4000 && r.value.maxRetry == 3
  {
    if provider == "openai" then Success(ConfigWith(OpenAI, ModelOr(model, "gpt-4o"), apiKey))
    else if provider == "gemini" then Success(ConfigWith(Gemini, ModelOr(model, "gemini-1.5-pro"), apiKey))
    else Failure("Unsupported provider: " + provider)
  }

  /** A configuration `create_generator` accepts always has a client. */
  lemma CreatedConfigHasClient(provider: string, model: Option<string>, apiKey: Option<string>)
    requires CreateGeneratorConfig(provider, model, apiKey).Success?
    ensures CreateAIClient(CreateGeneratorConfig(provider, model, apiKey).value).Success?
  {
  }

  /**
   * `create_generator("gemini")` does not use the module's Gemini preset:
   * its token limit is the dataclass default 4096, not the preset's 8192.
   */
  lemma GeminiGeneratorIgnoresPreset()
    ensures CreateGeneratorConfig("gemini", None, None).value.maxTokens != DefaultGeminiConfig.maxTokens
    ensures CreateGeneratorConfig("openai", None, None) == Success(DefaultOpenAIConfig)
  {
  }
}
