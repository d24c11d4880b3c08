/**
 * The earlier, non-streaming AI service of src/ai/aiService.ts: three API
 * keys and an Ollama base URL read from the settings, a provider switch
 * without a Google case, one `generateObject` call whose result is copied
 * field by field, and every error turned into an error notice and null.
 * Reading the settings, loading the prompts and the SDK call are inputs.
 */
module GenerateObjectService {
  import opened Common
  import opened JsValues
  import opened ModelTypes
  import opened CommitSchema
  import opened Settings
  import OllamaService
  import StreamingAIService

  const GENERATION_ERROR := "Error generating commit message: "

  /** The three keys this service reads (it has no Google key). */
  datatype ApiKeys = ApiKeys(anthropic: Js<string>, openai: Js<string>, mistral: Js<string>)

  function KeysOf(cfg: Config): ApiKeys {
    ApiKeys(cfg.anthropicApiKey, cfg.openaiApiKey, cfg.mistralApiKey)
  }

  /** The providers this switch knows, as the strings it compares with. */
  predicate Known(provider: string) {
    provider == "anthropic" || provider == "openai" || provider == "mistral" || provider == "ollama"
  }

  /** The result of a call: the message, or null with the notices shown. */
  datatype Reply = Reply(message: Option<CommitMessage>, notices: seq<Notice>)

  class AIService {
    var apiKeys: ApiKeys
    /** The `ollamaBaseURL` setting as last read. */
    var ollamaBaseURL: Js<string>

    constructor(cfg: Config)
      ensures apiKeys == KeysOf(cfg) && ollamaBaseURL == cfg.ollamaBaseURL
    {
      apiKeys := KeysOf(cfg);
      ollamaBaseURL := cfg.ollamaBaseURL;
    }

    /** `reinitialize`: both `loadApiKeys` and `loadOllamaConfig` again. */
    method Reinitialize(cfg: Config)
      modifies this
      ensures apiKeys == KeysOf(cfg) && ollamaBaseURL == cfg.ollamaBaseURL
    {
      apiKeys := KeysOf(cfg);
      ollamaBaseURL := cfg.ollamaBaseURL;
    }

    /**
     * `getModelInstance`: a hosted provider needs a truthy key, Ollama gets
     * `{ baseURL }` only when the setting is truthy, and anything else
     * (Google included) is unsupported. A success keeps the model string.
     */
    function GetModelInstance(mc: ModelConfig): (r: Result<ModelInstance, string>)
      reads this
      ensures r.Success? ==> r.value.model == mc.model
      ensures !Known(mc.provider) <==> r == Failure("Unsupported provider: " + mc.provider)
      ensures mc.provider == "anthropic" ==>
        if Truthy(apiKeys.anthropic) then r == Success(ModelInstance(mc.model, AnthropicClient(apiKeys.anthropic.v)))
        else r == Failure("Anthropic API key not configured")
      ensures mc.provider == "openai" ==>
        if Truthy(apiKeys.openai) then r == Success(ModelInstance(mc.model, OpenAIClient(apiKeys.openai.v, false)))
        else r == Failure("OpenAI API key not configured")
      ensures mc.provider == "mistral" ==>
        if Truthy(apiKeys.mistral) then r == Success(ModelInstance(mc.model, MistralClient(apiKeys.mistral.v)))
        else r == Failure("Mistral API key not configured")
      ensures mc.provider == "ollama" ==>
        r == Success(ModelInstance(mc.model, OllamaClient(if Truthy(ollamaBaseURL) then Some(ollamaBaseURL.v) else None)))
    {
      if mc.provider == "anthropic" then
        if !Truthy(apiKeys.anthropic) then Failure("Anthropic API key not configured")
        else Success(ModelInstance(mc.model, AnthropicClient(apiKeys.anthropic.v)))
      else if mc.provider == "openai" then
        if !Truthy(apiKeys.openai) then Failure("OpenAI API key not configured")
        else Success(ModelInstance(mc.model, OpenAIClient(apiKeys.openai.v, false)))
      else if mc.provider == "mistral" then
        if !Truthy(apiKeys.mistral) then Failure("Mistral API key not configured")
        else Success(ModelInstance(mc.model, MistralClient(apiKeys.mistral.v)))
      else if mc.provider == "ollama" then
        Success(ModelInstance(mc.model, OllamaClient(if Truthy(ollamaBaseURL) then Some(ollamaBaseURL.v) else None)))
      else
        var r := Failure("Unsupported provider: " + mc.provider);
        assert r.error[..22] == "Unsupported provider: ";
        r
    }

    /**
     * `generateCommitMessage`: the settings are reloaded, the selected
     * model (or the default) is dispatched, and `generate` stands for the
     * `generateObject` call on the instance. The generated object is
     * returned as it is; the first error on the way is shown and gives null.
     */
    method GenerateCommitMessage(cfg: Config, promptError: Option<string>,
                                 generate: ModelInstance -> Result<CommitMessage, string>) returns (reply: Reply)
      modifies this
      ensures apiKeys == KeysOf(cfg) && ollamaBaseURL == cfg.ollamaBaseURL
      ensures reply.message.Some? <==> reply.notices == []
      ensures |reply.notices| <= 1
      ensures promptError.Some? ==> reply == Reply(None, [ErrorNotice(GENERATION_ERROR + promptError.value)])
      ensures promptError.None? ==>
        match GetModelInstance(SelectedModel(cfg))
        case Failure(e) => reply == Reply(None, [ErrorNotice(GENERATION_ERROR + e)])
        case Success(instance) =>
          match generate(instance)
          case Failure(e) => reply == Reply(None, [ErrorNotice(GENERATION_ERROR + e)])
          case Success(generated) => reply == Reply(Some(generated), [])
    {
      Reinitialize(cfg);
      var modelConfig := SelectedModel(cfg);
      if promptError.Some? {
        return Reply(None, [ErrorNotice(GENERATION_ERROR + promptError.value)]);
      }
      var instance := GetModelInstance(modelConfig);
      if instance.Failure? {
        return Reply(None, [ErrorNotice(GENERATION_ERROR + instance.error)]);
      }
      var result := generate(instance.value);
      if result.Failure? {
        return Reply(None, [ErrorNotice(GENERATION_ERROR + result.error)]);
      }
      var o := result.value;
      var commitMessage := CommitMessage(o.emoji, o.kind, o.scope, o.description, o.body);
      return Reply(Some(commitMessage), []);
    }
  }

  /**
   * With no model selected the Anthropic branch is taken for Claude 3.7
   * Sonnet, so the outcome turns on the Anthropic key alone.
   */
  lemma DefaultNeedsAnthropicKey(service: AIService, cfg: Config)
    requires cfg.selectedModel == Undefined || cfg.selectedModel == Null
    ensures var r := service.GetModelInstance(SelectedModel(cfg));
      (r.Success? <==> Truthy(service.apiKeys.anthropic)) &&
      (r.Success? ==> r.value == ModelInstance("claude-3-7-sonnet-latest", AnthropicClient(service.apiKeys.anthropic.v)))
  {
  }

  /**
   * The two services dispatch alike for Anthropic and Mistral; they differ in
   * that this one creates OpenAI without strict compatibility, passes the
   * Ollama base URL without appending "/api", and has no Google case.
   */
  lemma DispatchComparedWithStreaming(legacy: AIService, streaming: StreamingAIService.AIService,
                                      ollama: OllamaService.OllamaService, mc: ModelConfig)
    requires streaming.apiKeys.anthropic == legacy.apiKeys.anthropic
    requires streaming.apiKeys.openai == legacy.apiKeys.openai
    requires streaming.apiKeys.mistral == legacy.apiKeys.mistral
    requires ollama.baseURL == legacy.ollamaBaseURL
    ensures var a, b := legacy.GetModelInstance(mc), streaming.GetModelInstance(mc, ollama);
      (mc.provider == "anthropic" || mc.provider == "mistral" ==> a == b) &&
      (mc.provider == "openai" ==>
         a.Success? == b.Success? &&
         (a.Success? ==> a.value.provider == b.value.provider.(strictCompatibility := false))) &&
      (mc.provider == "ollama" ==>
         a.Success? && b.Success? &&
         a.value.provider.baseURL.Some? == b.value.provider.baseURL.Some? &&
         (a.value.provider.baseURL.Some? ==> b.value.provider.baseURL.value == a.value.provider.baseURL.value + "/api")) &&
      (mc.provider == "google" ==> a == Failure("Unsupported provider: google"))
  {
    if mc.provider == "anthropic" {
      SameAnthropic(legacy, streaming, ollama, mc);
    } else if mc.provider == "mistral" {
      SameMistral(legacy, streaming, ollama, mc);
    } else if mc.provider == "openai" {
      OpenAIWithoutStrictness(legacy, streaming, ollama, mc);
    } else if mc.provider == "google" {
      GoogleUnsupported(legacy, mc);
    }
  }

  lemma SameAnthropic(legacy: AIService, streaming: StreamingAIService.AIService,
                      ollama: OllamaService.OllamaService, mc: ModelConfig)
    requires streaming.apiKeys.anthropic == legacy.apiKeys.anthropic && mc.provider == "anthropic"
    ensures legacy.GetModelInstance(mc) == streaming.GetModelInstance(mc, ollama)
  {
    assert ProviderOf(mc.provider) == Some(Anthropic);
    assert StreamingAIService.KeyName(Anthropic) + " API key not configured" == "Anthropic API key not configured";
  }

  lemma SameMistral(legacy: AIService, streaming: StreamingAIService.AIService,
                    ollama: OllamaService.OllamaService, mc: ModelConfig)
    requires streaming.apiKeys.mistral == legacy.apiKeys.mistral && mc.provider == "mistral"
    ensures legacy.GetModelInstance(mc) == streaming.GetModelInstance(mc, ollama)
  {
    assert ProviderOf(mc.provider) == Some(Mistral);
    assert StreamingAIService.KeyName(Mistral) + " API key not configured" == "Mistral API key not configured";
  }

  lemma OpenAIWithoutStrictness(legacy: AIService, streaming: StreamingAIService.AIService,
                                ollama: OllamaService.OllamaService, mc: ModelConfig)
    requires streaming.apiKeys.openai == legacy.apiKeys.openai && mc.provider == "openai"
    ensures var a, b := legacy.GetModelInstance(mc), streaming.GetModelInstance(mc, ollama);
      a.Success? == b.Success? &&
      (a.Success? ==> a.value.provider == b.value.provider.(strictCompatibility := false))
  {
    assert ProviderOf(mc.provider) == Some(OpenAI);
  }

  lemma GoogleUnsupported(legacy: AIService, mc: ModelConfig)
    requires mc.provider == "google"
    ensures legacy.GetModelInstance(mc) == Failure("Unsupported provider: google")
  {
    assert !Known(mc.provider);
    assert "Unsupported provider: " + mc.provider == "Unsupported provider: google";
  }
}
