/**
 * The extension's `gitcomai` settings as the services read them, and the
 * provider clients they build from them. Reading the settings is I/O, so a
 * snapshot of them is an input; the SDK clients are opaque tags recording
 * only what the code passes to each constructor.
 */
module Settings {
  import opened Common
  import opened JsValues
  import opened ModelTypes

  /** A snapshot of the `gitcomai` configuration section; any setting may be unset. */
  datatype Config = Config(
    selectedModel: Js<ModelConfig>,
    anthropicApiKey: Js<string>,
    openaiApiKey: Js<string>,
    mistralApiKey: Js<string>,
    googleApiKey: Js<string>,
    ollamaBaseURL: Js<string>,
    temperature: Js<real>,
    maxTokens: Js<int>,
    debug: Js<bool>)

  /** The model used when none is selected: Claude 3.7 Sonnet. */
  const DEFAULT_MODEL := ModelConfig("anthropic", "claude-3-7-sonnet-latest")

  /** `config.get('selectedModel') || { anthropic, claude-3-7-sonnet-latest }`: a stored object is always truthy. */
  function SelectedModel(cfg: Config): (mc: ModelConfig)
    ensures cfg.selectedModel.Val? ==> mc == cfg.selectedModel.v
    ensures !cfg.selectedModel.Val? ==> mc == DEFAULT_MODEL
  {
    if cfg.selectedModel.Val? then cfg.selectedModel.v else DEFAULT_MODEL
  }

  /** The default model is a catalogued Anthropic model with both prices set. */
  lemma DefaultModelPriced()
    ensures ProviderOf(DEFAULT_MODEL.provider) == Some(Anthropic)
    ensures DEFAULT_MODEL.model == Claude37Sonnet.Value()
    ensures DEFAULT_MODEL.model in ALL_MODEL_DETAILS
    ensures ALL_MODEL_DETAILS[DEFAULT_MODEL.model].inputPrice == 3.0
    ensures ALL_MODEL_DETAILS[DEFAULT_MODEL.model].outputPrice == 15.0
  {
    assert "claude-3-7-sonnet-latest" in ANTHROPIC_MODEL_DETAILS;
    MergedTableKeepsEntries("claude-3-7-sonnet-latest");
  }

  /** An SDK provider factory, recorded by the options it was created with. */
  datatype ProviderClient =
    | AnthropicClient(apiKey: string)
    | OpenAIClient(apiKey: string, strictCompatibility: bool)
    | MistralClient(apiKey: string)
    | GoogleClient(apiKey: string)
    /** `createOllama(options)`: `None` when called with `undefined`, so the SDK's own default endpoint applies. */
    | OllamaClient(baseURL: Option<string>)

  /** What `getModelInstance` returns: the model string and the provider factory. */
  datatype ModelInstance = ModelInstance(model: string, provider: ProviderClient)

  /** A notification shown with `vscode.window.show{Error,Warning,Information}Message`. */
  datatype Notice = ErrorNotice(text: string) | WarningNotice(text: string) | InfoNotice(text: string)
}
