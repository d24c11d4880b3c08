/**
 * The settings panel of src/ui/config-view.ts: which template files become
 * Handlebars partials, how the Ollama base URL typed in the panel becomes
 * the model-list URL, the rows shown for the listed models, and the values
 * handed to the template. Files, the network and the webview are inputs.
 */
module ConfigView {
  import opened Common
  import opened JsValues
  import opened JsStrings
  import opened ModelTypes
  import opened Settings
  import opened FormatUtil
  import OllamaService

  const API_SUFFIX := "/api"
  const DEFAULT_API_URL := "http://localhost:11434/api"
  const INVALID_RESPONSE := "Invalid response format from Ollama API"
  const FETCH_FAILED := "Failed to fetch models: "

  // ---------------------------------------------------------------------
  // Partial templates.
  // ---------------------------------------------------------------------

  /**
   * `/^([^.]+).hbs$/.exec(filename)`: the captured name, if the filename
   * matches. The `.` before "hbs" is not escaped, so it stands for any
   * character other than a line terminator; `[^.]` admits everything but
   * a dot, line terminators included.
   */
  function PartialName(filename: string): (name: Option<string>)
    ensures name.Some? ==> |filename| >= 5 && name.value == filename[..|filename| - 4]
    ensures name.Some? ==> |name.value| >= 1 && '.' !in name.value
    ensures name.Some? ==> EndsWith(filename, "hbs") && !IsLineTerminator(filename[|filename| - 4])
  {
    if |filename| >= 5 && '.' !in filename[..|filename| - 4] && !IsLineTerminator(filename[|filename| - 4])
       && filename[|filename| - 3..] == "hbs"
    then Some(filename[..|filename| - 4])
    else None
  }

  /** Every dot-free name followed by one non-terminator character and "hbs" is captured whole. */
  lemma PartialNameComplete(name: string, c: char)
    requires |name| >= 1 && '.' !in name && !IsLineTerminator(c)
    ensures PartialName(name + [c] + "hbs") == Some(name)
  {
    var f := name + [c] + "hbs";
    assert f[..|f| - 4] == name;
    assert f[|f| - 4] == c;
    assert f[|f| - 3..] == "hbs";
  }

  /** Any character may stand before "hbs": "headerxhbs" is registered as "header". */
  lemma UnescapedDotAcceptsAnyCharacter()
    ensures PartialName("headerxhbs") == Some("header")
    ensures PartialName("header.hbs") == Some("header")
  {
    PartialNameComplete("header", 'x');
    PartialNameComplete("header", '.');
    assert "header" + ['x'] + "hbs" == "headerxhbs";
    assert "header" + ['.'] + "hbs" == "header.hbs";
  }

  /** A name with a dot in it is never registered: "a.b.hbs" is skipped. */
  lemma DottedNameSkipped(before: string, after: string)
    ensures PartialName(before + "." + after + ".hbs").None?
  {
    var f := before + "." + after + ".hbs";
    if |f| >= 5 {
      assert f[..|f| - 4] == before + "." + after;
      assert f[..|f| - 4][|before|] == '.';
    }
  }

  /** The registrations the files produce, in directory order: a later file with the same name replaces an earlier one. */
  function Registrations(start: map<string, string>, files: seq<string>, read: string -> string): map<string, string> {
    if files == [] then start
    else
      var before := Registrations(start, files[..|files| - 1], read);
      var f := files[|files| - 1];
      match PartialName(f)
      case None => before
      case Some(name) => before[name := read(f)]
  }

  /**
   * After registration a name is a partial exactly when it was one before or
   * some file matched with that name, and it holds the text of the last such
   * file.
   */
  lemma {:induction false} RegistrationsLastWins(start: map<string, string>, files: seq<string>, read: string -> string, name: string)
    ensures name in Registrations(start, files, read) <==>
      name in start || exists i | 0 <= i < |files| :: PartialName(files[i]) == Some(name)
    ensures forall i | 0 <= i < |files| && PartialName(files[i]) == Some(name) ::
      (forall j | i < j < |files| :: PartialName(files[j]) != Some(name)) ==>
      Registrations(start, files, read)[name] == read(files[i])
    ensures (forall i | 0 <= i < |files| :: PartialName(files[i]) != Some(name)) && name in start ==>
      Registrations(start, files, read)[name] == start[name]
  {
    if files != [] {
      var n := |files| - 1;
      var init := files[..n];
      RegistrationsLastWins(start, init, read, name);
      if PartialName(files[n]) == Some(name) {
        assert name in Registrations(start, files, read);
      } else {
        assert forall i | 0 <= i < n :: init[i] == files[i];
        if name in Registrations(start, files, read) {
          assert name in Registrations(start, init, read);
        }
        if exists i | 0 <= i < |files| :: PartialName(files[i]) == Some(name) {
          var i :| 0 <= i < |files| && PartialName(files[i]) == Some(name);
          assert i < n && PartialName(init[i]) == Some(name);
        }
      }
    }
  }

  // ---------------------------------------------------------------------
  // The Ollama model-list URL.
  // ---------------------------------------------------------------------

  /** `apiUrl` after the normalisation in `fetchOllamaModels`: it always ends in "/api". */
  function NormalizeApiUrl(baseUrl: string): (apiUrl: string)
    ensures EndsWith(apiUrl, API_SUFFIX)
    ensures StartsWith(apiUrl, baseUrl)
    ensures EndsWith(baseUrl, API_SUFFIX) <==> apiUrl == baseUrl
    ensures |apiUrl| <= |baseUrl| + 4
  {
    if EndsWith(baseUrl, API_SUFFIX) then baseUrl
    else if EndsWith(baseUrl, "/") then
      var u := baseUrl + "api";
      assert u[..|baseUrl|] == baseUrl;
      assert u[|u| - 4..] == [baseUrl[|baseUrl| - 1]] + "api";
      u
    else
      var u := baseUrl + API_SUFFIX;
      assert u[..|baseUrl|] == baseUrl;
      assert u[|u| - 4..] == API_SUFFIX;
      u
  }

  /** Normalising a normalised URL leaves it as it is. */
  lemma NormalizeIdempotent(baseUrl: string)
    ensures NormalizeApiUrl(NormalizeApiUrl(baseUrl)) == NormalizeApiUrl(baseUrl)
  {
  }

  /** A base ending in "/" gains only "api", so no "//" appears; any other base gains "/api". */
  lemma NormalizeAppendsOnce(baseUrl: string)
    requires !EndsWith(baseUrl, API_SUFFIX)
    ensures EndsWith(baseUrl, "/") ==> NormalizeApiUrl(baseUrl) == baseUrl + "api"
    ensures !EndsWith(baseUrl, "/") ==> NormalizeApiUrl(baseUrl) == baseUrl + "/api"
  {
  }

  /** The URL the model list is fetched from. */
  function TagsUrl(baseUrl: string): (url: string)
    ensures EndsWith(url, "/api/tags")
    ensures StartsWith(url, baseUrl)
  {
    var apiUrl := NormalizeApiUrl(baseUrl);
    var url := apiUrl + "/tags";
    assert url[|url| - 9..] == apiUrl[|apiUrl| - 4..] + "/tags";
    assert url[..|baseUrl|] == apiUrl[..|baseUrl|];
    url
  }

  /**
   * The panel and the AI provider read the same setting differently: for a
   * URL ending in "/api" the panel lists models from ".../api/tags" while
   * the provider is given ".../api/api".
   */
  lemma PanelAndProviderDisagree(service: OllamaService.OllamaService, url: string)
    requires service.baseURL == Val(url + API_SUFFIX)
    ensures TagsUrl(url + API_SUFFIX) == url + "/api/tags"
    ensures service.ProviderBaseURL() == Some(url + "/api/api")
  {
    OllamaService.ProviderDoublesApiSuffix(service, url);
    assert EndsWith(url + API_SUFFIX, API_SUFFIX) by {
      assert (url + API_SUFFIX)[|url + API_SUFFIX| - 4..] == API_SUFFIX;
    }
  }

  /** With no URL configured the panel lists the local daemon's models. */
  lemma DefaultTagsUrl()
    ensures TagsUrl(DEFAULT_API_URL) == "http://localhost:11434/api/tags"
  {
    assert EndsWith(DEFAULT_API_URL, API_SUFFIX);
  }

  // ---------------------------------------------------------------------
  // The panel.
  // ---------------------------------------------------------------------

  /** One row of the Ollama model table. */
  datatype ModelRow = ModelRow(name: string, size: string, parameterSize: Js<string>, quantizationLevel: Js<string>)

  function Row(m: OllamaService.OllamaModel): ModelRow {
    ModelRow(m.name, FormatSize(m.size), m.parameterSize, m.quantizationLevel)
  }

  /** The answer to the model-list request: a non-2xx status, a body, or a failure to connect. */
  datatype TagsResponse = HttpError(statusText: string) | Body(models: Js<seq<OllamaService.OllamaModel>>) | NetworkError(message: string)

  /** The `ollamaModelsLoaded` message posted to the webview. */
  datatype Posted = Loaded(count: nat) | LoadFailed(error: string)

  /** The values `getWebviewContent` hands to the template. */
  datatype ViewData = ViewData(
    modelConfig: ModelConfig,
    isAnthropicSelected: bool, isOpenAISelected: bool, isMistralSelected: bool, isOllamaSelected: bool,
    anthropicApiKey: string, openaiApiKey: string, mistralApiKey: string, ollamaBaseURL: string,
    ollamaModels: seq<ModelRow>, temperature: real, maxTokens: int, debug: bool)

  class ConfigView {
    /** The rows of the last successful model-list fetch. */
    var ollamaModels: seq<ModelRow>

    constructor()
      ensures ollamaModels == []
    {
      ollamaModels := [];
    }

    /**
     * `fetchOllamaModels`: the list is requested from the normalised URL;
     * a list in the answer replaces the rows, one per model in order, and
     * anything else leaves them as they were and reports the error.
     */
    method FetchOllamaModels(baseUrl: string, fetch: string -> TagsResponse) returns (posted: Posted)
      modifies this
      ensures var response := fetch(TagsUrl(baseUrl));
        match response
        case HttpError(statusText) =>
          posted == LoadFailed(FETCH_FAILED + statusText) && ollamaModels == old(ollamaModels)
        case NetworkError(message) =>
          posted == LoadFailed(message) && ollamaModels == old(ollamaModels)
        case Body(models) =>
          if models.Val? then ollamaModels == Map(Row, models.v) && posted == Loaded(|models.v|)
          else posted == LoadFailed(INVALID_RESPONSE) && ollamaModels == old(ollamaModels)
    {
      var apiUrl := baseUrl;
      if !EndsWith(apiUrl, API_SUFFIX) {
        apiUrl := if EndsWith(apiUrl, "/") then apiUrl + "api" else apiUrl + API_SUFFIX;
      }
      var modelsUrl := apiUrl + "/tags";
      var response := fetch(modelsUrl);
      match response {
        case HttpError(statusText) =>
          posted := LoadFailed(FETCH_FAILED + statusText);
        case NetworkError(message) =>
          posted := LoadFailed(message);
        case Body(models) =>
          if models.Val? {
            ollamaModels := Map(Row, models.v);
            posted := Loaded(|ollamaModels|);
          } else {
            posted := LoadFailed(INVALID_RESPONSE);
          }
      }
    }

    /** The template data for the current settings and rows. */
    function ViewDataOf(cfg: Config): (data: ViewData)
      reads this
      ensures data.modelConfig == SelectedModel(cfg)
      ensures data.ollamaModels == ollamaModels
      ensures data.isAnthropicSelected <==> data.modelConfig.provider == "anthropic"
      ensures data.isOpenAISelected <==> data.modelConfig.provider == "openai"
      ensures data.isMistralSelected <==> data.modelConfig.provider == "mistral"
      ensures data.isOllamaSelected <==> data.modelConfig.provider == "ollama"
      ensures Truthy(cfg.anthropicApiKey) ==> data.anthropicApiKey == cfg.anthropicApiKey.v
      ensures !Truthy(cfg.anthropicApiKey) ==> data.anthropicApiKey == ""
      ensures Truthy(cfg.openaiApiKey) ==> data.openaiApiKey == cfg.openaiApiKey.v
      ensures !Truthy(cfg.openaiApiKey) ==> data.openaiApiKey == ""
      ensures Truthy(cfg.mistralApiKey) ==> data.mistralApiKey == cfg.mistralApiKey.v
      ensures !Truthy(cfg.mistralApiKey) ==> data.mistralApiKey == ""
      ensures Truthy(cfg.ollamaBaseURL) ==> data.ollamaBaseURL == cfg.ollamaBaseURL.v
      ensures !Truthy(cfg.ollamaBaseURL) ==> data.ollamaBaseURL == DEFAULT_API_URL
      ensures data.temperature == if TruthyWith(cfg.temperature, 0.0) then cfg.temperature.v else 0.2
      ensures data.maxTokens == if TruthyWith(cfg.maxTokens, 0) then cfg.maxTokens.v else 1000
      ensures data.debug <==> cfg.debug == Val(true)
    {
      var modelConfig := SelectedModel(cfg);
      ViewData(
        modelConfig,
        modelConfig.provider == "anthropic", modelConfig.provider == "openai",
        modelConfig.provider == "mistral", modelConfig.provider == "ollama",
        OrElse(cfg.anthropicApiKey, "", ""), OrElse(cfg.openaiApiKey, "", ""), OrElse(cfg.mistralApiKey, "", ""),
        OrElse(cfg.ollamaBaseURL, "", DEFAULT_API_URL),
        ollamaModels,
        OrElse(cfg.temperature, 0.0, 0.2), OrElse(cfg.maxTokens, 0, 1000), OrElse(cfg.debug, false, false))
    }
  }

  /** How many of the four provider flags are set. */
  function SelectedCount(data: ViewData): nat {
    (if data.isAnthropicSelected then 1 else 0) + (if data.isOpenAISelected then 1 else 0) +
    (if data.isMistralSelected then 1 else 0) + (if data.isOllamaSelected then 1 else 0)
  }

  /**
   * Exactly one provider tab is selected for the four providers the panel
   * knows; a Google selection (or any other string) selects none.
   */
  lemma OneTabSelected(view: ConfigView, cfg: Config)
    ensures var p := SelectedModel(cfg).provider;
      SelectedCount(view.ViewDataOf(cfg)) == if p in {"anthropic", "openai", "mistral", "ollama"} then 1 else 0
    ensures SelectedModel(cfg).provider == "google" ==> SelectedCount(view.ViewDataOf(cfg)) == 0
  {
  }

  /** The rows keep the models' count and order, and each size is shown in the unit its magnitude calls for. */
  lemma RowsFollowModels(models: seq<OllamaService.OllamaModel>)
    ensures |Map(Row, models)| == |models|
    ensures forall i | 0 <= i < |models| ::
      Map(Row, models)[i].name == models[i].name &&
      Map(Row, models)[i].parameterSize == models[i].parameterSize &&
      Map(Row, models)[i].quantizationLevel == models[i].quantizationLevel &&
      (EndsWith(Map(Row, models)[i].size, " GB") <==> models[i].size >= GIB)
  {
  }
}
