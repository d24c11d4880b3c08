/**
 * The local-model service of src/services/ollama.service.ts: which host its
 * client talks to, the base URL handed to the AI SDK provider, the check on
 * the model list, and the progress record derived from each part of a
 * model download. The client and its network calls are not modelled: what
 * they return is passed in.
 */
module OllamaService {
  import opened Common
  import opened JsValues
  import opened JsStrings
  import opened JsNumbers
  import opened FormatUtil

  const DEFAULT_HOST := "http://localhost:11434"
  const INVALID_RESPONSE := "Invalid response format from Ollama API"
  const DOWNLOADING := "downloading"

  /** One entry of the model list (`ModelResponse`, the fields the extension reads). */
  datatype OllamaModel = OllamaModel(name: string, size: nat, parameterSize: Js<string>, quantizationLevel: Js<string>)

  /** One part of the pull stream: its status line and byte counts, each possibly absent. */
  datatype PullPart = PullPart(status: Js<string>, completed: Js<nat>, total: Js<nat>)

  /** `IProgressData`, the record handed to the progress callback. */
  datatype ProgressData = ProgressData(
    progressPercent: real, progressMessage: string, status: string, downloadedSize: nat, totalSize: nat)

  /** `x || 0` for a byte count. */
  function CountOrZero(x: Js<nat>): (n: nat)
    ensures n > 0 <==> TruthyWith(x, 0)
    ensures n > 0 ==> n == x.v
  {
    OrElse(x, 0, 0)
  }

  /** The percentage once both sizes are known. */
  function Percent(downloaded: nat, total: nat): (p: real)
    requires downloaded > 0 && total > 0
    ensures p > 0.0 && p * total as real == downloaded as real * 100.0
    ensures downloaded <= total ==> p <= 100.0
  {
    var p := (downloaded as real / total as real) * 100.0;
    assert downloaded as real / total as real * total as real == downloaded as real;
    p
  }

  /** The progress text once both sizes are known. */
  function SizedMessage(status: Js<string>, downloaded: nat, total: nat, percent: real): (s: string)
    requires percent >= 0.0
    ensures StartsWith(s, Show(status) + " - " + FormatSize(downloaded) + " / " + FormatSize(total) + " (")
    ensures EndsWith(s, "%)")
  {
    var head := Show(status) + " - " + FormatSize(downloaded) + " / " + FormatSize(total) + " (";
    var figure := ToFixed1(percent);
    Bracketed(head, figure);
    head + (figure + "%)")
  }

  lemma Bracketed(head: string, figure: string)
    ensures StartsWith(head + (figure + "%)"), head) && EndsWith(head + (figure + "%)"), "%)")
  {
    var s := head + (figure + "%)");
    assert s[..|head|] == head;
    assert s[|s| - 2..] == "%)";
  }

  /** The record `pullModel` hands to the callback for one part. */
  function Progress(part: PullPart): (p: ProgressData)
    ensures p.status == DOWNLOADING
    ensures p.downloadedSize > 0 <==> TruthyWith(part.completed, 0)
    ensures p.downloadedSize > 0 ==> p.downloadedSize == part.completed.v
    ensures p.totalSize > 0 <==> TruthyWith(part.total, 0)
    ensures p.totalSize > 0 ==> p.totalSize == part.total.v
    ensures p.progressPercent >= 0.0
    ensures p.progressPercent > 0.0 <==> p.downloadedSize > 0 && p.totalSize > 0
    ensures p.progressPercent > 0.0 ==> p.progressPercent == Percent(p.downloadedSize, p.totalSize)
    ensures p.downloadedSize <= p.totalSize ==> p.progressPercent <= 100.0
    ensures p.progressPercent == 0.0 ==> p.progressMessage == OrElse(part.status, "", "")
    ensures p.progressPercent > 0.0 ==>
      p.progressMessage == SizedMessage(part.status, p.downloadedSize, p.totalSize, p.progressPercent)
  {
    var downloadedSize := CountOrZero(part.completed);
    var totalSize := CountOrZero(part.total);
    if totalSize > 0 && downloadedSize > 0 then
      var percent := Percent(downloadedSize, totalSize);
      ProgressData(percent, SizedMessage(part.status, downloadedSize, totalSize, percent), DOWNLOADING, downloadedSize, totalSize)
    else
      ProgressData(0.0, OrElse(part.status, "", ""), DOWNLOADING, downloadedSize, totalSize)
  }

  /**
   * With both sizes known the message is the status, both formatted sizes
   * and the percentage: "<status> - <done> / <total> (<p>%)".
   */
  lemma ProgressMessageShowsSizes(part: PullPart)
    requires TruthyWith(part.completed, 0) && TruthyWith(part.total, 0)
    ensures var p := Progress(part);
      StartsWith(p.progressMessage, Show(part.status) + " - " + FormatSize(part.completed.v) + " / " + FormatSize(part.total.v) + " (") &&
      EndsWith(p.progressMessage, "%)")
  {
  }

  /** A part with both sizes known and no more downloaded than the total never reports above 100%. */
  lemma ProgressAtMostHundred(part: PullPart)
    requires part.completed.Val? && part.total.Val? && part.completed.v <= part.total.v
    ensures 0.0 <= Progress(part).progressPercent <= 100.0
  {
  }

  class OllamaService {
    /** The `ollamaBaseURL` setting as last read. */
    var baseURL: Js<string>
    /** The host the Ollama client was created with. */
    var host: string

    /** The client talks to the configured URL when it is truthy, else to the local default. */
    constructor(configured: Js<string>)
      ensures baseURL == configured
      ensures Truthy(configured) ==> host == configured.v
      ensures !Truthy(configured) ==> host == DEFAULT_HOST
    {
      baseURL := configured;
      host := if Truthy(configured) then configured.v else DEFAULT_HOST;
    }

    /** `loadConfig`: the same choice when the setting changes. */
    method LoadConfig(configured: Js<string>)
      modifies this
      ensures baseURL == configured
      ensures Truthy(configured) ==> host == configured.v
      ensures !Truthy(configured) ==> host == DEFAULT_HOST
    {
      baseURL := configured;
      host := if Truthy(configured) then configured.v else DEFAULT_HOST;
    }

    /** `getProvider`: the base URL passed to the AI SDK provider, or no options at all. */
    function ProviderBaseURL(): (url: Option<string>)
      reads this
      ensures url.Some? <==> Truthy(baseURL)
      ensures url.Some? ==> EndsWith(url.value, "/api") && url.value[..|url.value| - 4] == baseURL.v
    {
      if Truthy(baseURL) then Some(baseURL.v + "/api") else None
    }

    /** `fetchModels`: the listed models, or the error; a reply without a model list is refused. */
    method FetchModels(response: Result<Js<seq<OllamaModel>>, string>) returns (r: Result<seq<OllamaModel>, string>)
      ensures r.Success? <==> response.Success? && response.value.Val?
      ensures r.Success? ==> r.value == response.value.v
      ensures response.Failure? ==> r == Failure(response.error)
      ensures response.Success? && !response.value.Val? ==> r == Failure(INVALID_RESPONSE)
    {
      if response.Failure? {
        return Failure(response.error);
      }
      var models := response.value;
      if !models.Val? {
        return Failure(INVALID_RESPONSE);
      }
      return Success(models.v);
    }

    /**
     * `pullModel` over the parts the pull stream delivered: one record per
     * part when a callback is given, none otherwise; an error the stream
     * raised after those parts is passed on.
     */
    method PullModel(parts: seq<PullPart>, streamError: Option<string>, hasCallback: bool)
      returns (reports: seq<ProgressData>, thrown: Option<string>)
      ensures hasCallback ==> reports == Map(Progress, parts)
      ensures !hasCallback ==> reports == []
      ensures thrown == streamError
    {
      reports := [];
      var i := 0;
      while i < |parts|
        invariant 0 <= i <= |parts|
        invariant reports == if hasCallback then Map(Progress, parts[..i]) else []
      {
        var part := parts[i];
        MapExtend(Progress, parts, i);
        if hasCallback {
          var progress := ProgressOf(part);
          reports := reports + [progress];
        }
        i := i + 1;
      }
      assert parts[..|parts|] == parts;
      thrown := streamError;
    }
  }

  /**
   * The body of the `for await` loop for one part, extracted from `PullModel`
   * as a method; the record it hands to the callback is the one `Progress`
   * specifies.
   */
  method ProgressOf(part: PullPart) returns (progress: ProgressData)
    ensures progress == Progress(part)
  {
    var downloadedSize := 0;
    var totalSize := 0;
    if part.completed.Val? && part.completed.v != 0 {
      downloadedSize := part.completed.v;
    }
    if part.total.Val? && part.total.v != 0 {
      totalSize := part.total.v;
    }
    var progressPercent := 0.0;
    var progressMessage := OrElse(part.status, "", "");
    if totalSize > 0 && downloadedSize > 0 {
      progressPercent := Percent(downloadedSize, totalSize);
      progressMessage := SizedMessage(part.status, downloadedSize, totalSize, progressPercent);
    }
    progress := ProgressData(progressPercent, progressMessage, DOWNLOADING, downloadedSize, totalSize);
  }

  /** Every record a pull emits says "downloading", and there is one per part. */
  lemma PullReportsDownloading(parts: seq<PullPart>)
    ensures |Map(Progress, parts)| == |parts|
    ensures forall r | r in Map(Progress, parts) :: r.status == DOWNLOADING
  {
  }

  /**
   * `getProvider` appends "/api" whatever the setting ends with, so a base
   * URL that already ends in "/api" is passed on as ".../api/api".
   */
  lemma ProviderDoublesApiSuffix(service: OllamaService, url: string)
    requires service.baseURL == Val(url + "/api")
    ensures service.ProviderBaseURL() == Some(url + "/api/api")
  {
    assert url + "/api" + "/api" == url + "/api/api";
  }
}
