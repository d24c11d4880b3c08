/**
 * The price of one generation (src/utils/cost.util.ts): nothing for a local
 * Ollama model, otherwise the catalogue's per-million-token prices applied to
 * the prompt and completion token counts, rounded to cents.
 */
module CostUtil {
  import opened Common
  import opened JsNumbers
  import opened ModelTypes

  /**
   * An illustrative TypeError message for destructuring the missing entry; the
   * exact wording names the compiled expression, which depends on the bundler.
   */
  const MISSING_ENTRY := "Cannot destructure property 'inputPrice' of 'ALL_MODEL_DETAILS[modelConfig.model]' as it is undefined."

  /** The two ways `calculateCost` throws. */
  datatype CostError =
    /** The model has no catalogue entry: destructuring `undefined` raises a TypeError. */
    | MissingEntry(model: string)
    /**
     * An entry without a truthy price: `Unknown model: <model>`. `ALL_MODEL_DETAILS`
     * is a plain object, so a name it inherits from `Object.prototype` reads a
     * function (or the prototype itself), whose `inputPrice` is `undefined`.
     */
    | UnknownModel(model: string)
  {
    function Message(): string {
      match this
      case MissingEntry(_) => MISSING_ENTRY
      case UnknownModel(model) => "Unknown model: " + model
    }
  }

  /**
   * The property names every plain object inherits from `Object.prototype`:
   * looked up in the catalogue, each yields a value without prices.
   */
  const OBJECT_PROTOTYPE_NAMES: set<string> := {
    "constructor", "hasOwnProperty", "isPrototypeOf", "propertyIsEnumerable",
    "toString", "toLocaleString", "valueOf", "__proto__",
    "__defineGetter__", "__defineSetter__", "__lookupGetter__", "__lookupSetter__"
  }

  /** The exact dollar amount before rounding. */
  function RawCost(d: ModelDetails, inputTokens: nat, outputTokens: nat): (raw: real)
    requires d.inputPrice >= 0.0 && d.outputPrice >= 0.0
    ensures raw >= 0.0
  {
    var inputCost := d.inputPrice / 1000000.0 * inputTokens as real;
    var outputCost := d.outputPrice / 1000000.0 * outputTokens as real;
    assert inputCost >= 0.0 && outputCost >= 0.0;
    inputCost + outputCost
  }

  /** The rounded price of a generation on a model with both prices set. */
  function PricedCost(d: ModelDetails, inputTokens: nat, outputTokens: nat): (c: real)
    requires d.inputPrice > 0.0 && d.outputPrice > 0.0
    ensures var raw := RawCost(d, inputTokens, outputTokens); c >= 0.0 && raw - 0.005 < c <= raw + 0.005
  {
    Round2(RawCost(d, inputTokens, outputTokens))
  }

  /**
   * `calculateCost`: `Success(None)` is the `undefined` returned for Ollama,
   * `Success(Some(c))` a cost in dollars, `Failure` a thrown error.
   */
  function CalculateCost(mc: ModelConfig, inputTokens: nat, outputTokens: nat): (r: Result<Option<real>, CostError>)
    ensures r == Success(None) <==> mc.provider == "ollama"
    ensures r == Failure(MissingEntry(mc.model)) <==>
      mc.provider != "ollama" && mc.model !in ALL_MODEL_DETAILS && mc.model !in OBJECT_PROTOTYPE_NAMES
    ensures mc.provider != "ollama" && mc.model !in ALL_MODEL_DETAILS && mc.model in OBJECT_PROTOTYPE_NAMES ==>
      r == Failure(UnknownModel(mc.model))
    ensures r.Failure? ==> r.error.model == mc.model
    ensures r.Success? && r.value.Some? ==>
      var d := ALL_MODEL_DETAILS[mc.model];
      mc.model in ALL_MODEL_DETAILS && d.inputPrice > 0.0 && d.outputPrice > 0.0 &&
      r.value.value == PricedCost(d, inputTokens, outputTokens)
  {
    if mc.provider == "ollama" then Success(None)
    else if mc.model !in ALL_MODEL_DETAILS then
      if mc.model in OBJECT_PROTOTYPE_NAMES then Failure(UnknownModel(mc.model))
      else Failure(MissingEntry(mc.model))
    else
      var d := ALL_MODEL_DETAILS[mc.model];
      if d.inputPrice <= 0.0 || d.outputPrice <= 0.0 then Failure(UnknownModel(mc.model))
      else Success(Some(PricedCost(d, inputTokens, outputTokens)))
  }

  /** More tokens never cost less, before or after rounding. */
  lemma CostMonotone(mc: ModelConfig, in1: nat, out1: nat, in2: nat, out2: nat)
    requires mc.provider != "ollama" && mc.model in ALL_MODEL_DETAILS
    requires in1 <= in2 && out1 <= out2
    ensures CalculateCost(mc, in1, out1).Success? && CalculateCost(mc, in2, out2).Success?
    ensures CalculateCost(mc, in1, out1).value.value <= CalculateCost(mc, in2, out2).value.value
  {
    var d := ALL_MODEL_DETAILS[mc.model];
    PricesPositive(mc.model);
    RawCostMonotone(d, in1, out1, in2, out2);
    Round2Monotone(RawCost(d, in1, out1), RawCost(d, in2, out2));
  }

  lemma RawCostMonotone(d: ModelDetails, in1: nat, out1: nat, in2: nat, out2: nat)
    requires d.inputPrice >= 0.0 && d.outputPrice >= 0.0
    requires in1 <= in2 && out1 <= out2
    ensures RawCost(d, in1, out1) <= RawCost(d, in2, out2)
  {
    assert d.inputPrice / 1000000.0 * in1 as real <= d.inputPrice / 1000000.0 * in2 as real;
    assert d.outputPrice / 1000000.0 * out1 as real <= d.outputPrice / 1000000.0 * out2 as real;
  }

  /** The price depends on the model string alone: the provider only matters when it is "ollama". */
  lemma CostKeyedByModel(p1: string, p2: string, model: string, inputTokens: nat, outputTokens: nat)
    requires p1 != "ollama" && p2 != "ollama"
    ensures CalculateCost(ModelConfig(p1, model), inputTokens, outputTokens) ==
            CalculateCost(ModelConfig(p2, model), inputTokens, outputTokens)
  {
  }

  /**
   * Every catalogue entry has both prices, so `calculateCost` fails exactly for
   * a model missing from the catalogue, and throws `Unknown model` only for a
   * name inherited from `Object.prototype`.
   */
  lemma OnlyMissingModelsFail(mc: ModelConfig, inputTokens: nat, outputTokens: nat)
    ensures CalculateCost(mc, inputTokens, outputTokens).Failure? <==>
      mc.provider != "ollama" && mc.model !in ALL_MODEL_DETAILS
    ensures CalculateCost(mc, inputTokens, outputTokens) == Failure(UnknownModel(mc.model)) <==>
      mc.provider != "ollama" && mc.model !in ALL_MODEL_DETAILS && mc.model in OBJECT_PROTOTYPE_NAMES
  {
    if mc.provider != "ollama" && mc.model in ALL_MODEL_DETAILS {
      PricesPositive(mc.model);
    }
  }

  /** No tokens cost nothing. */
  lemma ZeroTokensCostNothing(mc: ModelConfig)
    requires mc.provider != "ollama" && mc.model in ALL_MODEL_DETAILS
    ensures CalculateCost(mc, 0, 0) == Success(Some(0.0))
  {
    PricesPositive(mc.model);
    assert RawCost(ALL_MODEL_DETAILS[mc.model], 0, 0) == 0.0;
  }

  /** 1000 prompt and 500 completion tokens on Claude 3.7 Sonnet: $0.0105, shown as $0.01. */
  lemma ClaudeSonnetExample()
    ensures CalculateCost(ModelConfig("anthropic", "claude-3-7-sonnet-latest"), 1000, 500) == Success(Some(0.01))
  {
    assert ANTHROPIC_MODEL_DETAILS["claude-3-7-sonnet-latest"].inputPrice == 3.0;
    MergedTableKeepsEntries("claude-3-7-sonnet-latest");
    assert RawCost(ALL_MODEL_DETAILS["claude-3-7-sonnet-latest"], 1000, 500) == 0.0105;
  }

  /**
   * The model pickers of src/ai/modelConfig.ts offer GPT-4 Turbo, GPT-3.5 Turbo
   * and Mistral Medium, which the catalogue does not price: a finished
   * generation with one of them makes `calculateCost` throw.
   */
  lemma UnpricedPickerModels(provider: string, model: string, inputTokens: nat, outputTokens: nat)
    requires provider != "ollama"
    requires model == "gpt-4-turbo" || model == "gpt-3.5-turbo" || model == "mistral-medium-latest"
    ensures CalculateCost(ModelConfig(provider, model), inputTokens, outputTokens) == Failure(MissingEntry(model))
  {
    if model == "gpt-4-turbo" {
      Gpt4TurboUnpriced(model);
    } else if model == "gpt-3.5-turbo" {
      Gpt35TurboUnpriced(model);
    } else {
      MistralMediumUnpriced(model);
    }
  }

  lemma Gpt4TurboUnpriced(model: string)
    requires model == "gpt-4-turbo"
    ensures model !in ALL_MODEL_DETAILS && model !in OBJECT_PROTOTYPE_NAMES
  {
    NotOpenAI(model);
    NotAnthropic(model);
    NotMistral(model);
    NotGoogle(model);
    AbsentFromEveryTable(model);
  }

  lemma Gpt35TurboUnpriced(model: string)
    requires model == "gpt-3.5-turbo"
    ensures model !in ALL_MODEL_DETAILS && model !in OBJECT_PROTOTYPE_NAMES
  {
    NotOpenAI(model);
    NotAnthropic(model);
    NotMistral(model);
    NotGoogle(model);
    AbsentFromEveryTable(model);
  }

  lemma MistralMediumUnpriced(model: string)
    requires model == "mistral-medium-latest"
    ensures model !in ALL_MODEL_DETAILS && model !in OBJECT_PROTOTYPE_NAMES
  {
    NotOpenAI(model);
    NotAnthropic(model);
    NotMistral(model);
    NotGoogle(model);
    AbsentFromEveryTable(model);
  }

  /** `calculateCost({provider: 'openai', model: 'toString'}, ...)` throws `Unknown model: toString`. */
  lemma InheritedNameIsUnknownModel(inputTokens: nat, outputTokens: nat)
    ensures CalculateCost(ModelConfig("openai", "toString"), inputTokens, outputTokens) == Failure(UnknownModel("toString"))
  {
    NotCatalogued("toString");
  }

  /** A name none of the provider tables lists: checked table by table. */
  lemma NotCatalogued(model: string)
    requires model == "toString"
    ensures model !in ALL_MODEL_DETAILS
  {
    assert model !in OPENAI_MODEL_DETAILS;
    assert model !in ANTHROPIC_MODEL_DETAILS;
    assert model !in MISTRAL_MODEL_DETAILS;
    assert model !in GOOGLE_MODEL_DETAILS;
    AbsentFromEveryTable(model);
  }

  /** The three picker models, one provider table at a time. */
  lemma NotOpenAI(model: string)
    requires model == "gpt-4-turbo" || model == "gpt-3.5-turbo" || model == "mistral-medium-latest"
    ensures model !in OPENAI_MODEL_DETAILS
  {
  }

  lemma NotAnthropic(model: string)
    requires model == "gpt-4-turbo" || model == "gpt-3.5-turbo" || model == "mistral-medium-latest"
    ensures model !in ANTHROPIC_MODEL_DETAILS
  {
  }

  lemma NotMistral(model: string)
    requires model == "gpt-4-turbo" || model == "gpt-3.5-turbo" || model == "mistral-medium-latest"
    ensures model !in MISTRAL_MODEL_DETAILS
  {
  }

  lemma NotGoogle(model: string)
    requires model == "gpt-4-turbo" || model == "gpt-3.5-turbo" || model == "mistral-medium-latest"
    ensures model !in GOOGLE_MODEL_DETAILS
  {
  }

  /** A model no provider table lists is not in the merged table either. */
  lemma AbsentFromEveryTable(k: string)
    requires k !in OPENAI_MODEL_DETAILS && k !in ANTHROPIC_MODEL_DETAILS
    requires k !in MISTRAL_MODEL_DETAILS && k !in GOOGLE_MODEL_DETAILS
    ensures k !in ALL_MODEL_DETAILS
  {
    MergedTableKeepsEntries(k);
  }
}
