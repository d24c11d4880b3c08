/**
 * The provider and model catalogue (src/@types/model.types.ts): the five
 * providers, the model identifiers of the four hosted ones, their per-million
 * token prices, and the merged table the cost calculator reads.
 */
module ModelTypes {
  import opened Common

  /** `AIProvider`: the providers a model selection can name. */
  datatype AIProvider = Anthropic | OpenAI | Mistral | Ollama | Google {
    /** The string the enum member stands for in the settings. */
    function Value(): string {
      match this
      case Anthropic => "anthropic"
      case OpenAI => "openai"
      case Mistral => "mistral"
      case Ollama => "ollama"
      case Google => "google"
    }
  }

  /** The provider a settings string names, if any (what a `switch` over `AIProvider` tests). */
  function ProviderOf(s: string): (p: Option<AIProvider>)
    ensures p.Some? ==> p.value.Value() == s
    ensures p.None? ==> forall q: AIProvider :: q.Value() != s
  {
    if s == "anthropic" then Some(Anthropic)
    else if s == "openai" then Some(OpenAI)
    else if s == "mistral" then Some(Mistral)
    else if s == "ollama" then Some(Ollama)
    else if s == "google" then Some(Google)
    else None
  }

  /** Each provider's string names exactly that provider. */
  lemma ProviderOfValue(p: AIProvider)
    ensures ProviderOf(p.Value()) == Some(p)
  {
  }

  /** `IModelConfig`: a provider string and a model string, as stored in the settings. */
  datatype ModelConfig = ModelConfig(provider: string, model: string)

  /** `OpenAIModel`. */
  datatype OpenAIModel = Gpt4o | Gpt4oMini | Gpt41 | Gpt41Mini | Gpt41Nano | O1 | O1Mini | O3 | O3Mini | O4Mini {
    function Value(): string {
      match this
      case Gpt4o => "gpt-4o"
      case Gpt4oMini => "gpt-4o-mini"
      case Gpt41 => "gpt-4.1"
      case Gpt41Mini => "gpt-4.1-mini"
      case Gpt41Nano => "gpt-4.1-nano"
      case O1 => "o1"
      case O1Mini => "o1-mini"
      case O3 => "o3"
      case O3Mini => "o3-mini"
      case O4Mini => "o4-mini"
    }
  }

  /** `AnthropicModel`. */
  datatype AnthropicModel = Claude35Sonnet | Claude37Sonnet | Claude35Haiku | Claude3Opus | Claude3Sonnet | Claude3Haiku {
    function Value(): string {
      match this
      case Claude35Sonnet => "claude-3-5-sonnet-latest"
      case Claude37Sonnet => "claude-3-7-sonnet-latest"
      case Claude35Haiku => "claude-3-5-haiku-latest"
      case Claude3Opus => "claude-3-opus-latest"
      case Claude3Sonnet => "claude-3-sonnet-latest"
      case Claude3Haiku => "claude-3-haiku-latest"
    }
  }

  /** `MistralModel`. */
  datatype MistralModel = MistralLarge | MistralSmall | Codestral | Ministral8b | Ministral3b {
    function Value(): string {
      match this
      case MistralLarge => "mistral-large-latest"
      case MistralSmall => "mistral-small-latest"
      case Codestral => "codestral-latest"
      case Ministral8b => "ministral-8b-latest"
      case Ministral3b => "ministral-3b-latest"
    }
  }

  /** `GoogleModel`. */
  datatype GoogleModel = Gemini25ProExperimental | Gemini20Flash | Gemini20FlashLite | Gemini15Pro | Gemini15Flash {
    function Value(): string {
      match this
      case Gemini25ProExperimental => "gemini-2.5-pro-exp-03-25"
      case Gemini20Flash => "gemini-2.0-flash"
      case Gemini20FlashLite => "gemini-2.0-flash-lite"
      case Gemini15Pro => "gemini-1.5-pro"
      case Gemini15Flash => "gemini-1.5-flash"
    }
  }

  /** The prices of `IModelDetails`, in dollars per million tokens (its display title and description are left out). */
  datatype ModelDetails = ModelDetails(inputPrice: real, outputPrice: real)

  const OPENAI_MODEL_DETAILS: map<string, ModelDetails> := map[
    "gpt-4o" := ModelDetails(2.5, 10.0),
    "gpt-4o-mini" := ModelDetails(0.15, 0.6),
    "o1" := ModelDetails(15.0, 60.0),
    "o1-mini" := ModelDetails(1.1, 4.4),
    "o3-mini" := ModelDetails(1.1, 4.4),
    "o3" := ModelDetails(10.0, 40.0),
    "gpt-4.1" := ModelDetails(2.0, 8.0),
    "gpt-4.1-mini" := ModelDetails(0.4, 1.6),
    "gpt-4.1-nano" := ModelDetails(0.1, 0.4),
    "o4-mini" := ModelDetails(1.1, 4.4)
  ]

  const ANTHROPIC_MODEL_DETAILS: map<string, ModelDetails> := map[
    "claude-3-7-sonnet-latest" := ModelDetails(3.0, 15.0),
    "claude-3-5-haiku-latest" := ModelDetails(0.8, 4.0),
    "claude-3-opus-latest" := ModelDetails(15.0, 75.0),
    "claude-3-5-sonnet-latest" := ModelDetails(3.0, 15.0),
    "claude-3-sonnet-latest" := ModelDetails(3.0, 15.0),
    "claude-3-haiku-latest" := ModelDetails(0.25, 1.25)
  ]

  const MISTRAL_MODEL_DETAILS: map<string, ModelDetails> := map[
    "mistral-large-latest" := ModelDetails(2.0, 6.0),
    "mistral-small-latest" := ModelDetails(0.1, 0.3),
    "codestral-latest" := ModelDetails(0.3, 0.9),
    "ministral-8b-latest" := ModelDetails(0.1, 0.1),
    "ministral-3b-latest" := ModelDetails(0.04, 0.04)
  ]

  const GOOGLE_MODEL_DETAILS: map<string, ModelDetails> := map[
    "gemini-2.5-pro-exp-03-25" := ModelDetails(2.5, 15.0),
    "gemini-2.0-flash" := ModelDetails(0.1, 0.4),
    "gemini-2.0-flash-lite" := ModelDetails(0.075, 0.3),
    "gemini-1.5-pro" := ModelDetails(1.0, 5.0),
    "gemini-1.5-flash" := ModelDetails(0.35, 1.4)
  ]

  /** The object spread `{...OPENAI, ...ANTHROPIC, ...MISTRAL, ...GOOGLE}`: later tables win on a shared key. */
  const ALL_MODEL_DETAILS: map<string, ModelDetails> :=
    OPENAI_MODEL_DETAILS + ANTHROPIC_MODEL_DETAILS + MISTRAL_MODEL_DETAILS + GOOGLE_MODEL_DETAILS

  /** Each `Record<XModel, IModelDetails>` table has an entry for every member of its enum. */
  lemma TablesCoverEnums(o: OpenAIModel, a: AnthropicModel, m: MistralModel, g: GoogleModel)
    ensures o.Value() in OPENAI_MODEL_DETAILS
    ensures a.Value() in ANTHROPIC_MODEL_DETAILS
    ensures m.Value() in MISTRAL_MODEL_DETAILS
    ensures g.Value() in GOOGLE_MODEL_DETAILS
  {
  }

  /** No model identifier belongs to two providers' tables, so the spread overwrites nothing. */
  lemma TablesDisjoint()
    ensures OPENAI_MODEL_DETAILS.Keys !! ANTHROPIC_MODEL_DETAILS.Keys
    ensures OPENAI_MODEL_DETAILS.Keys !! MISTRAL_MODEL_DETAILS.Keys
    ensures OPENAI_MODEL_DETAILS.Keys !! GOOGLE_MODEL_DETAILS.Keys
    ensures ANTHROPIC_MODEL_DETAILS.Keys !! MISTRAL_MODEL_DETAILS.Keys
    ensures ANTHROPIC_MODEL_DETAILS.Keys !! GOOGLE_MODEL_DETAILS.Keys
    ensures MISTRAL_MODEL_DETAILS.Keys !! GOOGLE_MODEL_DETAILS.Keys
  {
    OpenAIAnthropicDisjoint();
    OpenAIMistralDisjoint();
    OpenAIGoogleDisjoint();
    AnthropicMistralDisjoint();
    AnthropicGoogleDisjoint();
    MistralGoogleDisjoint();
  }

  lemma OpenAIAnthropicDisjoint()
    ensures OPENAI_MODEL_DETAILS.Keys !! ANTHROPIC_MODEL_DETAILS.Keys
  {
  }

  lemma OpenAIMistralDisjoint()
    ensures OPENAI_MODEL_DETAILS.Keys !! MISTRAL_MODEL_DETAILS.Keys
  {
  }

  lemma OpenAIGoogleDisjoint()
    ensures OPENAI_MODEL_DETAILS.Keys !! GOOGLE_MODEL_DETAILS.Keys
  {
  }

  lemma AnthropicMistralDisjoint()
    ensures ANTHROPIC_MODEL_DETAILS.Keys !! MISTRAL_MODEL_DETAILS.Keys
  {
  }

  lemma AnthropicGoogleDisjoint()
    ensures ANTHROPIC_MODEL_DETAILS.Keys !! GOOGLE_MODEL_DETAILS.Keys
  {
  }

  lemma MistralGoogleDisjoint()
    ensures MISTRAL_MODEL_DETAILS.Keys !! GOOGLE_MODEL_DETAILS.Keys
  {
  }

  /** The merged table holds exactly the four tables' keys, and each key keeps its own table's entry. */
  lemma MergedTableKeepsEntries(k: string)
    ensures ALL_MODEL_DETAILS.Keys ==
      OPENAI_MODEL_DETAILS.Keys + ANTHROPIC_MODEL_DETAILS.Keys + MISTRAL_MODEL_DETAILS.Keys + GOOGLE_MODEL_DETAILS.Keys
    ensures k in OPENAI_MODEL_DETAILS ==> ALL_MODEL_DETAILS[k] == OPENAI_MODEL_DETAILS[k]
    ensures k in ANTHROPIC_MODEL_DETAILS ==> ALL_MODEL_DETAILS[k] == ANTHROPIC_MODEL_DETAILS[k]
    ensures k in MISTRAL_MODEL_DETAILS ==> ALL_MODEL_DETAILS[k] == MISTRAL_MODEL_DETAILS[k]
    ensures k in GOOGLE_MODEL_DETAILS ==> ALL_MODEL_DETAILS[k] == GOOGLE_MODEL_DETAILS[k]
  {
    TablesDisjoint();
  }

  /** Every listed price is strictly positive. */
  lemma PricesPositive(k: string)
    requires k in ALL_MODEL_DETAILS
    ensures ALL_MODEL_DETAILS[k].inputPrice > 0.0 && ALL_MODEL_DETAILS[k].outputPrice > 0.0
  {
    if k in GOOGLE_MODEL_DETAILS {
      GooglePricesPositive(k);
    } else if k in MISTRAL_MODEL_DETAILS {
      MistralPricesPositive(k);
    } else if k in ANTHROPIC_MODEL_DETAILS {
      AnthropicPricesPositive(k);
    } else {
      OpenAIPricesPositive(k);
    }
  }

  lemma OpenAIPricesPositive(k: string)
    requires k in OPENAI_MODEL_DETAILS
    ensures OPENAI_MODEL_DETAILS[k].inputPrice > 0.0 && OPENAI_MODEL_DETAILS[k].outputPrice > 0.0
  {
  }

  lemma AnthropicPricesPositive(k: string)
    requires k in ANTHROPIC_MODEL_DETAILS
    ensures ANTHROPIC_MODEL_DETAILS[k].inputPrice > 0.0 && ANTHROPIC_MODEL_DETAILS[k].outputPrice > 0.0
  {
  }

  lemma MistralPricesPositive(k: string)
    requires k in MISTRAL_MODEL_DETAILS
    ensures MISTRAL_MODEL_DETAILS[k].inputPrice > 0.0 && MISTRAL_MODEL_DETAILS[k].outputPrice > 0.0
  {
  }

  lemma GooglePricesPositive(k: string)
    requires k in GOOGLE_MODEL_DETAILS
    ensures GOOGLE_MODEL_DETAILS[k].inputPrice > 0.0 && GOOGLE_MODEL_DETAILS[k].outputPrice > 0.0
  {
  }
}
