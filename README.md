# git-com-ai commit message generation, modelled in Dafny

git-com-ai is a VS Code extension that asks a language model for a commit
message, in a gitmoji and conventional-commit style, and writes it to the Git
input box. This project models the logic at the centre of that extension and
proves properties about it:

- the commit-message schema and its validation;
- the two commit-message formatters: the final one-line-per-item text and the
  partial text shown while the answer streams in;
- the price catalogue of the hosted models and the cost of a generation;
- the streaming generation service (`src/services/ai.service.ts`): how
  streamed chunks are accumulated, and how the returned promise settles when
  the SDK calls back;
- the older `generateObject` service (`src/ai/aiService.ts`) and how its
  provider dispatch differs from the streaming one;
- the direct Anthropic service (`src/anthropicService.ts`): how it classifies
  replies, and the fallback parser for free-text replies, based on regular
  expressions;
- the Ollama service: host selection, the provider base URL, listing models,
  and the progress records of a model pull;
- the configuration panel: registration of the Handlebars partials, the
  Ollama model-list URL, the model table and the template data;
- the editable preview of `src/uiHandler.ts`.

The model has one module per source file: `CommitSchema`, `FormatUtil`,
`CostUtil`, `ModelTypes`, `StreamingAIService`, `GenerateObjectService`,
`Anthropic`, `OllamaService`, `ConfigView` and `UiHandler`. A few modules
hold the JavaScript semantics the sources rely on:

- `JsValues`: `undefined`, `null` and values; truthiness; `||`; template
  literals.
- `JsStrings`: `trim`, `split`, `indexOf`, `startsWith`, `endsWith`.
- `JsNumbers`: `${n}`, `toFixed`.
- `Settings`: a snapshot of the `gitcomai` settings, and the SDK clients as
  tags that record the options they were built with.

Objects whose fields the source updates are classes:

- both AI services (their API keys);
- `AnthropicService` (its key and the notifications it shows);
- `OllamaService` (the configured URL and the client host);
- `ConfigView` (the rows of the model table).

Loops are methods proved against a specification function:

- the two formatters' body loops;
- the body loop of the Anthropic parser;
- the pull loop of the Ollama service;
- the chunk loop of the streaming service.

Settings, network replies, SDK stream events, `JSON.parse` and the
`\p{Emoji}` character class are parameters. Reading them is I/O, or they are
code this model does not see.

Where the code behaves differently from what its comments or callers suggest,
the model follows the code:

- **Stream errors escape to the caller.** `generateCommitMessage` in
  `src/services/ai.service.ts` returns the promise built at line 174 without
  awaiting it. A rejection from `onError` or from the chunk loop therefore
  escapes both enclosing `catch` blocks. The caller sees a rejected promise,
  with no error notification and no `null`. The `catch` at lines 280-286 is
  effectively unreachable.
- **Unpriced models make `onFinish` throw.** `onFinish` calls
  `calculateCost`, which throws for a model missing from `ALL_MODEL_DETAILS`.
  Examples are `gpt-4-turbo`, `gpt-3.5-turbo` and `mistral-medium-latest`,
  which the model pickers offer. `onFinish` then throws before it reports,
  writes or resolves. Whether the promise stays pending or is rejected
  depends on how the SDK handles a throwing `onFinish`. In the model, that
  is a later `SdkError` or `StreamFailed` event.
- **The "Unknown model" error comes only from inherited names.** Every
  catalogue entry has both prices set. `ALL_MODEL_DETAILS` is a plain
  object, so a name it inherits from `Object.prototype` (such as `toString`
  or `constructor`) reads a value without prices. Only such a name reaches
  the `Unknown model` branch of `calculateCost`. Any other unlisted model
  fails while destructuring `undefined`.
- **The Anthropic parser reads a body only in one narrow case.** Its title
  expression needs the whole text to match up to `$` with no `m` flag, so a
  text with a body never matches. The exception is a newline inside the
  parenthesised scope, which the scope group `[^)]+` admits. Only then is
  the body branch reached. A hyphenated type such as `minor-fix` always
  falls back to the default message. So does an emoji followed by a
  variation selector.
- **The panel and the provider disagree on URLs.** Given a base URL ending
  in `/api`, the configuration panel fetches `.../api/tags`, while the Ollama
  provider is given `.../api/api`.
- **Any character may precede `hbs` in a partial's name.** The partial
  file-name expression leaves its dot unescaped, so `headerxhbs` is
  registered as `header`.

## Model

| member | source | states |
|---|---|---|
| CommitSchema.Issues | src/models/commit.schema.ts:1-45 | the schema reports no issue exactly when the message has string emoji, type and description, a string-or-null scope and a present body whose items all satisfy the item schema |
| CommitSchema.BodyIssues | src/models/commit.schema.ts:3-18 | the body items from a given index report no issue exactly when each of them satisfies the item schema |
| CommitSchema.MissingBodyRejected | src/models/commit.schema.ts:30-41 | `.required()` makes `body` mandatory: a valid title without a body fails on the path "body" alone |
| CommitSchema.DescriptionLengthUnchecked | src/models/commit.schema.ts:25-29 | the 74-character limit is only a description for the model: lengthening a valid description keeps the message valid |
| JsValues.ScopePartOmitsFalsy | src/utils/format.util.ts:19-21 | the scope part is empty exactly for a falsy scope (undefined, null or ""), and otherwise wraps the scope in two parentheses |
| JsStrings.TrimEmptyIff | src/uiHandler.ts:14-16 | `!text.trim()` holds exactly when every character is white space |
| JsStrings.SplitAround | src/anthropicService.ts:345-347 | splitting at a separator placed between two strings splits each of them on its own |
| JsNumbers.NatToStringRoundTrip | src/utils/format.util.ts:9 | reading back the digits written for a whole byte count gives the count again |
| JsNumbers.ToFixed1Close | src/utils/format.util.ts:10-13 | `toFixed(1)` writes digits, a point and one digit, whose value is within 0.05 of the number |
| JsNumbers.Round2 | src/utils/cost.util.ts:23 | `Number(x.toFixed(2))` is non-negative and within half a cent of x |
| JsNumbers.Round2Monotone | src/utils/cost.util.ts:23 | rounding to cents never reverses an order |
| JsNumbers.CentsFractionRoundTrip | src/services/ai.service.ts:199-209 | the cents written after the point are one or two digits, end in a non-zero digit and read back as the hundredths |
| FormatUtil.FormatSizeUnit | src/utils/format.util.ts:8-14 | the unit is B below 1024 bytes, KB below 1024², MB below 1024³ and GB from there on, in both directions |
| FormatUtil.FormatSizeLargestBytes | src/utils/format.util.ts:9 | 1023 bytes is shown as "1023 B" |
| FormatUtil.FormatSizeOneKilobyte | src/utils/format.util.ts:10 | 1024 bytes is already "1.0 KB" |
| FormatUtil.FormatSizeKilobytesClose | src/utils/format.util.ts:10 | a size in the KB range is written as a one-decimal figure and " KB", the figure within 0.05 of bytes/1024 |
| FormatUtil.FormatCommitMessage | src/utils/format.util.ts:16-39 | returns the commit text: the title, then "\n" and one line per body item, in order |
| FormatUtil.AppendBodyLines | src/utils/format.util.ts:25-36 | the body loop appends "\n" and each item's line, in order, to the title |
| FormatUtil.RenderItem | src/utils/format.util.ts:27-33 | one body line: `* emoji type`, the scope only when truthy, then `: description` |
| FormatUtil.CommitTextLines | src/utils/format.util.ts:16-39 | when no field holds a newline, the text splits into exactly the title line and one line per body item, in order; with no body it is the title alone |
| FormatUtil.CommitTextEnd | src/utils/format.util.ts:23-38 | the text ends with the description of the last thing written: the title's with no body items, otherwise the last item's |
| CostUtil.CalculateCost | src/utils/cost.util.ts:3-24 | undefined exactly for an Ollama model; a missing catalogue entry exactly when the model is neither listed nor an `Object.prototype` name; `Unknown model` for an unlisted `Object.prototype` name; otherwise the rounded price of both token counts at the listed prices |
| CostUtil.PricedCost | src/utils/cost.util.ts:18-23 | the cost is within half a cent of the exact price of the prompt and completion tokens |
| CostUtil.CostMonotone | src/utils/cost.util.ts:18-23 | for a listed model, more tokens never cost less |
| CostUtil.OnlyMissingModelsFail | src/utils/cost.util.ts:12-16 | `calculateCost` throws exactly for a non-Ollama model that is missing from the catalogue, and throws `Unknown model` exactly when that model is an `Object.prototype` name |
| CostUtil.InheritedNameIsUnknownModel | src/utils/cost.util.ts:12-16 | the model name `toString` reads an inherited function and gives `Unknown model: toString` |
| CostUtil.CostKeyedByModel | src/utils/cost.util.ts:8-12 | apart from "ollama", the provider string plays no part: the price is looked up by model alone |
| CostUtil.ZeroTokensCostNothing | src/utils/cost.util.ts:18-23 | no tokens cost 0 |
| CostUtil.ClaudeSonnetExample | src/utils/cost.util.ts:18-23 | 1000 prompt and 500 completion tokens on Claude 3.7 Sonnet cost $0.01 |
| CostUtil.UnpricedPickerModels | src/ai/modelConfig.ts:36-56 | GPT-4 Turbo, GPT-3.5 Turbo and Mistral Medium, offered by the model picker, make `calculateCost` throw |
| ModelTypes.ProviderOf | src/@types/model.types.ts:1-7 | a settings string names a provider exactly when it is one of the five enum values |
| ModelTypes.ProviderOfValue | src/@types/model.types.ts:1-7 | each provider's string names exactly that provider |
| ModelTypes.TablesCoverEnums | src/@types/model.types.ts:14-228 | each provider table has an entry for every member of its model enum |
| ModelTypes.TablesDisjoint | src/@types/model.types.ts:61-228 | no model identifier appears in two providers' tables |
| ModelTypes.MergedTableKeepsEntries | src/@types/model.types.ts:230-235 | the merged table holds exactly the four tables' keys, and each key keeps its own table's prices |
| ModelTypes.PricesPositive | src/@types/model.types.ts:61-228 | every listed input and output price is strictly positive |
| Settings.SelectedModel | src/services/ai.service.ts:145-149 | the stored model selection when present, Claude 3.7 Sonnet on Anthropic otherwise |
| Settings.DefaultModelPriced | src/services/ai.service.ts:145-149 | the default model is a catalogued Anthropic model priced at $3 and $15 per million tokens |
| StreamingAIService.Merge | src/services/ai.service.ts:233-246 | each string field takes the chunk's value when it is truthy and keeps the accumulated one otherwise; the body takes any present chunk body, even `[]`; a missing chunk changes nothing |
| StreamingAIService.LastTruthyWins | src/services/ai.service.ts:233-246 | after any chunks, each field is "" when no chunk carried it truthy, and otherwise holds the value of the last chunk that did |
| StreamingAIService.NeverReverts | src/services/ai.service.ts:233-246 | a field that has become non-empty never becomes "" again |
| StreamingAIService.MergeIdempotent | src/services/ai.service.ts:233-246 | merging the same chunk twice is merging it once |
| StreamingAIService.EmptyBodyReplaces | src/services/ai.service.ts:241-244 | a chunk with an empty body array clears the accumulated body items |
| StreamingAIService.FormatPartialCommitMessage | src/services/ai.service.ts:302-348 | returns the partial text: each part only when its field is truthy, then each body item's line followed by "\n" |
| StreamingAIService.AppendPartialLines | src/services/ai.service.ts:321-345 | the body loop appends each item's partial line and a "\n", in order |
| StreamingAIService.BuildBodyLine | src/services/ai.service.ts:325-343 | one partial body line: "* " then the emoji, type, scope and description, each only when truthy |
| StreamingAIService.PartialOfEmpty | src/services/ai.service.ts:302-348 | a message whose fields are all falsy renders as "" |
| StreamingAIService.PartialItemIsFinal | src/services/ai.service.ts:325-343 | once an item's emoji, type and description are present, its partial line equals its final line |
| StreamingAIService.PartialMatchesFinal | src/services/ai.service.ts:302-348 | once emoji, type and description are present everywhere, the partial text is the final commit text, plus a trailing "\n" when there are body items |
| StreamingAIService.Settle | src/services/ai.service.ts:174-222 | a promise settles once: a pending promise takes the new state, a settled one keeps its own |
| StreamingAIService.UsageMessage | src/services/ai.service.ts:199-209 | the usage line is the token count alone, followed by ` (Cost: $<cents>)` exactly when the cost is present and not 0 |
| StreamingAIService.RunMessageIsFold | src/services/ai.service.ts:233-262 | the callbacks never touch the accumulated message: it is the fold of the chunks alone |
| StreamingAIService.SettledStays | src/services/ai.service.ts:174-278 | once settled, the promise keeps its value whatever fires afterwards |
| StreamingAIService.ChunksLeavePending | src/services/ai.service.ts:233-262 | chunks alone never settle the promise |
| StreamingAIService.RunConcat | src/services/ai.service.ts:174-278 | running two event sequences one after the other is running their concatenation |
| StreamingAIService.FirstSettlementWins | src/services/ai.service.ts:183-277 | the first settling event decides the promise: an SDK error or a failed stream rejects it, an abort resolves it with null, a priced finish resolves it with the object or null |
| StreamingAIService.UnpricedFinishSettlesNothing | src/services/ai.service.ts:190-197 | a finish on an unpriced model throws inside `onFinish`: nothing is reported, nothing is written, and the promise stays as it was |
| StreamingAIService.ZeroCostNotShown | src/services/ai.service.ts:199-209 | a cost that rounds to 0 is falsy, so the usage line shows the tokens only |
| StreamingAIService.ConsumeChunks | src/services/ai.service.ts:233-262 | the chunk loop ends with the accumulated message, and with the reports and input-box texts of running the chunks as events |
| StreamingAIService.StreamErrorEscapes | src/services/ai.service.ts:174-298 | an SDK error or a non-abort stream failure after chunks rejects the returned promise, and no later event changes that |
| StreamingAIService.AIService.constructor | src/services/ai.service.ts:32-52 | the keys are the four configured API keys |
| StreamingAIService.AIService.Reinitialize | src/services/ai.service.ts:54-57 | the keys are reloaded from the current settings |
| StreamingAIService.AIService.GetModelInstance | src/services/ai.service.ts:59-109 | an unknown provider fails with "Unsupported provider"; Ollama gets the Ollama service's provider URL; a keyed provider fails exactly when its key is falsy, with "<Name> API key not configured", and otherwise gets its client built with that key |
| StreamingAIService.AIService.GenerateCommitMessage | src/services/ai.service.ts:136-300 | keys reloaded; a prompt or dispatch error gives null with one error notice; otherwise the returned promise is the one the stream events settle |
| GenerateObjectService.AIService.constructor | src/ai/aiService.ts:26-49 | the three keys and the Ollama URL are read from the settings |
| GenerateObjectService.AIService.Reinitialize | src/ai/aiService.ts:51-55 | keys and Ollama URL reloaded |
| GenerateObjectService.AIService.GetModelInstance | src/ai/aiService.ts:57-98 | Anthropic, OpenAI and Mistral each need a truthy key and fail with their own message otherwise; Ollama needs none; any other provider, Google included, is unsupported, in both directions |
| GenerateObjectService.AIService.GenerateCommitMessage | src/ai/aiService.ts:100-152 | a message is returned exactly when no notice is shown; each failure (prompts, dispatch, generation) gives null with one error notice |
| GenerateObjectService.DefaultNeedsAnthropicKey | src/ai/aiService.ts:108-118 | with no model selected, dispatch succeeds exactly when the Anthropic key is set, on Claude 3.7 Sonnet |
| GenerateObjectService.DispatchComparedWithStreaming | src/ai/aiService.ts:57-98 | against the streaming service with the same keys: Anthropic and Mistral agree; OpenAI differs only in strict compatibility; the streaming service adds "/api" to the Ollama URL; Google is unsupported here |
| Anthropic.LowerRun | src/anthropicService.ts:326 | the length of the longest `[a-z]` prefix |
| Anthropic.NonParenRun | src/anthropicService.ts:326 | the length of the longest `[^)]` prefix |
| Anthropic.MatchTitleSound | src/anthropicService.ts:326-327 | every match of the title expression is of a well-formed title, and its groups rebuild exactly the text matched |
| Anthropic.MatchTitleComplete | src/anthropicService.ts:326-327 | every well-formed title is matched, with exactly its own groups |
| Anthropic.MatchAfterKindSound | src/anthropicService.ts:326 | after the type, a match is an optional non-empty `)`-free scope in parentheses, then ": " and a one-line description |
| Anthropic.MatchAfterKindComplete | src/anthropicService.ts:326 | every such scope and description is matched after the type |
| Anthropic.Starred | src/anthropicService.ts:346-348 | the filter keeps at most as many lines as it is given |
| Anthropic.StarredSnoc | src/anthropicService.ts:346-348 | one more line is appended to the filtered lines exactly when its trimmed text starts with "*" |
| Anthropic.StarredKeepsOnlyStarLines | src/anthropicService.ts:346-348 | every kept line is an input line whose trimmed text starts with "*" |
| Anthropic.StarredKeepsEveryStarLine | src/anthropicService.ts:346-348 | every input line whose trimmed text starts with "*" is kept |
| Anthropic.StarredConcat | src/anthropicService.ts:346-348 | filtering a concatenation is concatenating the filtered parts, so the input order is kept |
| Anthropic.ItemsOf | src/anthropicService.ts:350-366 | at most one item per candidate line |
| Anthropic.ItemsOfExtend | src/anthropicService.ts:350-366 | one more line adds its item exactly when the body-line expression matches it |
| Anthropic.ParseCommitMessage | src/anthropicService.ts:324-376 | returns the parsed message: the docs fallback when the title does not match, otherwise the trimmed groups and the items of the starred lines after the first newline |
| Anthropic.CollectBodyItems | src/anthropicService.ts:350-366 | the body loop pushes one item per matching line, in order |
| Anthropic.ParseFormatRoundTrip | src/anthropicService.ts:324-376 | parsing the formatted text of a body-less, well-formed, trimmed message gives the message back |
| Anthropic.TitleTextIsComposed | src/anthropicService.ts:326 | the title formatter writes exactly the text that a match of the same groups is read from |
| Anthropic.BodyNeedsNewlineInScope | src/anthropicService.ts:326-367 | a parsed message has a body only when its title matched with a newline inside the scope |
| Anthropic.BodyFromScopeNewline | src/anthropicService.ts:338-367 | a scope holding a newline and then a starred item line yields that line's item as the body |
| Anthropic.ItemLineMatches | src/anthropicService.ts:352-364 | a starred line written from a well-formed match yields that match's item |
| Anthropic.HyphenatedTypeFallsBack | src/anthropicService.ts:326-335 | "✨ minor-fix: x" falls back to the docs message |
| Anthropic.TypeEndsBadly | src/anthropicService.ts:326-335 | a type followed by anything but a lower-case letter, "(" or ":" falls back |
| Anthropic.VariationSelectorFallsBack | src/anthropicService.ts:326-335 | an emoji followed by U+FE0F falls back |
| Anthropic.ToolReply | src/anthropicService.ts:279-304 | no notice exactly when the input is an object or a string that parses; an object is taken as it is; a parsed value (a message, null, or another JSON value) is returned as it is; otherwise one parsing error and null |
| Anthropic.Respond | src/anthropicService.ts:275-313 | at most one notice; no notice only when the first block calls the named tool, whose input then decides the reply; a text block is parsed with one warning; an error notice always comes with null; a non-object value comes without a notice |
| Anthropic.Answer | src/anthropicService.ts:42-321 | a thrown error becomes one "Error generating commit message" notice and null; otherwise the reply is classified |
| Anthropic.OtherToolIgnored | src/anthropicService.ts:275-313 | a first block calling another tool gives null with the warning, whatever it holds |
| Anthropic.AnthropicService.constructor | src/anthropicService.ts:8-21 | the configured key when truthy; otherwise "" and the key error notice |
| Anthropic.AnthropicService.Reinitialize | src/anthropicService.ts:23-36 | a truthy key replaces the held one; otherwise the key is kept and the error is shown |
| Anthropic.AnthropicService.GenerateCommitMessage | src/anthropicService.ts:38-322 | with no key even after reinitialising, null; otherwise the answer's value and notices |
| OllamaService.CountOrZero | src/services/ollama.service.ts:103-112 | `x || 0`: positive exactly for a truthy count, and then the count |
| OllamaService.Percent | src/services/ollama.service.ts:118 | the percentage times the total is 100 times the downloaded size, and it is at most 100 when nothing exceeds the total |
| OllamaService.Progress | src/services/ollama.service.ts:102-135 | status "downloading"; the sizes are the truthy counts or 0; the percent is positive exactly when both are, and is then their ratio; the message is the status or "" until then |
| OllamaService.ProgressMessageShowsSizes | src/services/ollama.service.ts:117-127 | with both sizes known, the message starts with the status and both formatted sizes and ends with "%)" |
| OllamaService.ProgressAtMostHundred | src/services/ollama.service.ts:117-118 | a part that has not downloaded more than its total reports between 0 and 100 percent |
| OllamaService.OllamaService.constructor | src/services/ollama.service.ts:19-25 | the host is the configured URL when truthy, otherwise http://localhost:11434 |
| OllamaService.OllamaService.LoadConfig | src/services/ollama.service.ts:42-53 | the same host choice when the setting changes |
| OllamaService.OllamaService.ProviderBaseURL | src/services/ollama.service.ts:58-64 | options are passed exactly when the URL is truthy, and then hold the URL followed by "/api" |
| OllamaService.OllamaService.FetchModels | src/services/ollama.service.ts:69-84 | the model list when the reply has one; the invalid-response error when it has none; the client's error is passed on |
| OllamaService.OllamaService.PullModel | src/services/ollama.service.ts:89-142 | with a callback, one progress record per part, in order; none without; a stream error is passed on |
| OllamaService.ProgressOf | src/services/ollama.service.ts:102-135 | one pass of the pull loop hands over the part's progress record |
| OllamaService.PullReportsDownloading | src/services/ollama.service.ts:129-135 | one record per part, each with status "downloading" |
| OllamaService.ProviderDoublesApiSuffix | src/services/ollama.service.ts:58-64 | a configured URL already ending in "/api" gives the provider ".../api/api" |
| ConfigView.PartialName | src/ui/config-view.ts:47-51 | a registered name is the file name without its last four characters: non-empty and dot-free, followed by one non-terminator character and "hbs" |
| ConfigView.PartialNameComplete | src/ui/config-view.ts:47-51 | every dot-free name followed by any non-terminator character and "hbs" is registered whole |
| ConfigView.UnescapedDotAcceptsAnyCharacter | src/ui/config-view.ts:48 | "headerxhbs" registers as "header", just as "header.hbs" does |
| ConfigView.DottedNameSkipped | src/ui/config-view.ts:48-49 | a name with a dot in it is never registered |
| ConfigView.RegistrationsLastWins | src/ui/config-view.ts:45-56 | after registration, a name is a partial exactly when it was one before or some file matched it, and it holds the last such file's text |
| ConfigView.NormalizeApiUrl | src/ui/config-view.ts:178-181 | the API URL starts with the base, ends in "/api", equals the base exactly when the base already ends in "/api", and adds at most four characters |
| ConfigView.NormalizeIdempotent | src/ui/config-view.ts:178-181 | normalising twice is normalising once |
| ConfigView.NormalizeAppendsOnce | src/ui/config-view.ts:180 | a base ending in "/" gains "api", any other gains "/api" |
| ConfigView.TagsUrl | src/ui/config-view.ts:178-183 | the model list URL starts with the base and ends in "/api/tags" |
| ConfigView.PanelAndProviderDisagree | src/ui/config-view.ts:178-183 | for a base ending in "/api" the panel fetches ".../api/tags" while the Ollama provider gets ".../api/api" |
| ConfigView.DefaultTagsUrl | src/ui/config-view.ts:165-168 | with no URL configured, the panel lists http://localhost:11434/api/tags |
| ConfigView.ConfigView.constructor | src/ui/config-view.ts:17-28 | the panel starts with no model rows |
| ConfigView.ConfigView.FetchOllamaModels | src/ui/config-view.ts:171-220 | a reply with a model list replaces the rows and reports their count; an HTTP error, a network error or a reply without a list reports its message and keeps the rows |
| ConfigView.ConfigView.ViewDataOf | src/ui/config-view.ts:238-259 | the selected model or the default; one flag per provider, true exactly for the selected provider; each setting when truthy, else its default |
| ConfigView.OneTabSelected | src/ui/config-view.ts:246-249 | exactly one provider tab is selected for the four providers the panel knows; a Google selection selects none |
| ConfigView.RowsFollowModels | src/ui/config-view.ts:193-199 | the rows keep the models' count, order, names and details, and a size is in GB exactly from 1024³ bytes |
| UiHandler.FormatCommitMessage | src/uiHandler.ts:22-45 | the preview's copy of the formatter yields exactly the shared formatter's text |
| UiHandler.ValidateInput | src/uiHandler.ts:13-18 | the empty-message error exactly for a text that is all white space, null otherwise |
| UiHandler.FormattedMessagePasses | src/uiHandler.ts:8-18 | a formatted commit message always passes the check, because it contains ": " |

## Left out

- Titles and descriptions in the model catalogue are display text only, so only the prices are modelled.
- Numbers are exact reals. `toFixed` is half-up rounding of the exact value. This matches JavaScript for sizes divided by powers of two. It can differ in the last digit for costs and percentages that a double does not hold exactly.
- NaN, infinities and negative token counts are not modelled.
- `\p{Emoji}` is the parameter `isEmoji`; the Unicode emoji property table is not part of this model.
- `JSON.parse` of a tool input is the parameter `jsonParse`.
- Anthropic.ToolReply: a parsed JSON value that is neither an object nor `null` (a number, a string, a boolean, an array) is returned as its text, not as the value itself.
- Strings are sequences of Unicode code points, not of UTF-16 code units. The partial-name expression at `src/ui/config-view.ts:48` has no `u` flag, so it matches surrogate halves one at a time. For a name such as `a😀hbs`, the source registers `a` followed by a lone high surrogate, while `ConfigView.PartialName` treats the emoji as one character.
- The SDK calls (`streamObject`, `generateObject`, `messages.create`, the Ollama client), `fetch`, and the VS Code API (settings, notifications, progress, input box, clipboard, webview) are inputs or recorded outputs.
- Which events the SDK emits, and in what order, is an input to the stream model.
- The prompt loader (`src/promptLoader.ts`) is not part of this model. Its failure is the input `promptError`.
- The logger, and every `logger` call, are not modelled.
- The AbortController and its timeout are not modelled: an aborted stream is an input event.
- Partial-file reads, directory creation and the template compilation of the configuration panel are not modelled. A file's content is the parameter `read`.
- Panel commands (saving settings, pulling a model from the panel, showing the panel) and `copyToClipboard` are not modelled.
- `showCommitMessageInput` is not modelled beyond its formatting and its `validateInput` rule.
- The Git services, the extension's command registration (`src/extension.ts`) and the older type file `src/types.ts` are not part of this model.
- The settings-change listener of `OllamaService` is not modelled. `LoadConfig` is what it calls.
- `FormatUtil.FormatSize` has no direct contract of its own. Its properties are stated by `FormatUtil.FormatSizeUnit` and the lemmas beside it. For the MB and GB ranges, only the unit is proved, not the figure's closeness.
- `Anthropic.ParseFormatRoundTrip` is stated for messages without a body. With a body, the title expression does not match unless the scope holds a newline, which `Anthropic.BodyFromScopeNewline` covers.
- `StreamingAIService.ConsumeChunks`: the stream state is stated through the event model. Its `mc` is ghost because chunks never read the model.
