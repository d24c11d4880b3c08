/**
 * The streaming generator of src/services/ai.service.ts: the provider
 * dispatch, the field-by-field merge of the partial objects the stream
 * yields, the partial formatter that renders them while they arrive, and
 * the way the returned promise is settled by the SDK callbacks.
 *
 * The stream itself, the abort controller and the order in which the SDK
 * fires its callbacks are not modelled as concurrency: the callbacks that
 * fire are a sequence of events, and the promise keeps the first
 * settlement, as a JavaScript promise does.
 */
module StreamingAIService {
  import opened Common
  import opened JsValues
  import opened JsNumbers
  import opened ModelTypes
  import opened CommitSchema
  import opened Settings
  import opened CostUtil
  import FormatUtil
  import OllamaService

  // ---------------------------------------------------------------------
  // Chunk accumulation.
  // ---------------------------------------------------------------------

  /** The accumulator the stream starts from: every string empty and no body items. */
  const INITIAL := CommitMessage(Val(""), Val(""), Val(""), Val(""), Val([]))

  /** The four string fields of a commit message, merged alike. */
  datatype Field = EmojiField | KindField | ScopeField | DescriptionField

  function Get(m: CommitMessage, f: Field): Js<string> {
    match f
    case EmojiField => m.emoji
    case KindField => m.kind
    case ScopeField => m.scope
    case DescriptionField => m.description
  }

  /** Whether a chunk is an object that carries a truthy value for `f`. */
  predicate HasTruthy(chunk: Js<CommitMessage>, f: Field) {
    chunk.Val? && Truthy(Get(chunk.v, f))
  }

  /**
   * One step of the chunk loop: a falsy chunk is skipped; otherwise each
   * field takes the chunk's value when truthy and keeps the accumulated one
   * otherwise (`chunk.x || commitMessage.x`).
   */
  function Merge(acc: CommitMessage, chunk: Js<CommitMessage>): (r: CommitMessage)
    ensures !chunk.Val? ==> r == acc
    ensures forall f: Field :: Get(r, f) == if HasTruthy(chunk, f) then Get(chunk.v, f) else Get(acc, f)
    ensures chunk.Val? ==> r.body == OrObject(chunk.v.body, acc.body)
  {
    match chunk
    case Val(c) =>
      CommitMessage(Or(c.emoji, acc.emoji), Or(c.kind, acc.kind), Or(c.scope, acc.scope),
        Or(c.description, acc.description), OrObject(c.body, acc.body))
    case _ => acc
  }

  /** The accumulator after the chunks, merged from left to right onto `start`. */
  function Fold(start: CommitMessage, chunks: seq<Js<CommitMessage>>): CommitMessage {
    if chunks == [] then start else Merge(Fold(start, chunks[..|chunks| - 1]), chunks[|chunks| - 1])
  }

  function Accumulated(chunks: seq<Js<CommitMessage>>): CommitMessage {
    Fold(INITIAL, chunks)
  }

  /**
   * Last truthy value wins: after the chunks, each string field holds the
   * value of the last chunk that carried a truthy one, or "" when none did.
   */
  lemma {:induction false} LastTruthyWins(chunks: seq<Js<CommitMessage>>, f: Field)
    ensures var v := Get(Accumulated(chunks), f);
      (v == Val("") && forall j | 0 <= j < |chunks| :: !HasTruthy(chunks[j], f)) ||
      (exists j | 0 <= j < |chunks| ::
        HasTruthy(chunks[j], f) && v == Get(chunks[j].v, f) && forall k | j < k < |chunks| :: !HasTruthy(chunks[k], f))
  {
    if chunks != [] {
      var n := |chunks| - 1;
      var init := chunks[..n];
      LastTruthyWins(init, f);
      assert forall j | 0 <= j < n :: init[j] == chunks[j];
      if !HasTruthy(chunks[n], f) {
        var v := Get(Accumulated(init), f);
        if !(v == Val("") && forall j | 0 <= j < n :: !HasTruthy(init[j], f)) {
          var j :| 0 <= j < n && HasTruthy(init[j], f) && v == Get(init[j].v, f) &&
            forall k | j < k < n :: !HasTruthy(init[k], f);
          assert HasTruthy(chunks[j], f) && v == Get(chunks[j].v, f);
        }
      }
    }
  }

  /** A field that has become non-empty never becomes "" again, whatever the later chunks hold. */
  lemma NeverReverts(chunks: seq<Js<CommitMessage>>, i: nat, f: Field)
    requires i <= |chunks|
    requires Truthy(Get(Accumulated(chunks[..i]), f))
    ensures Truthy(Get(Accumulated(chunks), f))
  {
    LastTruthyWins(chunks[..i], f);
    var j :| 0 <= j < i && HasTruthy(chunks[..i][j], f);
    assert HasTruthy(chunks[j], f);
    LastTruthyWins(chunks, f);
  }

  /** Merging the same chunk twice is merging it once. */
  lemma MergeIdempotent(acc: CommitMessage, chunk: Js<CommitMessage>)
    ensures Merge(Merge(acc, chunk), chunk) == Merge(acc, chunk)
  {
  }

  /**
   * The body is the exception to "never reverts": an empty array is
   * truthy, so a chunk carrying `[]` replaces any accumulated body.
   */
  lemma EmptyBodyReplaces(acc: CommitMessage, chunk: Js<CommitMessage>)
    requires chunk.Val? && chunk.v.body == Val([])
    ensures Merge(acc, chunk).body == Val([])
  {
  }

  // ---------------------------------------------------------------------
  // The partial formatter.
  // ---------------------------------------------------------------------

  /** `s` when truthy, "" otherwise. */
  function IfTruthy(s: Js<string>): string {
    if Truthy(s) then s.v else ""
  }

  /** The first line: each part only when its field is truthy; the type after a space. */
  function PartialTitle(m: CommitMessage): string {
    IfTruthy(m.emoji) + (if Truthy(m.kind) then " " + m.kind.v else "") + ScopePart(m.scope) +
    (if Truthy(m.description) then ": " + m.description.v else "")
  }

  /** One body line before its "\n": "* ", then each part only when its field is truthy. */
  function PartialItem(b: BodyItem): string {
    "* " + (if Truthy(b.emoji) then b.emoji.v + " " else "") + IfTruthy(b.kind) + ScopePart(b.scope) +
    (if Truthy(b.description) then ": " + b.description.v else "")
  }

  /** Each item's line followed by "\n", in order. */
  function PartialLines(items: seq<BodyItem>): string {
    if items == [] then "" else PartialLines(items[..|items| - 1]) + (PartialItem(items[|items| - 1]) + "\n")
  }

  /** The text `formatPartialCommitMessage` returns. */
  function PartialText(m: CommitMessage): string {
    if m.body.Val? && |m.body.v| > 0 then PartialTitle(m) + "\n" + PartialLines(m.body.v) else PartialTitle(m)
  }

  lemma PartialLinesExtend(items: seq<BodyItem>, i: nat)
    requires i < |items|
    ensures PartialLines(items[..i + 1]) == PartialLines(items[..i]) + (PartialItem(items[i]) + "\n")
  {
    assert items[..i + 1][..i] == items[..i];
  }

  /** `formatPartialCommitMessage`: never fails, and leaves out every falsy field. */
  method FormatPartialCommitMessage(message: CommitMessage) returns (result: string)
    ensures result == PartialText(message)
  {
    result := "";
    if Truthy(message.emoji) {
      result := result + message.emoji.v;
    }
    if Truthy(message.kind) {
      result := result + (" " + message.kind.v);
    }
    if Truthy(message.scope) {
      result := result + ("(" + message.scope.v + ")");
    }
    if Truthy(message.description) {
      result := result + (": " + message.description.v);
    }
    assert result == PartialTitle(message);
    if message.body.Val? && |message.body.v| > 0 {
      result := AppendPartialLines(result + "\n", message.body.v);
    }
  }

  /** The body loop of the partial formatter: each item's line and a "\n" appended in order. */
  method AppendPartialLines(prefix: string, items: seq<BodyItem>) returns (result: string)
    ensures result == prefix + PartialLines(items)
  {
    result := prefix;
    for i := 0 to |items|
      invariant result == prefix + PartialLines(items[..i])
    {
      var bodyLine := BuildBodyLine(items[i]);
      PartialLinesExtend(items, i);
      FormatUtil.Associate(prefix, PartialLines(items[..i]), bodyLine + "\n");
      result := result + (bodyLine + "\n");
    }
    assert items[..|items|] == items;
  }

  /**
   * One pass of the body loop, extracted as a method: `bodyLine` built up part
   * by part, ending as the line `PartialItem` specifies.
   */
  method BuildBodyLine(item: BodyItem) returns (bodyLine: string)
    ensures bodyLine == PartialItem(item)
  {
    bodyLine := "* ";
    if Truthy(item.emoji) {
      bodyLine := bodyLine + (item.emoji.v + " ");
    }
    if Truthy(item.kind) {
      bodyLine := bodyLine + item.kind.v;
    }
    if Truthy(item.scope) {
      bodyLine := bodyLine + ("(" + item.scope.v + ")");
    }
    if Truthy(item.description) {
      bodyLine := bodyLine + (": " + item.description.v);
    }
  }

  /** A message whose every field is falsy renders as "". */
  lemma PartialOfEmpty(m: CommitMessage)
    requires !Truthy(m.emoji) && !Truthy(m.kind) && !Truthy(m.scope) && !Truthy(m.description)
    requires !m.body.Val? || m.body.v == []
    ensures PartialText(m) == ""
  {
  }

  /** The parts both formatters write alike once emoji, type and description are present. */
  predicate Complete(m: CommitMessage) {
    && Truthy(m.emoji) && Truthy(m.kind) && Truthy(m.description)
    && (m.body.Val? ==> forall i | 0 <= i < |m.body.v| :: CompleteItem(m.body.v[i]))
  }

  predicate CompleteItem(b: BodyItem) {
    Truthy(b.emoji) && Truthy(b.kind) && Truthy(b.description)
  }

  lemma PartialItemIsFinal(b: BodyItem)
    requires CompleteItem(b)
    ensures PartialItem(b) == FormatUtil.ItemLine(b)
  {
    FormatUtil.Associate("* ", b.emoji.v, " ");
  }

  lemma {:induction false} PartialLinesAreFinal(items: seq<BodyItem>)
    requires forall i | 0 <= i < |items| :: CompleteItem(items[i])
    ensures "\n" + PartialLines(items) == FormatUtil.BodyLines(items) + "\n"
  {
    if items != [] {
      var n := |items| - 1;
      var init := items[..n];
      var p := PartialItem(items[n]);
      PartialLinesAreFinal(init);
      PartialItemIsFinal(items[n]);
      calc {
        "\n" + PartialLines(items);
        "\n" + (PartialLines(init) + (p + "\n"));
        { FormatUtil.Associate("\n", PartialLines(init), p + "\n"); }
        ("\n" + PartialLines(init)) + (p + "\n");
        (FormatUtil.BodyLines(init) + "\n") + (p + "\n");
        { FormatUtil.Associate(FormatUtil.BodyLines(init), "\n", p + "\n");
          FormatUtil.Associate("\n", p, "\n");
          FormatUtil.Associate(FormatUtil.BodyLines(init), "\n" + p, "\n"); }
        (FormatUtil.BodyLines(init) + ("\n" + p)) + "\n";
        FormatUtil.BodyLines(items) + "\n";
      }
    }
  }

  /**
   * Once emoji, type and description are present (in the message and in
   * every item), the partial text is the final text, plus one trailing
   * "\n" when there are body items.
   */
  lemma PartialMatchesFinal(m: CommitMessage)
    requires Complete(m)
    ensures var items := FormatUtil.Items(m);
      PartialText(m) == FormatUtil.CommitText(m) + (if |items| > 0 then "\n" else "")
  {
    var title := PartialTitle(m);
    assert title == FormatUtil.TitleText(m) by {
      FormatUtil.Associate(m.emoji.v, " ", m.kind.v);
    }
    var items := FormatUtil.Items(m);
    if |items| > 0 {
      PartialLinesAreFinal(items);
      FormatUtil.Associate(title, "\n", PartialLines(items));
      FormatUtil.Associate(title, FormatUtil.BodyLines(items), "\n");
    }
  }

  // ---------------------------------------------------------------------
  // How the returned promise is settled.
  // ---------------------------------------------------------------------

  const GENERATION_ERROR := "Error generating commit message: "

  /** The token counts the SDK hands to `onFinish`. */
  datatype Usage = Usage(promptTokens: nat, completionTokens: nat, totalTokens: nat)

  /** A `progress.report` call. */
  datatype Report = Report(message: string, increment: nat)

  /** The state of a JavaScript promise. */
  datatype Promise = Pending | Resolved(value: Option<CommitMessage>) | Rejected(reason: string)

  /** A promise settles once: later `resolve`/`reject` calls are ignored. */
  function Settle(p: Promise, q: Promise): (r: Promise)
    requires !q.Pending?
    ensures !r.Pending?
    ensures p.Pending? ==> r == q
    ensures !p.Pending? ==> r == p
  {
    if p.Pending? then q else p
  }

  /**
   * What may happen once the promise is created: a chunk from
   * `partialObjectStream`, the SDK's `onFinish` or `onError` callback, or
   * the `for await` loop throwing (with the abort signal set or not).
   */
  datatype Event =
    | Chunk(chunk: Js<CommitMessage>)
    | Finish(usage: Usage, finished: Js<CommitMessage>)
    | SdkError(error: string)
    | StreamFailed(error: string, aborted: bool)

  /**
   * What the callbacks have done so far: the accumulated message, the
   * promise, the progress reports, the successive values written to the Git
   * input box, and the errors `onFinish` threw back into the SDK.
   */
  datatype Stream = Stream(
    message: CommitMessage, promise: Promise, reports: seq<Report>, box: seq<string>, callbackErrors: seq<string>)

  const START := Stream(INITIAL, Pending, [], [], [])

  /** `$${cost}`: a cost rounded to cents, written as JavaScript writes the number. */
  function CostText(cost: real): string
    requires cost >= 0.0
  {
    CentsToString(Cents(cost))
  }

  /** The usage line `onFinish` reports: the cost only when it is truthy (present and not 0). */
  function UsageMessage(totalTokens: nat, cost: Option<real>): (text: string)
    requires cost.Some? ==> cost.value >= 0.0
    ensures cost.Some? && cost.value != 0.0 <==>
      text != "Commit usage: " + NatToString(totalTokens) + " tokens"
    ensures cost.Some? && cost.value != 0.0 ==>
      text == "Commit usage: " + NatToString(totalTokens) + " tokens" + " (Cost: $" + CostText(cost.value) + ")"
    ensures !(cost.Some? && cost.value != 0.0) ==>
      text == "Commit usage: " + NatToString(totalTokens) + " tokens"
  {
    var head := "Commit usage: " + NatToString(totalTokens) + " tokens";
    if cost.Some? && cost.value != 0.0 then
      var t := head + (" (Cost: $" + CostText(cost.value) + ")");
      assert |t| > |head|;
      t
    else head
  }

  /** One event applied to the stream state, for the model `mc` and with or without an input box. */
  function Step(s: Stream, ev: Event, mc: ModelConfig, hasBox: bool): Stream {
    match ev
    case Chunk(c) =>
      if c.Val? then
        var m := Merge(s.message, c);
        var text := PartialText(m);
        s.(message := m, reports := s.reports + [Report(text, 1)], box := if hasBox then s.box + [text] else s.box)
      else s
    case Finish(usage, finished) =>
      (match CalculateCost(mc, usage.promptTokens, usage.completionTokens)
       case Failure(e) => s.(callbackErrors := s.callbackErrors + [e.Message()])
       case Success(cost) =>
         s.(reports := s.reports + [Report(UsageMessage(usage.totalTokens, cost), 100)],
            box := if finished.Val? && hasBox then s.box + [FormatUtil.CommitText(finished.v)] else s.box,
            promise := Settle(s.promise, Resolved(if finished.Val? then Some(finished.v) else None))))
    case SdkError(e) => s.(promise := Settle(s.promise, Rejected(e)))
    case StreamFailed(e, aborted) => s.(promise := Settle(s.promise, if aborted then Resolved(None) else Rejected(e)))
  }

  /** The events applied in order. */
  function Run(s: Stream, events: seq<Event>, mc: ModelConfig, hasBox: bool): Stream {
    if events == [] then s else Step(Run(s, events[..|events| - 1], mc, hasBox), events[|events| - 1], mc, hasBox)
  }

  /** The chunks among the events, in order. */
  function ChunksOf(events: seq<Event>): (chunks: seq<Js<CommitMessage>>)
    ensures |chunks| <= |events|
  {
    if events == [] then []
    else ChunksOf(events[..|events| - 1]) + (if events[|events| - 1].Chunk? then [events[|events| - 1].chunk] else [])
  }

  /** The accumulated message depends only on the chunks: the callbacks never touch it. */
  lemma {:induction false} RunMessageIsFold(s: Stream, events: seq<Event>, mc: ModelConfig, hasBox: bool)
    ensures Run(s, events, mc, hasBox).message == Fold(s.message, ChunksOf(events))
  {
    if events != [] {
      var n := |events| - 1;
      RunMessageIsFold(s, events[..n], mc, hasBox);
      var before := ChunksOf(events[..n]);
      if events[n].Chunk? {
        var cs := before + [events[n].chunk];
        assert ChunksOf(events) == cs;
        assert cs[..|cs| - 1] == before;
        assert Fold(s.message, cs) == Merge(Fold(s.message, before), events[n].chunk);
      } else {
        assert ChunksOf(events) == before + [];
        assert before + [] == before;
      }
    }
  }

  /** Once settled, the promise keeps its value whatever fires afterwards. */
  lemma {:induction false} SettledStays(s: Stream, events: seq<Event>, mc: ModelConfig, hasBox: bool)
    requires !s.promise.Pending?
    ensures Run(s, events, mc, hasBox).promise == s.promise
  {
    if events != [] {
      SettledStays(s, events[..|events| - 1], mc, hasBox);
    }
  }

  /** Chunks alone never settle the promise. */
  lemma {:induction false} ChunksLeavePending(s: Stream, events: seq<Event>, mc: ModelConfig, hasBox: bool)
    requires forall i | 0 <= i < |events| :: events[i].Chunk?
    ensures Run(s, events, mc, hasBox).promise == s.promise
  {
    if events != [] {
      ChunksLeavePending(s, events[..|events| - 1], mc, hasBox);
    }
  }

  lemma RunAppend(s: Stream, events: seq<Event>, ev: Event, mc: ModelConfig, hasBox: bool)
    ensures Run(s, events + [ev], mc, hasBox) == Step(Run(s, events, mc, hasBox), ev, mc, hasBox)
  {
    assert (events + [ev])[..|events|] == events;
  }

  lemma {:induction false} RunConcat(s: Stream, a: seq<Event>, b: seq<Event>, mc: ModelConfig, hasBox: bool)
    ensures Run(s, a + b, mc, hasBox) == Run(Run(s, a, mc, hasBox), b, mc, hasBox)
  {
    if b == [] {
      assert a + b == a;
    } else {
      var n := |b| - 1;
      RunConcat(s, a, b[..n], mc, hasBox);
      assert (a + b)[..|a + b| - 1] == a + b[..n];
    }
  }

  /**
   * The first settling event decides the promise: after any chunks, an SDK
   * error rejects it, a loop failure resolves null when aborted and rejects
   * otherwise, and `onFinish` resolves the finished object or null when the
   * cost can be computed. Nothing that fires later changes it.
   */
  lemma FirstSettlementWins(chunks: seq<Event>, ev: Event, rest: seq<Event>, mc: ModelConfig, hasBox: bool)
    requires forall i | 0 <= i < |chunks| :: chunks[i].Chunk?
    requires !ev.Chunk?
    requires ev.Finish? ==> CalculateCost(mc, ev.usage.promptTokens, ev.usage.completionTokens).Success?
    ensures var p := Run(START, chunks + [ev] + rest, mc, hasBox).promise;
      match ev
      case SdkError(e) => p == Rejected(e)
      case StreamFailed(e, aborted) => p == (if aborted then Resolved(None) else Rejected(e))
      case Finish(_, finished) => p == Resolved(if finished.Val? then Some(finished.v) else None)
      case Chunk(_) => true
  {
    ChunksLeavePending(START, chunks, mc, hasBox);
    RunAppend(START, chunks, ev, mc, hasBox);
    var s := Run(START, chunks + [ev], mc, hasBox);
    assert !s.promise.Pending?;
    RunConcat(START, chunks + [ev], rest, mc, hasBox);
    SettledStays(s, rest, mc, hasBox);
  }

  /**
   * When `calculateCost` throws (a model without a catalogue entry),
   * `onFinish` throws before it reports, writes or resolves: this event
   * leaves the promise as it was.
   */
  lemma UnpricedFinishSettlesNothing(s: Stream, usage: Usage, finished: Js<CommitMessage>, mc: ModelConfig, hasBox: bool)
    requires mc.provider != "ollama" && mc.model !in ALL_MODEL_DETAILS
    ensures var t := Step(s, Finish(usage, finished), mc, hasBox);
      var e := if mc.model in OBJECT_PROTOTYPE_NAMES then UnknownModel(mc.model) else MissingEntry(mc.model);
      t.promise == s.promise && t.reports == s.reports && t.box == s.box &&
      t.callbackErrors == s.callbackErrors + [e.Message()]
  {
    UnpricedCostFails(mc, usage.promptTokens, usage.completionTokens);
  }

  lemma UnpricedCostFails(mc: ModelConfig, promptTokens: nat, completionTokens: nat)
    requires mc.provider != "ollama" && mc.model !in ALL_MODEL_DETAILS
    ensures CalculateCost(mc, promptTokens, completionTokens) ==
      Failure(if mc.model in OBJECT_PROTOTYPE_NAMES then UnknownModel(mc.model) else MissingEntry(mc.model))
  {
  }

  /** A cost that rounds to 0 is falsy and is left out of the usage line. */
  lemma ZeroCostNotShown(s: Stream, usage: Usage, finished: Js<CommitMessage>, mc: ModelConfig, hasBox: bool)
    requires mc.provider != "ollama" && mc.model in ALL_MODEL_DETAILS
    requires usage.promptTokens == 0 && usage.completionTokens == 0
    ensures Step(s, Finish(usage, finished), mc, hasBox).reports ==
      s.reports + [Report("Commit usage: " + NatToString(usage.totalTokens) + " tokens", 100)]
  {
    ZeroTokensCostNothing(mc);
  }

  /**
   * The `for await` loop over the chunks alone: each truthy chunk is merged,
   * rendered, written to the input box when there is one, and reported
   * with increment 1.
   */
  method ConsumeChunks(chunks: seq<Js<CommitMessage>>, hasBox: bool, ghost mc: ModelConfig)
    returns (commitMessage: CommitMessage, reports: seq<Report>, box: seq<string>)
    ensures commitMessage == Accumulated(chunks)
    ensures Stream(commitMessage, Pending, reports, box, []) == Run(START, ChunkEvents(chunks), mc, hasBox)
  {
    commitMessage := INITIAL;
    reports := [];
    box := [];
    for i := 0 to |chunks|
      invariant commitMessage == Fold(INITIAL, chunks[..i])
      invariant Stream(commitMessage, Pending, reports, box, []) == Run(START, ChunkEvents(chunks[..i]), mc, hasBox)
    {
      var chunk := chunks[i];
      assert chunks[..i + 1][..i] == chunks[..i];
      ChunkEventsExtend(chunks, i);
      RunAppend(START, ChunkEvents(chunks[..i]), Chunk(chunk), mc, hasBox);
      if chunk.Val? {
        commitMessage := Merge(commitMessage, chunk);
        var formattedMessage := FormatPartialCommitMessage(commitMessage);
        if hasBox {
          box := box + [formattedMessage];
        }
        reports := reports + [Report(formattedMessage, 1)];
      }
    }
    assert chunks[..|chunks|] == chunks;
  }

  /** The chunks as stream events. */
  function ChunkEvents(chunks: seq<Js<CommitMessage>>): (events: seq<Event>)
    ensures |events| == |chunks|
    ensures forall i | 0 <= i < |chunks| :: events[i] == Chunk(chunks[i])
  {
    Map((c: Js<CommitMessage>) => Chunk(c), chunks)
  }

  lemma ChunkEventsExtend(chunks: seq<Js<CommitMessage>>, i: nat)
    requires i < |chunks|
    ensures ChunkEvents(chunks[..i + 1]) == ChunkEvents(chunks[..i]) + [Chunk(chunks[i])]
  {
    MapExtend((c: Js<CommitMessage>) => Chunk(c), chunks, i);
  }

  // ---------------------------------------------------------------------
  // The service object and its provider dispatch.
  // ---------------------------------------------------------------------

  /** The four keys `loadApiKeys` reads. */
  datatype ApiKeys = ApiKeys(anthropic: Js<string>, openai: Js<string>, mistral: Js<string>, google: Js<string>)

  function KeysOf(cfg: Config): ApiKeys {
    ApiKeys(cfg.anthropicApiKey, cfg.openaiApiKey, cfg.mistralApiKey, cfg.googleApiKey)
  }

  /** The key a keyed provider needs (Ollama needs none). */
  function KeyOf(keys: ApiKeys, p: AIProvider): Js<string>
    requires p != Ollama
  {
    match p
    case Anthropic => keys.anthropic
    case OpenAI => keys.openai
    case Mistral => keys.mistral
    case Google => keys.google
  }

  /** The provider's name in "<Name> API key not configured". */
  function KeyName(p: AIProvider): string
    requires p != Ollama
  {
    match p
    case Anthropic => "Anthropic"
    case OpenAI => "OpenAI"
    case Mistral => "Mistral"
    case Google => "Google"
  }

  /** The SDK factory built for a keyed provider; OpenAI is created in strict compatibility mode. */
  function ClientFor(p: AIProvider, key: string): ProviderClient
    requires p != Ollama
  {
    match p
    case Anthropic => AnthropicClient(key)
    case OpenAI => OpenAIClient(key, true)
    case Mistral => MistralClient(key)
    case Google => GoogleClient(key)
  }

  class AIService {
    /** The API keys as last loaded from the settings. */
    var apiKeys: ApiKeys

    constructor(cfg: Config)
      ensures apiKeys == KeysOf(cfg)
    {
      apiKeys := KeysOf(cfg);
    }

    /** `reinitialize`/`loadApiKeys`: the keys are replaced by the current settings. */
    method Reinitialize(cfg: Config)
      modifies this
      ensures apiKeys == KeysOf(cfg)
    {
      apiKeys := KeysOf(cfg);
    }

    /**
     * `getModelInstance`: a keyed provider needs a truthy key, Ollama needs
     * none and takes the Ollama service's provider, any other string is
     * unsupported; a success carries the model string unchanged.
     */
    function GetModelInstance(mc: ModelConfig, ollama: OllamaService.OllamaService): (r: Result<ModelInstance, string>)
      reads this, ollama
      ensures r.Success? ==> r.value.model == mc.model
      ensures ProviderOf(mc.provider).None? ==> r == Failure("Unsupported provider: " + mc.provider)
      ensures mc.provider == "ollama" ==> r == Success(ModelInstance(mc.model, OllamaClient(ollama.ProviderBaseURL())))
      ensures ProviderOf(mc.provider).Some? && mc.provider != "ollama" ==>
        var p := ProviderOf(mc.provider).value;
        (r.Failure? <==> !Truthy(KeyOf(apiKeys, p))) &&
        (r.Failure? ==> r.error == KeyName(p) + " API key not configured") &&
        (r.Success? ==> r.value.provider == ClientFor(p, KeyOf(apiKeys, p).v))
    {
      match ProviderOf(mc.provider)
      case None => Failure("Unsupported provider: " + mc.provider)
      case Some(p) =>
        if p == Ollama then Success(ModelInstance(mc.model, OllamaClient(ollama.ProviderBaseURL())))
        else if !Truthy(KeyOf(apiKeys, p)) then Failure(KeyName(p) + " API key not configured")
        else Success(ModelInstance(mc.model, ClientFor(p, KeyOf(apiKeys, p).v)))
    }

    /**
     * `generateCommitMessage`. The keys are reloaded; a failure to load the
     * prompts or to build the model instance is shown and turns into null;
     * otherwise the call returns the promise the stream events settle. A
     * rejection of that promise is not caught: it reaches the caller with no
     * error shown, because the promise is returned, not awaited, inside the
     * `try`.
     */
    method GenerateCommitMessage(cfg: Config, ollama: OllamaService.OllamaService, promptError: Option<string>,
                                 hasBox: bool, events: seq<Event>) returns (outcome: Outcome)
      modifies this
      ensures apiKeys == KeysOf(cfg)
      ensures promptError.Some? ==> outcome == ReturnedNull(ErrorNotice(GENERATION_ERROR + promptError.value))
      ensures promptError.None? ==>
        match GetModelInstance(SelectedModel(cfg), ollama)
        case Failure(e) => outcome == ReturnedNull(ErrorNotice(GENERATION_ERROR + e))
        case Success(_) => outcome == ReturnedPromise(Run(START, events, SelectedModel(cfg), hasBox))
    {
      Reinitialize(cfg);
      var modelConfig := SelectedModel(cfg);
      if promptError.Some? {
        return ReturnedNull(ErrorNotice(GENERATION_ERROR + promptError.value));
      }
      var instance := GetModelInstance(modelConfig, ollama);
      if instance.Failure? {
        return ReturnedNull(ErrorNotice(GENERATION_ERROR + instance.error));
      }
      return ReturnedPromise(Run(START, events, modelConfig, hasBox));
    }
  }

  /** What the caller of `generateCommitMessage` gets: null with an error notice, or the stream's promise. */
  datatype Outcome = ReturnedNull(notice: Notice) | ReturnedPromise(stream: Stream)

  /**
   * A stream error is not turned into an error notice and null: the
   * returned promise is rejected with it, so the caller's `await` throws.
   */
  lemma StreamErrorEscapes(chunks: seq<Event>, e: string, rest: seq<Event>, mc: ModelConfig, hasBox: bool)
    requires forall i | 0 <= i < |chunks| :: chunks[i].Chunk?
    ensures Run(START, chunks + [SdkError(e)] + rest, mc, hasBox).promise == Rejected(e)
    ensures Run(START, chunks + [StreamFailed(e, false)] + rest, mc, hasBox).promise == Rejected(e)
  {
    FirstSettlementWins(chunks, SdkError(e), rest, mc, hasBox);
    FirstSettlementWins(chunks, StreamFailed(e, false), rest, mc, hasBox);
  }
}
