/**
 * The shape of a generated commit message (src/models/commit.schema.ts and
 * the older interfaces in src/types.ts): a title of emoji, type, optional
 * scope and description, and an optional list of body items of the same
 * four fields. Each field is a JavaScript slot, because the objects arrive
 * from JSON or from a partially streamed object and may lack fields.
 */
module CommitSchema {
  import opened JsValues
  import opened JsNumbers

  /** One body line. The source field `type` is called `kind` here (`type` is a Dafny keyword). */
  datatype BodyItem = BodyItem(emoji: Js<string>, kind: Js<string>, scope: Js<string>, description: Js<string>)

  /** A commit message: title fields and an optional array of body items. */
  datatype CommitMessage = CommitMessage(
    emoji: Js<string>, kind: Js<string>, scope: Js<string>, description: Js<string>,
    body: Js<seq<BodyItem>>)

  /** What `commitBodyItemSchema` accepts: three strings and a scope that is a string or null. */
  predicate ValidBodyItem(b: BodyItem) {
    b.emoji.Val? && b.kind.Val? && !b.scope.Undefined? && b.description.Val?
  }

  /**
   * What `commitMessageSchema` accepts. `.required()` removes the
   * `.optional()` from `body`, so the array must be present; `scope` stays
   * nullable.
   */
  predicate ValidCommitMessage(m: CommitMessage) {
    m.emoji.Val? && m.kind.Val? && !m.scope.Undefined? && m.description.Val? &&
    m.body.Val? && forall i | 0 <= i < |m.body.v| :: ValidBodyItem(m.body.v[i])
  }

  /** A schema violation: the property path and zod's message for it. */
  datatype Issue = Issue(path: string, message: string)

  /** zod's message for a string field that is missing or null. */
  function StringIssue(path: string, s: Js<string>): seq<Issue> {
    match s
    case Undefined => [Issue(path, "Required")]
    case Null => [Issue(path, "Expected string, received null")]
    case Val(_) => []
  }

  /** zod's message for a nullable string field: only a missing one is wrong. */
  function NullableIssue(path: string, s: Js<string>): seq<Issue> {
    if s.Undefined? then [Issue(path, "Required")] else []
  }

  function ItemIssues(prefix: string, b: BodyItem): seq<Issue> {
    StringIssue(prefix + "emoji", b.emoji) + StringIssue(prefix + "type", b.kind) +
    NullableIssue(prefix + "scope", b.scope) + StringIssue(prefix + "description", b.description)
  }

  /** The issues of body items `from` onwards, each path prefixed with `body.<index>.`. */
  function BodyIssues(items: seq<BodyItem>, from: nat): (r: seq<Issue>)
    requires from <= |items|
    ensures r == [] <==> forall i | from <= i < |items| :: ValidBodyItem(items[i])
    decreases |items| - from
  {
    if from == |items| then []
    else ItemIssues("body." + NatToString(from) + ".", items[from]) + BodyIssues(items, from + 1)
  }

  /**
   * The issues `commitMessageSchema.safeParse` reports, in field order.
   * There are none exactly when the message is valid.
   */
  function Issues(m: CommitMessage): (r: seq<Issue>)
    ensures r == [] <==> ValidCommitMessage(m)
  {
    StringIssue("emoji", m.emoji) + StringIssue("type", m.kind) + NullableIssue("scope", m.scope) +
    StringIssue("description", m.description) +
    (match m.body
     case Undefined => [Issue("body", "Required")]
     case Null => [Issue("body", "Expected array, received null")]
     case Val(items) => BodyIssues(items, 0))
  }

  /** A message whose body is missing fails the schema on the path "body" and nowhere else when its title is valid. */
  lemma MissingBodyRejected(m: CommitMessage)
    requires m.emoji.Val? && m.kind.Val? && !m.scope.Undefined? && m.description.Val?
    requires m.body.Undefined?
    ensures Issues(m) == [Issue("body", "Required")]
  {
  }

  /** The 74-character limit is only a description for the model: no length is checked. */
  lemma DescriptionLengthUnchecked(m: CommitMessage, longer: string)
    requires ValidCommitMessage(m)
    ensures ValidCommitMessage(m.(description := Val(m.description.v + longer)))
  {
  }
}
