/**
 * The editable preview of src/uiHandler.ts: its own copy of the commit
 * message formatter and the rule that refuses an empty edited message.
 */
module UiHandler {
  import opened Common
  import opened JsValues
  import opened JsStrings
  import opened CommitSchema
  import FormatUtil

  /**
   * `UIHandler.formatCommitMessage`, a copy of the shared formatter: for every
   * message it yields exactly the text `formatCommitMessage` of
   * src/utils/format.util.ts yields.
   */
  method FormatCommitMessage(m: CommitMessage) returns (formatted: string)
    ensures formatted == FormatUtil.CommitText(m)
  {
    formatted := Show(m.emoji) + " " + Show(m.kind);
    if Truthy(m.scope) {
      formatted := formatted + ("(" + m.scope.v + ")");
    }
    formatted := formatted + (": " + Show(m.description));
    if m.body.Val? && |m.body.v| > 0 {
      formatted := FormatUtil.AppendBodyLines(formatted, m.body.v);
    }
  }

  const EMPTY_MESSAGE_ERROR := "Commit message cannot be empty"

  /** `validateInput`: the error text for a message that is empty after trimming, `None` (null) otherwise. */
  function ValidateInput(text: string): (r: Option<string>)
    ensures r.Some? <==> AllWhiteSpace(text)
    ensures r.Some? ==> r.value == EMPTY_MESSAGE_ERROR
  {
    TrimEmptyIff(text);
    if Trim(text) == "" then Some(EMPTY_MESSAGE_ERROR) else None
  }

  /** A formatted commit message always passes: it holds the ": " of its title. */
  lemma FormattedMessagePasses(m: CommitMessage)
    ensures ValidateInput(FormatUtil.CommitText(m)) == None
  {
    var t := FormatUtil.CommitText(m);
    var k := |FormatUtil.Head(m.emoji, m.kind, m.scope)|;
    assert t[k] == ':';
    assert !IsWhiteSpace(t[k]);
  }
}
