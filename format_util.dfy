/**
 * The shared text helpers of src/utils/format.util.ts: byte sizes in B, KB,
 * MB or GB with one decimal, and the final one-line-per-item rendering of a
 * commit message that is written to the Git input box.
 */
module FormatUtil {
  import opened JsValues
  import opened JsStrings
  import opened JsNumbers
  import opened CommitSchema

  const KIB: nat := 1024
  const MIB: nat := 1024 * 1024
  const GIB: nat := 1024 * 1024 * 1024

  /** `formatSize`: the figure with one decimal and the unit, a whole count for bytes. */
  function FormatSize(bytes: nat): string {
    if bytes < KIB then WithUnit(NatToString(bytes), "B")
    else if bytes < MIB then WithUnit(ToFixed1(bytes as real / 1024.0), "KB")
    else if bytes < GIB then WithUnit(ToFixed1(bytes as real / 1048576.0), "MB")
    else WithUnit(ToFixed1(bytes as real / 1073741824.0), "GB")
  }

  /** The unit is the largest of B, KB, MB and GB that keeps the figure at least 1 (GB has no upper bound). */
  lemma FormatSizeUnit(bytes: nat)
    ensures var r := FormatSize(bytes);
      (EndsWith(r, " B") <==> bytes < KIB) && (EndsWith(r, " KB") <==> KIB <= bytes < MIB) &&
      (EndsWith(r, " MB") <==> MIB <= bytes < GIB) && (EndsWith(r, " GB") <==> GIB <= bytes)
  {
  }

  /** A figure ending in a digit, a space and a unit: the text ends in " " + u exactly for the unit u used. */
  function WithUnit(figure: string, unit: string): (r: string)
    requires |figure| >= 1 && IsDigit(figure[|figure| - 1])
    requires unit == "B" || unit == "KB" || unit == "MB" || unit == "GB"
    ensures EndsWith(r, " B") <==> unit == "B"
    ensures EndsWith(r, " KB") <==> unit == "KB"
    ensures EndsWith(r, " MB") <==> unit == "MB"
    ensures EndsWith(r, " GB") <==> unit == "GB"
  {
    UnitSuffix(figure, unit);
    figure + " " + unit
  }

  lemma UnitSuffix(figure: string, unit: string)
    requires |figure| >= 1 && IsDigit(figure[|figure| - 1])
    requires unit == "B" || unit == "KB" || unit == "MB" || unit == "GB"
    ensures var r := figure + " " + unit;
      (EndsWith(r, " B") <==> unit == "B") && (EndsWith(r, " KB") <==> unit == "KB") &&
      (EndsWith(r, " MB") <==> unit == "MB") && (EndsWith(r, " GB") <==> unit == "GB")
  {
    var r := figure + " " + unit;
    if unit == "B" {
      assert r[|r| - 2..] == " B";
      assert r[|r| - 3] == figure[|figure| - 1];
    } else {
      assert r[|r| - 3..] == [' '] + unit;
      assert r[|r| - 2..] == unit;
    }
  }

  /** Just below a kibibyte the exact byte count is shown. */
  lemma FormatSizeLargestBytes()
    ensures FormatSize(1023) == "1023 B"
  {
    assert NatToString(1023) == "1023" by {
      assert NatToString(102) == "102" by { assert NatToString(10) == "10"; }
    }
  }

  /** Exactly 1024 bytes is already shown in kilobytes. */
  lemma FormatSizeOneKilobyte()
    ensures FormatSize(1024) == "1.0 KB"
  {
    assert ToFixed1(1.0) == "1.0" by {
      assert RoundHalfUp(10.0) == 10;
      assert NatToString(1) == "1";
    }
  }

  /** The figure before " KB" reads back within 0.05 of the size in kibibytes. */
  lemma FormatSizeKilobytesClose(bytes: nat)
    requires KIB <= bytes < MIB
    ensures var x := bytes as real / 1024.0; var f := ToFixed1(x);
      FormatSize(bytes) == f + " KB" && IsFixed1(f) && x - 0.05 < Fixed1Value(f) <= x + 0.05
  {
    KilobyteUnit(bytes);
    ToFixed1Close(bytes as real / 1024.0);
  }

  lemma KilobyteUnit(bytes: nat)
    requires KIB <= bytes < MIB
    ensures FormatSize(bytes) == ToFixed1(bytes as real / 1024.0) + " KB"
  {
  }

  /*
   * The spec functions group their concatenations the way the source does:
   * each template literal (`(${scope})`, `: ${description}`, `\n${bodyLine}`)
   * is one string appended as a whole.
   */

  /** `${emoji} ${type}` followed by `(scope)` when the scope is truthy: the part of the title before ": ". */
  function Head(emoji: Js<string>, kind: Js<string>, scope: Js<string>): string {
    Show(emoji) + " " + Show(kind) + ScopePart(scope)
  }

  /** The first line: the head, then `: ${description}` always (an empty description still leaves ": "). */
  function TitleText(m: CommitMessage): string {
    Head(m.emoji, m.kind, m.scope) + (": " + Show(m.description))
  }

  /** One body line: `* ${emoji} ${type}`, `(scope)` when truthy, then `: ${description}`. */
  function ItemLine(b: BodyItem): string {
    "* " + Show(b.emoji) + " " + Show(b.kind) + ScopePart(b.scope) + (": " + Show(b.description))
  }

  /** The body items the formatter walks: none when the body is missing or null. */
  function Items(m: CommitMessage): seq<BodyItem> {
    if m.body.Val? then m.body.v else []
  }

  /** Each item's line preceded by "\n", in order. */
  function BodyLines(items: seq<BodyItem>): string {
    if items == [] then "" else BodyLines(items[..|items| - 1]) + ("\n" + ItemLine(items[|items| - 1]))
  }

  /** The text `formatCommitMessage` returns. */
  function CommitText(m: CommitMessage): string {
    TitleText(m) + BodyLines(Items(m))
  }

  /** `formatCommitMessage` (src/utils/format.util.ts). */
  method FormatCommitMessage(m: CommitMessage) returns (formatted: string)
    ensures formatted == CommitText(m)
  {
    formatted := Show(m.emoji) + " " + Show(m.kind);
    if Truthy(m.scope) {
      formatted := formatted + ("(" + m.scope.v + ")");
    }
    formatted := formatted + (": " + Show(m.description));
    if m.body.Val? && |m.body.v| > 0 {
      formatted := AppendBodyLines(formatted, m.body.v);
    }
  }

  /** The `for (const item of message.body)` loop: appends "\n" and each item's line, in order. */
  method AppendBodyLines(title: string, items: seq<BodyItem>) returns (formatted: string)
    ensures formatted == title + BodyLines(items)
  {
    formatted := title;
    var i := 0;
    while i < |items|
      invariant 0 <= i <= |items|
      invariant formatted == title + BodyLines(items[..i])
    {
      var bodyLine := RenderItem(items[i]);
      BodyLinesExtend(items, i);
      Associate(title, BodyLines(items[..i]), "\n" + bodyLine);
      formatted := formatted + ("\n" + bodyLine);
      i := i + 1;
    }
    assert items[..i] == items;
  }

  /**
   * The body of that loop for one item, extracted as a method: `* ${emoji} ${type}`,
   * the scope when truthy, then the description; the line is the one `ItemLine`
   * specifies.
   */
  method RenderItem(item: BodyItem) returns (bodyLine: string)
    ensures bodyLine == ItemLine(item)
  {
    bodyLine := "* " + Show(item.emoji) + " " + Show(item.kind);
    if Truthy(item.scope) {
      bodyLine := bodyLine + ("(" + item.scope.v + ")");
    }
    bodyLine := bodyLine + (": " + Show(item.description));
  }

  lemma Associate(a: string, b: string, c: string)
    ensures (a + b) + c == a + (b + c)
  {
  }

  lemma BodyLinesExtend(items: seq<BodyItem>, i: nat)
    requires i < |items|
    ensures BodyLines(items[..i + 1]) == BodyLines(items[..i]) + ("\n" + ItemLine(items[i]))
  {
    assert items[..i + 1][..i] == items[..i];
  }

  /** No rendered field of a body item holds a newline. */
  predicate ItemOneLine(b: BodyItem) {
    '\n' !in ItemLine(b)
  }

  /** The lines of the rendered items, one per item. */
  function ItemLines(items: seq<BodyItem>): (lines: seq<string>)
    ensures |lines| == |items|
  {
    if items == [] then [] else ItemLines(items[..|items| - 1]) + [ItemLine(items[|items| - 1])]
  }

  lemma {:induction false} SplitBodyLines(title: string, items: seq<BodyItem>)
    requires '\n' !in title
    requires forall i | 0 <= i < |items| :: ItemOneLine(items[i])
    ensures Split(title + BodyLines(items), '\n') == [title] + ItemLines(items)
  {
    if items == [] {
      assert title + BodyLines(items) == title;
      SplitWithout(title, '\n');
    } else {
      var init := items[..|items| - 1];
      assert forall i | 0 <= i < |init| :: ItemOneLine(init[i]) by {
        forall i | 0 <= i < |init| ensures ItemOneLine(init[i]) {
          assert init[i] == items[i];
        }
      }
      SplitBodyLines(title, init);
      SplitOneMoreItem(title, items);
    }
  }

  /** One more item adds its line as one more piece. */
  lemma SplitOneMoreItem(title: string, items: seq<BodyItem>)
    requires items != [] && ItemOneLine(items[|items| - 1])
    requires Split(title + BodyLines(items[..|items| - 1]), '\n') == [title] + ItemLines(items[..|items| - 1])
    ensures Split(title + BodyLines(items), '\n') == [title] + ItemLines(items)
  {
    TextOfOneMoreItem(title, items);
    LinesOfOneMoreItem(title, items);
    SplitLastLine(title + BodyLines(items), title + BodyLines(items[..|items| - 1]), ItemLine(items[|items| - 1]),
                  [title] + ItemLines(items), [title] + ItemLines(items[..|items| - 1]));
  }

  lemma TextOfOneMoreItem(title: string, items: seq<BodyItem>)
    requires items != []
    ensures title + BodyLines(items) == (title + BodyLines(items[..|items| - 1])) + ("\n" + ItemLine(items[|items| - 1]))
  {
    Associate(title, BodyLines(items[..|items| - 1]), "\n" + ItemLine(items[|items| - 1]));
  }

  lemma LinesOfOneMoreItem(title: string, items: seq<BodyItem>)
    requires items != []
    ensures [title] + ItemLines(items) == [title] + ItemLines(items[..|items| - 1]) + [ItemLine(items[|items| - 1])]
  {
    assert ItemLines(items) == ItemLines(items[..|items| - 1]) + [ItemLine(items[|items| - 1])];
  }

  /** A text followed by "\n" and a line without one splits into the text's pieces and that line. */
  lemma SplitLastLine(whole: string, text: string, line: string, pieces: seq<string>, textPieces: seq<string>)
    requires whole == text + ("\n" + line) && pieces == textPieces + [line]
    requires '\n' !in line && Split(text, '\n') == textPieces
    ensures Split(whole, '\n') == pieces
  {
    assert whole == text + ['\n'] + line;
    SplitAround(text, '\n', line);
    SplitWithout(line, '\n');
  }

  /**
   * When no field holds a newline, the text has exactly one line for the
   * title and one per body item, in order; an empty or missing body leaves
   * the title alone.
   */
  lemma CommitTextLines(m: CommitMessage)
    requires '\n' !in TitleText(m)
    requires forall i | 0 <= i < |Items(m)| :: ItemOneLine(Items(m)[i])
    ensures Split(CommitText(m), '\n') == [TitleText(m)] + ItemLines(Items(m))
    ensures |Split(CommitText(m), '\n')| == 1 + |Items(m)|
    ensures Items(m) == [] ==> CommitText(m) == TitleText(m)
  {
    SplitBodyLines(TitleText(m), Items(m));
  }

  lemma EndsWithPrepended(a: string, s: string, t: string)
    requires EndsWith(s, t)
    ensures EndsWith(a + s, t)
  {
    assert (a + s)[|a + s| - |t|..] == s[|s| - |t|..];
  }

  lemma EndsWithAppended(a: string, b: string)
    ensures EndsWith(a + b, b)
  {
    assert (a + b)[|a + b| - |b|..] == b;
  }

  /** The text ends with the last description rendered, so it never ends in "\n" unless that description does. */
  lemma CommitTextEnd(m: CommitMessage)
    ensures Items(m) == [] ==> EndsWith(CommitText(m), ": " + Show(m.description))
    ensures Items(m) != [] ==> EndsWith(CommitText(m), ": " + Show(Items(m)[|Items(m)| - 1].description))
  {
    var items := Items(m);
    if items == [] {
      EndsWithAppended(Head(m.emoji, m.kind, m.scope), ": " + Show(m.description));
    } else {
      var last := items[|items| - 1];
      var tail := ": " + Show(last.description);
      EndsWithAppended("* " + Show(last.emoji) + " " + Show(last.kind) + ScopePart(last.scope), tail);
      EndsWithPrepended("\n", ItemLine(last), tail);
      EndsWithPrepended(BodyLines(items[..|items| - 1]), "\n" + ItemLine(last), tail);
      EndsWithPrepended(TitleText(m), BodyLines(items), tail);
    }
  }
}
