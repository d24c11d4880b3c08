/**
 * The direct Anthropic client of src/anthropicService.ts: its API-key gate,
 * the classification of the model's reply, and the regular-expression parser
 * that turns a free-text reply back into a commit message.
 *
 * Both regular expressions have the shape
 *   ^<prefix>([\p{Emoji}]) ([a-z]+)(?:\(([^)]+)\))?: (.+)$
 * with the `u` flag and no `m` or `s` flag: `^` and `$` anchor the whole
 * string, `.` matches no line terminator, while `[^)]` matches any character
 * but `)`, a newline included. Whether a code point has the Unicode `Emoji`
 * property is the parameter `isEmoji`.
 */
module Anthropic {
  import opened Common
  import opened JsValues
  import opened JsStrings
  import opened CommitSchema
  import opened Settings
  import FormatUtil

  predicate IsLower(c: char) {
    'a' <= c <= 'z'
  }

  /** The length of the longest prefix of `s` in `[a-z]`. */
  function LowerRun(s: string): (n: nat)
    ensures n <= |s|
    ensures forall i | 0 <= i < n :: IsLower(s[i])
    ensures n < |s| ==> !IsLower(s[n])
  {
    if s != [] && IsLower(s[0]) then 1 + LowerRun(s[1..]) else 0
  }

  /** The length of the longest prefix of `s` in `[^)]`. */
  function NonParenRun(s: string): (n: nat)
    ensures n <= |s|
    ensures forall i | 0 <= i < n :: s[i] != ')'
    ensures n < |s| ==> s[n] == ')'
  {
    if s != [] && s[0] != ')' then 1 + NonParenRun(s[1..]) else 0
  }

  /** The four capture groups of a successful match; `scope` is `None` when the optional group did not take part. */
  datatype TitleMatch = TitleMatch(emoji: char, kind: string, scope: Option<string>, description: string)

  /** `: (.+)$` on what follows the type and scope. */
  function MatchTail(e: char, kind: string, scope: Option<string>, tail: string): Option<TitleMatch> {
    if |tail| > 2 && tail[..2] == ": " && NoLineTerminator(tail[2..]) then Some(TitleMatch(e, kind, scope, tail[2..]))
    else None
  }

  /** `(?:\(([^)]+)\))?: (.+)$` on what follows the type. */
  function MatchAfterKind(e: char, kind: string, after: string): Option<TitleMatch> {
    if after != [] && after[0] == '(' then
      var k := NonParenRun(after[1..]);
      if k == 0 || k == |after| - 1 then None
      else MatchTail(e, kind, Some(after[1..k + 1]), after[k + 2..])
    else MatchTail(e, kind, None, after)
  }

  /**
   * The title regular expression applied to `t`. `[a-z]+` and `[^)]+` can
   * only match their longest run (the next character must be `(`, `:` or
   * `)`), so the match is found without backtracking.
   */
  function MatchTitle(isEmoji: char -> bool, t: string): Option<TitleMatch> {
    if |t| < 2 || !isEmoji(t[0]) || t[1] != ' ' then None
    else
      var rest := t[2..];
      var n := LowerRun(rest);
      if n == 0 then None else MatchAfterKind(t[0], rest[..n], rest[n..])
  }

  /** The body-line regular expression: the same pattern after a leading "* ". */
  function MatchItem(isEmoji: char -> bool, line: string): Option<TitleMatch> {
    if |line| >= 2 && line[..2] == "* " then MatchTitle(isEmoji, line[2..]) else None
  }

  /** `(scope)` when the optional group took part. */
  function ScopeText(scope: Option<string>): string {
    if scope.Some? then "(" + scope.value + ")" else ""
  }

  /** The text a match was read from. */
  function Compose(tm: TitleMatch): string {
    [tm.emoji] + (" " + (tm.kind + (ScopeText(tm.scope) + (": " + tm.description))))
  }

  /** What each capture group admits. */
  predicate WellFormed(isEmoji: char -> bool, tm: TitleMatch) {
    && isEmoji(tm.emoji)
    && tm.kind != [] && (forall i | 0 <= i < |tm.kind| :: IsLower(tm.kind[i]))
    && (tm.scope.Some? ==> tm.scope.value != [] && ')' !in tm.scope.value)
    && tm.description != [] && NoLineTerminator(tm.description)
  }

  lemma Glue(s: string, n: nat)
    requires n <= |s|
    ensures s == s[..n] + s[n..]
  {
  }

  lemma DropFront(a: string, b: string)
    ensures (a + b)[|a|..] == b
  {
  }

  /** A successful `: (.+)$` is the text ": " followed by a well-formed description. */
  lemma MatchTailSound(e: char, kind: string, scope: Option<string>, tail: string)
    requires MatchTail(e, kind, scope, tail).Some?
    ensures var tm := MatchTail(e, kind, scope, tail).value;
      tm == TitleMatch(e, kind, scope, tail[2..]) && tail == ": " + tm.description &&
      tm.description != [] && NoLineTerminator(tm.description)
  {
    Glue(tail, 2);
  }

  lemma MatchAfterKindSound(e: char, kind: string, after: string)
    requires MatchAfterKind(e, kind, after).Some?
    ensures var tm := MatchAfterKind(e, kind, after).value;
      tm.emoji == e && tm.kind == kind &&
      (tm.scope.Some? ==> tm.scope.value != [] && ')' !in tm.scope.value) &&
      tm.description != [] && NoLineTerminator(tm.description) &&
      ScopeText(tm.scope) + (": " + tm.description) == after
  {
    if after != [] && after[0] == '(' {
      var k := NonParenRun(after[1..]);
      var tail := after[k + 2..];
      MatchTailSound(e, kind, Some(after[1..k + 1]), tail);
      assert after == "(" + after[1..k + 1] + ")" + tail;
    } else {
      MatchTailSound(e, kind, None, after);
    }
  }

  lemma MatchAfterKindComplete(e: char, kind: string, scope: Option<string>, description: string)
    requires scope.Some? ==> scope.value != [] && ')' !in scope.value
    requires description != [] && NoLineTerminator(description)
    ensures MatchAfterKind(e, kind, ScopeText(scope) + (": " + description)) == Some(TitleMatch(e, kind, scope, description))
  {
    var tail := ": " + description;
    assert tail[..2] == ": " && tail[2..] == description;
    if scope.Some? {
      ScopedAfterKind(e, kind, scope.value, description);
    } else {
      assert ScopeText(scope) + tail == tail;
    }
  }

  lemma ScopedAfterKind(e: char, kind: string, s: string, description: string)
    requires s != [] && ')' !in s
    requires description != [] && NoLineTerminator(description)
    ensures MatchAfterKind(e, kind, "(" + s + ")" + (": " + description)) == Some(TitleMatch(e, kind, Some(s), description))
  {
    var tail := ": " + description;
    var after := "(" + s + ")" + tail;
    assert tail[..2] == ": " && tail[2..] == description;
    assert after[1..] == s + (")" + ": " + description);
    NonParenRunOf(s, ")" + ": " + description);
    assert after[1..|s| + 1] == s;
    assert after[|s| + 2..] == tail;
  }

  /** Every match is of a well-formed title, and the title is exactly the text matched. */
  lemma MatchTitleSound(isEmoji: char -> bool, t: string)
    requires MatchTitle(isEmoji, t).Some?
    ensures WellFormed(isEmoji, MatchTitle(isEmoji, t).value)
    ensures Compose(MatchTitle(isEmoji, t).value) == t
  {
    var rest := t[2..];
    var n := LowerRun(rest);
    var tm := MatchTitle(isEmoji, t).value;
    assert tm == MatchAfterKind(t[0], rest[..n], rest[n..]).value;
    MatchAfterKindSound(t[0], rest[..n], rest[n..]);
    ComposeOfParts(tm, rest, n);
    TitleOfParts(t);
  }

  lemma ComposeOfParts(tm: TitleMatch, rest: string, n: nat)
    requires n <= |rest| && tm.kind == rest[..n]
    requires ScopeText(tm.scope) + (": " + tm.description) == rest[n..]
    ensures Compose(tm) == [tm.emoji] + (" " + rest)
  {
    Glue(rest, n);
  }

  lemma TitleOfParts(t: string)
    requires |t| >= 2 && t[1] == ' '
    ensures t == [t[0]] + (" " + t[2..])
  {
    Glue(t, 2);
    assert t[..2] == [t[0]] + " ";
  }

  /** Every well-formed title is matched, with exactly its own groups. */
  lemma MatchTitleComplete(isEmoji: char -> bool, tm: TitleMatch)
    requires WellFormed(isEmoji, tm)
    ensures MatchTitle(isEmoji, Compose(tm)) == Some(tm)
  {
    var t := Compose(tm);
    var afterKind := ScopeText(tm.scope) + (": " + tm.description);
    DropFront([tm.emoji] + " ", tm.kind + afterKind);
    assert t[2..] == tm.kind + afterKind;
    LowerRunOf(tm.kind, afterKind);
    DropFront(tm.kind, afterKind);
    assert t[2..][..|tm.kind|] == tm.kind;
    MatchAfterKindComplete(tm.emoji, tm.kind, tm.scope, tm.description);
  }

  lemma LowerRunOf(kind: string, rest: string)
    requires forall i | 0 <= i < |kind| :: IsLower(kind[i])
    requires rest == [] || !IsLower(rest[0])
    ensures LowerRun(kind + rest) == |kind|
  {
    if kind != [] {
      assert (kind + rest)[1..] == kind[1..] + rest;
      LowerRunOf(kind[1..], rest);
    } else {
      assert kind + rest == rest;
    }
  }

  lemma NonParenRunOf(s: string, rest: string)
    requires ')' !in s
    requires rest != [] && rest[0] == ')'
    ensures NonParenRun(s + rest) == |s|
  {
    if s != [] {
      assert (s + rest)[1..] == s[1..] + rest;
      NonParenRunOf(s[1..], rest);
    } else {
      assert s + rest == rest;
    }
  }

  /** The reply used when the title does not match: a "docs" message holding the whole trimmed text. */
  function Fallback(text: string): CommitMessage {
    CommitMessage(Val("\U{1F4DD}"), Val("docs"), Undefined, Val(Trim(text)), Undefined)
  }

  /** `scope || undefined` on a capture group. */
  function ScopeSlot(scope: Option<string>): Js<string> {
    if scope.Some? && scope.value != "" then Val(scope.value) else Undefined
  }

  /** The body item a matched line yields. */
  function ItemOf(tm: TitleMatch): BodyItem {
    BodyItem(Val([tm.emoji]), Val(tm.kind), ScopeSlot(tm.scope), Val(Trim(tm.description)))
  }

  /** The filter's test: the trimmed line starts with "*". */
  predicate IsStarLine(line: string) {
    StartsWith(Trim(line), "*")
  }

  /** `.filter((line) => line.trim().startsWith('*'))`. */
  function Starred(lines: seq<string>): (r: seq<string>)
    ensures |r| <= |lines|
  {
    if lines == [] then []
    else
      var last := lines[|lines| - 1];
      Starred(lines[..|lines| - 1]) + (if IsStarLine(last) then [last] else [])
  }

  /** Filtering one more line appends it exactly when it passes the test. */
  lemma StarredSnoc(init: seq<string>, x: string)
    ensures Starred(init + [x]) == Starred(init) + (if IsStarLine(x) then [x] else [])
  {
    assert (init + [x])[..|init|] == init;
  }

  /** Every line the filter keeps is an input line whose trimmed text starts with "*". */
  lemma {:induction false} StarredKeepsOnlyStarLines(lines: seq<string>)
    ensures forall k | 0 <= k < |Starred(lines)| :: Starred(lines)[k] in lines && IsStarLine(Starred(lines)[k])
  {
    if lines != [] {
      var n := |lines| - 1;
      var init, last := lines[..n], lines[n];
      assert lines == init + [last];
      StarredKeepsOnlyStarLines(init);
      StarredSnoc(init, last);
      var kept := Starred(init);
      var r := Starred(lines);
      forall k | 0 <= k < |r|
        ensures r[k] in lines && IsStarLine(r[k])
      {
        if k < |kept| {
          assert r[k] == kept[k] && kept[k] in init;
        } else {
          assert r[k] == last;
        }
      }
    }
  }

  /** Every input line whose trimmed text starts with "*" is kept. */
  lemma {:induction false} StarredKeepsEveryStarLine(lines: seq<string>)
    ensures forall k | 0 <= k < |lines| && IsStarLine(lines[k]) :: lines[k] in Starred(lines)
  {
    if lines != [] {
      var n := |lines| - 1;
      var init, last := lines[..n], lines[n];
      assert lines == init + [last];
      StarredKeepsEveryStarLine(init);
      StarredSnoc(init, last);
      var r := Starred(lines);
      forall k | 0 <= k < |lines| && IsStarLine(lines[k])
        ensures lines[k] in r
      {
        if k < n {
          assert lines[k] == init[k] && init[k] in Starred(init);
        } else {
          assert r[|r| - 1] == last;
        }
      }
    }
  }

  /** The filter keeps the input order: filtering a concatenation filters each part. */
  lemma {:induction false} StarredConcat(a: seq<string>, b: seq<string>)
    ensures Starred(a + b) == Starred(a) + Starred(b)
  {
    if b == [] {
      assert a + b == a;
    } else {
      var n := |b| - 1;
      var init, last := b[..n], b[n];
      assert b == init + [last];
      assert a + b == (a + init) + [last];
      StarredConcat(a, init);
      StarredSnoc(a + init, last);
      StarredSnoc(init, last);
    }
  }

  /** The items the body loop pushes: one per line that matches the body-line expression, in order. */
  function ItemsOf(isEmoji: char -> bool, lines: seq<string>): (r: seq<BodyItem>)
    ensures |r| <= |lines|
  {
    if lines == [] then []
    else
      var last := lines[|lines| - 1];
      ItemsOf(isEmoji, lines[..|lines| - 1]) + (match MatchItem(isEmoji, last) case Some(tm) => [ItemOf(tm)] case None => [])
  }

  lemma ItemsOfExtend(isEmoji: char -> bool, lines: seq<string>, i: nat)
    requires i < |lines|
    ensures ItemsOf(isEmoji, lines[..i + 1]) ==
      ItemsOf(isEmoji, lines[..i]) + (match MatchItem(isEmoji, lines[i]) case Some(tm) => [ItemOf(tm)] case None => [])
  {
    assert lines[..i + 1][..i] == lines[..i];
  }

  /** The candidate body lines: none without a "\n", else the starred lines of the trimmed text after the first one. */
  function BodyCandidates(text: string): seq<string> {
    CandidatesAfter(text, IndexOf(text, '\n'))
  }

  /** The candidate body lines when the first "\n" is at `bodyStart` (-1 for none). */
  function CandidatesAfter(text: string, bodyStart: int): seq<string>
    requires -1 <= bodyStart < |text|
  {
    if bodyStart == -1 then [] else Starred(Split(Trim(text[bodyStart + 1..]), '\n'))
  }

  /** What `parseCommitMessage` returns for `text`. */
  function Parsed(isEmoji: char -> bool, text: string): CommitMessage {
    match MatchTitle(isEmoji, text)
    case None => Fallback(text)
    case Some(tm) =>
      var items := ItemsOf(isEmoji, BodyCandidates(text));
      CommitMessage(Val([tm.emoji]), Val(tm.kind), ScopeSlot(tm.scope), Val(Trim(tm.description)),
        if |items| > 0 then Val(items) else Undefined)
  }

  /** `parseCommitMessage` (src/anthropicService.ts). */
  method ParseCommitMessage(isEmoji: char -> bool, messageText: string) returns (m: CommitMessage)
    ensures m == Parsed(isEmoji, messageText)
  {
    var titleMatch := MatchTitle(isEmoji, messageText);
    if titleMatch.None? {
      return Fallback(messageText);
    }
    var tm := titleMatch.value;
    var bodyItems: seq<BodyItem> := [];
    var bodyStart := IndexOf(messageText, '\n');
    if bodyStart != -1 {
      var bodyText := Trim(messageText[bodyStart + 1..]);
      var bodyLines := Starred(Split(bodyText, '\n'));
      bodyItems := CollectBodyItems(isEmoji, bodyLines);
    }
    assert bodyItems == ItemsOf(isEmoji, BodyCandidates(messageText));
    m := CommitMessage(Val([tm.emoji]), Val(tm.kind), ScopeSlot(tm.scope), Val(Trim(tm.description)),
      if |bodyItems| > 0 then Val(bodyItems) else Undefined);
  }

  /** The `for (const line of bodyLines)` loop: one item per line the body-line expression matches, in order. */
  method CollectBodyItems(isEmoji: char -> bool, bodyLines: seq<string>) returns (bodyItems: seq<BodyItem>)
    ensures bodyItems == ItemsOf(isEmoji, bodyLines)
  {
    bodyItems := [];
    var i := 0;
    while i < |bodyLines|
      invariant 0 <= i <= |bodyLines|
      invariant bodyItems == ItemsOf(isEmoji, bodyLines[..i])
    {
      var line := bodyLines[i];
      var bodyItemMatch := MatchItem(isEmoji, line);
      ItemsOfExtend(isEmoji, bodyLines, i);
      if bodyItemMatch.Some? {
        var im := bodyItemMatch.value;
        bodyItems := bodyItems + [BodyItem(Val([im.emoji]), Val(im.kind), ScopeSlot(im.scope), Val(Trim(im.description)))];
      }
      i := i + 1;
    }
    assert bodyLines[..i] == bodyLines;
  }

  lemma Regroup(e: char, kind: string, scopeText: string, tail: string)
    ensures [e] + (" " + (kind + (scopeText + tail))) == [e] + " " + kind + scopeText + tail
  {
  }

  /** The title formatter writes exactly the text a match of the same groups is read from. */
  lemma TitleTextIsComposed(m: CommitMessage, tm: TitleMatch)
    requires m.emoji == Val([tm.emoji]) && m.kind == Val(tm.kind) && m.description == Val(tm.description)
    requires tm.scope.None? ==> m.scope.Undefined?
    requires tm.scope.Some? ==> m.scope == Val(tm.scope.value) && tm.scope.value != ""
    ensures FormatUtil.TitleText(m) == Compose(tm)
  {
    assert ScopePart(m.scope) == ScopeText(tm.scope);
    Regroup(tm.emoji, tm.kind, ScopeText(tm.scope), ": " + tm.description);
  }

  /** A well-formed title has a newline only inside its scope. */
  lemma NewlineOnlyInScope(tm: TitleMatch)
    requires tm.emoji != '\n'
    requires forall i | 0 <= i < |tm.kind| :: IsLower(tm.kind[i])
    requires tm.scope.Some? ==> '\n' !in tm.scope.value
    requires NoLineTerminator(tm.description)
    ensures '\n' !in Compose(tm)
  {
  }

  /**
   * Round trip: a message with no body, a one-code-point emoji, a lower-case
   * type, an absent or `)`-free scope and a trimmed one-line description is
   * read back from its formatted text unchanged.
   */
  lemma ParseFormatRoundTrip(isEmoji: char -> bool, m: CommitMessage)
    requires m.emoji.Val? && |m.emoji.v| == 1 && isEmoji(m.emoji.v[0]) && m.emoji.v[0] != '\n'
    requires m.kind.Val? && m.kind.v != [] && forall i | 0 <= i < |m.kind.v| :: IsLower(m.kind.v[i])
    requires m.scope.Undefined? || (m.scope.Val? && m.scope.v != [] && ')' !in m.scope.v && '\n' !in m.scope.v)
    requires m.description.Val? && m.description.v != [] && NoLineTerminator(m.description.v)
    requires Trim(m.description.v) == m.description.v
    requires m.body.Undefined?
    ensures Parsed(isEmoji, FormatUtil.CommitText(m)) == m
  {
    var scope := if m.scope.Val? then Some(m.scope.v) else None;
    var tm := TitleMatch(m.emoji.v[0], m.kind.v, scope, m.description.v);
    assert m.emoji.v == [tm.emoji];
    TitleTextIsComposed(m, tm);
    var text := FormatUtil.CommitText(m);
    assert text == Compose(tm);
    MatchTitleComplete(isEmoji, tm);
    NewlineOnlyInScope(tm);
    assert BodyCandidates(text) == [];
  }

  /**
   * The body branch is reached only through a newline inside the
   * parenthesised scope: `[^)]+` accepts one, while `.` and every other
   * part of the title refuse it.
   */
  lemma BodyNeedsNewlineInScope(isEmoji: char -> bool, text: string)
    requires !isEmoji('\n')
    requires Parsed(isEmoji, text).body.Val?
    ensures MatchTitle(isEmoji, text).Some?
    ensures var tm := MatchTitle(isEmoji, text).value; tm.scope.Some? && '\n' in tm.scope.value
  {
    var tm := MatchTitle(isEmoji, text).value;
    MatchTitleSound(isEmoji, text);
    if tm.scope.None? || '\n' !in tm.scope.value {
      NewlineOnlyInScope(tm);
      assert false;
    }
  }

  /** The emoji test the examples below use. */
  predicate Sparkles(c: char) {
    c == '\U{2728}'
  }

  /** A title whose scope holds a newline, split at that first newline. */
  lemma SplitAtScopeNewline(tm: TitleMatch, pre: string, rest: string)
    requires tm.scope == Some(pre + "\n" + rest)
    ensures Compose(tm) == ([tm.emoji] + " " + tm.kind + "(" + pre) + ['\n'] + (rest + (")" + ": " + tm.description))
  {
  }

  lemma NewlineAfter(head: string, rest: string)
    requires '\n' !in head
    ensures IndexOf(head + ['\n'] + rest, '\n') == |head|
    ensures (head + ['\n'] + rest)[|head| + 1..] == rest
  {
    var text := head + ['\n'] + rest;
    assert text[..|head|] == head;
    IndexOfUnique(text, '\n', |head|);
  }

  /** Nothing before the scope of such a title holds a newline. */
  lemma HeadWithoutNewline(tm: TitleMatch, pre: string)
    requires tm.emoji != '\n' && forall i | 0 <= i < |tm.kind| :: IsLower(tm.kind[i])
    requires '\n' !in pre
    ensures '\n' !in [tm.emoji] + " " + tm.kind + "(" + pre
  {
  }

  /** After a head without a newline and the newline itself, the candidates come from the rest. */
  lemma CandidatesAfterHead(head: string, rest: string, same: string)
    requires '\n' !in head && rest == same
    ensures BodyCandidates(head + ['\n'] + rest) == Starred(Split(Trim(same), '\n'))
  {
    NewlineAfter(head, rest);
    CandidatesAfterFirstNewline(head + ['\n'] + rest, rest, same);
  }

  lemma SplitTwoLines(line: string, tail: string)
    requires '\n' !in line && '\n' !in tail
    ensures Split(line + ['\n'] + tail, '\n') == [line, tail]
  {
    SplitAround(line, '\n', tail);
    SplitWithout(line, '\n');
    SplitWithout(tail, '\n');
  }

  lemma StarredFirstOfTwo(line: string, tail: string)
    requires StartsWith(Trim(line), "*") && !StartsWith(Trim(tail), "*")
    ensures Starred([line, tail]) == [line]
  {
    assert [line, tail][..1] == [line];
    assert [line][..0] == [];
  }

  /** The text after that newline, trimmed and split, keeps one starred line. */
  lemma StarredAfterScope(line: string, tail: string)
    requires |line| > 2 && line[..2] == "* " && !IsWhiteSpace(line[|line| - 1]) && '\n' !in line
    requires |tail| > 2 && tail[0] == ')' && !IsWhiteSpace(tail[|tail| - 1]) && '\n' !in tail
    ensures Starred(Split(Trim(line + ['\n'] + tail), '\n')) == [line]
  {
    TwoLinesTrimmed(line, tail);
    SplitTwoLines(line, tail);
    OnlyFirstStarred(line, tail);
    StarredChain(line + ['\n'] + tail, [line, tail], [line]);
  }

  lemma TwoLinesTrimmed(line: string, tail: string)
    requires |line| > 0 && line[0] == '*' && |tail| > 0 && !IsWhiteSpace(tail[|tail| - 1])
    ensures Trim(line + ['\n'] + tail) == line + ['\n'] + tail
  {
    var text := line + ['\n'] + tail;
    assert text[0] == '*' && text[|text| - 1] == tail[|tail| - 1];
    TrimOfTrimmed(text);
  }

  lemma OnlyFirstStarred(line: string, tail: string)
    requires |line| > 2 && line[..2] == "* " && !IsWhiteSpace(line[|line| - 1])
    requires |tail| > 2 && tail[0] == ')' && !IsWhiteSpace(tail[|tail| - 1])
    ensures Starred([line, tail]) == [line]
  {
    LineStarred(line);
    TailNotStarred(tail);
    StarredFirstOfTwo(line, tail);
  }

  lemma LineStarred(line: string)
    requires |line| > 2 && line[..2] == "* " && !IsWhiteSpace(line[|line| - 1])
    ensures StartsWith(Trim(line), "*")
  {
    assert line[..1] == "*";
    TrimOfTrimmed(line);
  }

  lemma TailNotStarred(tail: string)
    requires |tail| > 2 && tail[0] == ')' && !IsWhiteSpace(tail[|tail| - 1])
    ensures !StartsWith(Trim(tail), "*")
  {
    assert !IsWhiteSpace(tail[0]);
    TrimOfTrimmed(tail);
  }

  lemma StarredChain(text: string, pieces: seq<string>, starred: seq<string>)
    requires Trim(text) == text && Split(text, '\n') == pieces && Starred(pieces) == starred
    ensures Starred(Split(Trim(text), '\n')) == starred
  {
  }

  /** A starred line written from a well-formed match yields that match's item. */
  lemma ItemLineMatches(isEmoji: char -> bool, item: TitleMatch)
    requires WellFormed(isEmoji, item)
    ensures ItemsOf(isEmoji, ["* " + Compose(item)]) == [ItemOf(item)]
  {
    var line := "* " + Compose(item);
    assert line[2..] == Compose(item);
    MatchTitleComplete(isEmoji, item);
    assert [line][..0] == [];
  }

  /** The candidate lines of a title whose scope holds a newline and then one starred line. */
  lemma CandidatesOfScopeNewline(tm: TitleMatch, pre: string, line: string)
    requires tm.emoji != '\n' && forall i | 0 <= i < |tm.kind| :: IsLower(tm.kind[i])
    requires tm.description != [] && NoLineTerminator(tm.description)
    requires !IsWhiteSpace(tm.description[|tm.description| - 1])
    requires '\n' !in pre
    requires |line| > 2 && line[..2] == "* " && '\n' !in line && !IsWhiteSpace(line[|line| - 1])
    requires tm.scope == Some(pre + "\n" + (line + "\n"))
    ensures BodyCandidates(Compose(tm)) == [line]
  {
    CandidatesAfterScopeNewline(tm, pre, line);
    StarredBeforeDescription(line, tm.description);
  }

  lemma CandidatesAfterScopeNewline(tm: TitleMatch, pre: string, line: string)
    requires tm.emoji != '\n' && forall i | 0 <= i < |tm.kind| :: IsLower(tm.kind[i])
    requires '\n' !in pre
    requires tm.scope == Some(pre + "\n" + (line + "\n"))
    ensures BodyCandidates(Compose(tm)) == Starred(Split(Trim(line + ['\n'] + (")" + ": " + tm.description)), '\n'))
  {
    var head := [tm.emoji] + " " + tm.kind + "(" + pre;
    var tail := ")" + ": " + tm.description;
    SplitAtScopeNewline(tm, pre, line + "\n");
    HeadWithoutNewline(tm, pre);
    NewlineJoin(line, tail);
    CandidatesAfterHead(head, (line + "\n") + tail, line + ['\n'] + tail);
  }

  lemma NewlineJoin(line: string, tail: string)
    ensures (line + "\n") + tail == line + ['\n'] + tail
  {
  }

  lemma StarredBeforeDescription(line: string, d: string)
    requires d != [] && NoLineTerminator(d) && !IsWhiteSpace(d[|d| - 1])
    requires |line| > 2 && line[..2] == "* " && '\n' !in line && !IsWhiteSpace(line[|line| - 1])
    ensures Starred(Split(Trim(line + ['\n'] + (")" + ": " + d)), '\n')) == [line]
  {
    TailShape(d);
    StarredAfterScope(line, ")" + ": " + d);
  }

  /** The candidate lines are read from what follows the first newline. */
  lemma CandidatesAfterFirstNewline(text: string, rest: string, same: string)
    requires 0 <= IndexOf(text, '\n') < |text| && text[IndexOf(text, '\n') + 1..] == rest && rest == same
    ensures BodyCandidates(text) == Starred(Split(Trim(same), '\n'))
  {
    CandidatesAtFirstNewline(text, IndexOf(text, '\n'));
    CandidatesOfRest(text, IndexOf(text, '\n'), same);
  }

  lemma CandidatesAtFirstNewline(text: string, bodyStart: int)
    requires IndexOf(text, '\n') == bodyStart && bodyStart >= 0
    ensures BodyCandidates(text) == CandidatesAfter(text, bodyStart)
  {
  }

  lemma CandidatesOfRest(text: string, bodyStart: int, rest: string)
    requires 0 <= bodyStart < |text| && text[bodyStart + 1..] == rest
    ensures CandidatesAfter(text, bodyStart) == Starred(Split(Trim(rest), '\n'))
  {
  }

  lemma ItemLineShape(item: TitleMatch)
    requires item.emoji != '\n' && item.description != []
    requires forall i | 0 <= i < |item.kind| :: IsLower(item.kind[i])
    requires item.scope.Some? ==> '\n' !in item.scope.value
    requires NoLineTerminator(item.description)
    ensures var line := "* " + Compose(item);
      |line| > 2 && line[..2] == "* " && '\n' !in line &&
      line[|line| - 1] == item.description[|item.description| - 1]
  {
    NewlineOnlyInScope(item);
  }

  lemma TailShape(d: string)
    requires d != [] && NoLineTerminator(d)
    ensures var tail := ")" + ": " + d;
      |tail| > 2 && tail[0] == ')' && '\n' !in tail && tail[|tail| - 1] == d[|d| - 1]
  {
    NoNewline(d);
  }

  /**
   * The body branch is reachable: a scope that runs over a newline and
   * holds a starred line carries that line into the body as an item; the
   * line holding the closing parenthesis is filtered out.
   */
  lemma BodyFromScopeNewline(isEmoji: char -> bool, tm: TitleMatch, item: TitleMatch, pre: string)
    requires WellFormed(isEmoji, tm) && WellFormed(isEmoji, item)
    requires tm.emoji != '\n' && item.emoji != '\n'
    requires item.scope.Some? ==> '\n' !in item.scope.value
    requires '\n' !in pre
    requires tm.scope == Some(pre + "\n" + ("* " + Compose(item) + "\n"))
    requires !IsWhiteSpace(tm.description[|tm.description| - 1])
    requires !IsWhiteSpace(item.description[|item.description| - 1])
    ensures MatchTitle(isEmoji, Compose(tm)) == Some(tm)
    ensures Parsed(isEmoji, Compose(tm)).body == Val([ItemOf(item)])
  {
    MatchTitleComplete(isEmoji, tm);
    ItemLineShape(item);
    CandidatesOfScopeNewline(tm, pre, "* " + Compose(item));
    ItemLineMatches(isEmoji, item);
  }

  lemma NoNewline(s: string)
    requires NoLineTerminator(s)
    ensures '\n' !in s
  {
  }

  /**
   * A type with a character outside a-z, such as a hyphen, does not match
   * the title expression, and the whole text becomes a docs message.
   */
  lemma HyphenatedTypeFallsBack()
    ensures Parsed(Sparkles, "\U{2728} minor-fix: x") == Fallback("\U{2728} minor-fix: x")
  {
    assert "\U{2728} minor-fix: x" == ['\U{2728}'] + " " + "minor" + ['-'] + "fix: x";
    TypeEndsBadly(Sparkles, '\U{2728}', "minor", '-', "fix: x");
  }

  /** A type followed by anything but a lower-case letter, "(" or ":" makes the title fall back. */
  lemma TypeEndsBadly(isEmoji: char -> bool, e: char, kind: string, c: char, rest: string)
    requires forall i | 0 <= i < |kind| :: IsLower(kind[i])
    requires !IsLower(c) && c != '(' && c != ':'
    ensures Parsed(isEmoji, [e] + " " + kind + [c] + rest) == Fallback([e] + " " + kind + [c] + rest)
  {
    NoMatchAfterBadType(isEmoji, e, kind, c, rest);
  }

  lemma NoMatchAfterBadType(isEmoji: char -> bool, e: char, kind: string, c: char, rest: string)
    requires forall i | 0 <= i < |kind| :: IsLower(kind[i])
    requires !IsLower(c) && c != '(' && c != ':'
    ensures MatchTitle(isEmoji, [e] + " " + kind + [c] + rest).None?
  {
    var t := [e] + " " + kind + [c] + rest;
    var after := [c] + rest;
    assert t[2..] == kind + after;
    LowerRunOf(kind, after);
    DropFront(kind, after);
    assert after[0] != '(';
    assert MatchTail(e, kind, None, after).None?;
  }

  /**
   * An emoji written with a variation selector (two code points, as in a
   * recycling sign followed by U+FE0F) never matches: the title expression
   * allows one code point before the space.
   */
  lemma VariationSelectorFallsBack(isEmoji: char -> bool, e: char, rest: string)
    ensures Parsed(isEmoji, [e, '\U{FE0F}'] + rest) == Fallback([e, '\U{FE0F}'] + rest)
  {
  }

  // ---------------------------------------------------------------------
  // The reply classification and the service object.
  // ---------------------------------------------------------------------

  const TOOL_NAME := "commit_message_generator"
  const KEY_ERROR := "Anthropic API key not configured. Please set it in the extension settings."
  const UNEXPECTED_FORMAT := "Unexpected response format from AI. Using default formatting."
  const GENERATION_ERROR := "Error generating commit message: "
  const PARSING_ERROR := "Error parsing commit message: "
  /** The TypeError `response.content[0].type` raises when the reply has no content block. */
  const NO_CONTENT_ERROR := "Cannot read properties of undefined (reading 'type')"

  /** The tool input as the SDK hands it over: a JSON string, an object, or anything else. */
  datatype ToolInput = InputString(json: string) | InputObject(message: CommitMessage) | InputOther

  /** A content block of the Messages API reply. */
  datatype ContentBlock = ToolUse(name: string, input: ToolInput) | TextBlock(text: string) | OtherBlock

  /**
   * A value `generateCommitMessage` can return. `JSON.parse` is only cast to a
   * commit message, so besides an object and `null` any other JSON value (a
   * number, a string, a boolean, an array) passes through; it is kept as its
   * text.
   */
  datatype JsonValue = JsonObject(message: CommitMessage) | JsonNull | JsonOther(text: string)

  /** What `generateCommitMessage` returns and the notifications it shows on the way. */
  datatype Reply = Reply(value: JsonValue, notices: seq<Notice>)

  /**
   * The tool-use branch: the input string parsed, the object taken as it is,
   * anything else refused. A string that parses to `null` or to another
   * non-object value is returned as it is, with no notice.
   */
  function ToolReply(jsonParse: string -> Result<JsonValue, string>, input: ToolInput): (r: Reply)
    ensures r.notices == [] || (|r.notices| == 1 && r.notices[0].ErrorNotice? &&
      StartsWith(r.notices[0].text, PARSING_ERROR) && r.value == JsonNull)
    ensures r.notices == [] <==> input.InputObject? || (input.InputString? && jsonParse(input.json).Success?)
    ensures input.InputObject? ==> r.value == JsonObject(input.message)
    ensures input.InputString? && jsonParse(input.json).Success? ==> r.value == jsonParse(input.json).value
  {
    match input
    case InputString(json) =>
      (match jsonParse(json)
       case Success(v) => Reply(v, [])
       case Failure(e) => Reply(JsonNull, [ErrorNotice(PARSING_ERROR + e)]))
    case InputObject(m) => Reply(JsonObject(m), [])
    case InputOther => Reply(JsonNull, [ErrorNotice(PARSING_ERROR + "Invalid input format from API")])
  }

  /** Whether the first content block calls the commit tool. */
  predicate CallsTool(content: seq<ContentBlock>) {
    content != [] && content[0].ToolUse? && content[0].name == TOOL_NAME
  }

  /**
   * The classification of the reply content: the commit tool's input when
   * the first block calls it, else a warning and the text parser on a text
   * block, else nothing.
   */
  function Respond(isEmoji: char -> bool, jsonParse: string -> Result<JsonValue, string>, content: seq<ContentBlock>): (r: Reply)
    ensures |r.notices| <= 1
    ensures r.notices == [] ==> CallsTool(content)
    ensures CallsTool(content) ==> r == ToolReply(jsonParse, content[0].input)
    ensures forall n | n in r.notices :: n.ErrorNotice? ==> r.value == JsonNull
    ensures r.value.JsonObject? && r.notices != [] ==> content != [] && content[0].TextBlock?
    ensures r.value.JsonOther? ==> r.notices == []
    ensures content != [] && content[0].TextBlock? ==>
      r == Reply(JsonObject(Parsed(isEmoji, content[0].text)), [WarningNotice(UNEXPECTED_FORMAT)])
  {
    if content == [] then Reply(JsonNull, [ErrorNotice(GENERATION_ERROR + NO_CONTENT_ERROR)])
    else
      match content[0]
      case ToolUse(name, input) =>
        if name == TOOL_NAME then ToolReply(jsonParse, input)
        else Reply(JsonNull, [WarningNotice(UNEXPECTED_FORMAT)])
      case TextBlock(text) => Reply(JsonObject(Parsed(isEmoji, text)), [WarningNotice(UNEXPECTED_FORMAT)])
      case OtherBlock => Reply(JsonNull, [WarningNotice(UNEXPECTED_FORMAT)])
  }

  /** The whole request: an error thrown on the way (prompt loading, the API call) becomes one error notice and null. */
  function Answer(isEmoji: char -> bool, jsonParse: string -> Result<JsonValue, string>,
                  response: Result<seq<ContentBlock>, string>): (r: Reply)
    ensures |r.notices| <= 1
    ensures response.Failure? ==> r == Reply(JsonNull, [ErrorNotice(GENERATION_ERROR + response.error)])
    ensures response.Success? ==> r == Respond(isEmoji, jsonParse, response.value)
  {
    match response
    case Failure(e) => Reply(JsonNull, [ErrorNotice(GENERATION_ERROR + e)])
    case Success(content) => Respond(isEmoji, jsonParse, content)
  }

  /** A reply whose first block calls another tool is never read, whatever it holds. */
  lemma OtherToolIgnored(isEmoji: char -> bool, jsonParse: string -> Result<JsonValue, string>,
                         content: seq<ContentBlock>)
    requires content != [] && content[0].ToolUse? && content[0].name != TOOL_NAME
    ensures Respond(isEmoji, jsonParse, content) == Reply(JsonNull, [WarningNotice(UNEXPECTED_FORMAT)])
  {
  }

  /**
   * The service object. `apiKey` is the key the SDK client holds; `notices`
   * stands for the notifications the editor window has shown so far.
   */
  class AnthropicService {
    var apiKey: string
    var notices: seq<Notice>

    /** The key read from the settings, or "" with an error notice when it is missing or empty. */
    constructor(configured: Js<string>)
      ensures Truthy(configured) ==> apiKey == configured.v && notices == []
      ensures !Truthy(configured) ==> apiKey == "" && notices == [ErrorNotice(KEY_ERROR)]
    {
      if Truthy(configured) {
        apiKey := configured.v;
        notices := [];
      } else {
        apiKey := "";
        notices := [ErrorNotice(KEY_ERROR)];
      }
    }

    /** A configured key replaces the held one; a missing one leaves it and shows an error. */
    method Reinitialize(configured: Js<string>)
      modifies this
      ensures Truthy(configured) ==> apiKey == configured.v && notices == old(notices)
      ensures !Truthy(configured) ==> apiKey == old(apiKey) && notices == old(notices) + [ErrorNotice(KEY_ERROR)]
    {
      if !Truthy(configured) {
        notices := notices + [ErrorNotice(KEY_ERROR)];
        return;
      }
      apiKey := configured.v;
    }

    /**
     * Without a key the settings are read again, and with none there either
     * the call returns null; otherwise the reply is classified as `Answer`
     * says. `configured` is the key in the settings at the time of the call.
     */
    method GenerateCommitMessage(isEmoji: char -> bool, jsonParse: string -> Result<JsonValue, string>,
                                 configured: Js<string>, response: Result<seq<ContentBlock>, string>)
      returns (result: JsonValue)
      modifies this
      ensures old(apiKey) == "" && !Truthy(configured) ==>
        result == JsonNull && apiKey == "" && notices == old(notices) + [ErrorNotice(KEY_ERROR)]
      ensures old(apiKey) != "" ==> apiKey == old(apiKey)
      ensures old(apiKey) == "" && Truthy(configured) ==> apiKey == configured.v
      ensures old(apiKey) != "" || Truthy(configured) ==>
        var r := Answer(isEmoji, jsonParse, response);
        result == r.value && notices == old(notices) + r.notices
    {
      if apiKey == "" {
        Reinitialize(configured);
        if apiKey == "" {
          return JsonNull;
        }
      }
      var r := Answer(isEmoji, jsonParse, response);
      notices := notices + r.notices;
      result := r.value;
    }
  }
}
