/** Getting the JSON out of a model's answer: the whole of it, a fenced block, or the first balanced value. */
module StructuredOutput {
  import opened Sequences
  import opened JsonScan
  import opened JsonText
  import Text

  const FENCE: string := "```"

  /** Where the first line ends, or the length. */
  function FirstNewline(s: string): (i: nat)
    ensures i <= |s| && (i < |s| ==> s[i] == '\n')
    ensures forall j :: 0 <= j < i ==> s[j] != '\n'
  {
    if s == "" then 0 else if s[0] == '\n' then 0 else 1 + FirstNewline(s[1..])
  }

  predicate FenceAt(s: string, i: nat) {
    i + 3 <= |s| && s[i..i + 3] == FENCE
  }

  /** The last place of a fence at or before `i`. */
  function LastFence(s: string, i: nat): (r: Option<nat>)
    ensures r.Some? ==> r.value <= i && FenceAt(s, r.value) && forall j :: r.value < j <= i ==> !FenceAt(s, j)
    ensures r.None? ==> forall j :: 0 <= j <= i ==> !FenceAt(s, j)
  {
    if FenceAt(s, i) then Some(i) else if i == 0 then None else LastFence(s, i - 1)
  }

  function ExtractFencedJSON(input: string): Option<string> {
    if !(FENCE <= input) then None
    else
      var firstNewline, lastFence := FirstNewline(input), LastFence(input, |input|);
      if firstNewline == |input| || lastFence.None? || lastFence.value <= firstNewline then None
      else
        var content := Text.TrimSpace(input[firstNewline..lastFence.value]);
        if content == "" then None else Some(content)
  }

  function AcceptedFence(valid: string -> bool, trimmed: string): Option<string> {
    var fenced := ExtractFencedJSON(trimmed);
    if fenced.Some? && valid(fenced.value) then fenced else None
  }

  /** The result for an answer; `valid` is the JSON parser's verdict on a text. */
  ghost predicate IsExtraction(valid: string -> bool, input: string, r: Option<string>) {
    var trimmed := Text.TrimSpace(input);
    if trimmed == "" then r == None
    else if valid(trimmed) then r == Some(trimmed)
    else if AcceptedFence(valid, trimmed).Some? then r == AcceptedFence(valid, trimmed)
    else exists b :: IsBalanced(trimmed, b) && r == (if b.Some? && valid(b.value) then b else None)
  }

  method ExtractStructuredJSON(valid: string -> bool, input: string) returns (r: Option<string>)
    ensures IsExtraction(valid, input, r)
    ensures r.Some? ==> valid(r.value)
  {
    var trimmed := Text.TrimSpace(input);
    if trimmed == "" {
      return None;
    }
    if valid(trimmed) {
      return Some(trimmed);
    }
    var fenced := ExtractFencedJSON(trimmed);
    if fenced.Some? && valid(fenced.value) {
      return fenced;
    }
    var balanced := ExtractBalancedJSON(trimmed);
    if balanced.Some? && valid(balanced.value) {
      return balanced;
    }
    return None;
  }

  // ---------------------------------------------------------------- what is found

  lemma Ends(v: Value)
    requires v.Obj? || v.Arr?
    ensures var p := Print(v); p != "" && IsOpening(p[0]) && !Text.IsSpace(p[0]) && !Text.IsSpace(p[|p| - 1])
  {
  }

  lemma TrimmedPrefix(before: string)
    requires FirstBracket(before) == |before|
    ensures FirstBracket(Text.TrimLeft(before)) == |Text.TrimLeft(before)|
  {
    var t := Text.TrimLeft(before);
    assert forall j :: 0 <= j < |t| ==> t[j] == before[|before| - |t| + j] && !IsOpening(t[j]);
  }

  /**
   * An object or array among other words is found as it stands, unless the whole answer or a fenced
   * block of it is valid JSON by itself.
   */
  lemma EmbeddedJsonIsFound(valid: string -> bool, before: string, v: Value, after: string, r: Option<string>)
    requires FirstBracket(before) == |before| && (v.Obj? || v.Arr?) && ValidValue(v) && valid(Print(v))
    requires IsExtraction(valid, before + Print(v) + after, r)
    ensures var trimmed := Text.TrimSpace(before + Print(v) + after);
            r == if valid(trimmed) then Some(trimmed)
                 else if AcceptedFence(valid, trimmed).Some? then AcceptedFence(valid, trimmed)
                 else Some(Print(v))
  {
    var trimmed := Text.TrimSpace(before + Print(v) + after);
    Ends(v);
    Text.TrimAround(before, Print(v), after);
    assert trimmed == Text.TrimLeft(before) + Print(v) + Text.TrimRight(after);
    if !valid(trimmed) && AcceptedFence(valid, trimmed).None? {
      var b :| IsBalanced(trimmed, b) && r == (if b.Some? && valid(b.value) then b else None);
      TrimmedPrefix(before);
      PrintedIsFound(Text.TrimLeft(before), v, Text.TrimRight(after), b);
    }
  }

  lemma {:induction false} BlanksTrimAway(s: string)
    requires Text.AllSpace(s)
    ensures Text.TrimLeft(s) == "" && Text.TrimRight(s) == ""
  {
    if s != "" {
      BlanksTrimAway(s[1..]);
      BlanksTrimAway(s[..|s| - 1]);
    }
  }

  /** A fenced answer: the opening fence and its line, blanks around the content, the closing fence. */
  function Fenced(tag: string, left: string, content: string, right: string): string {
    FENCE + tag + "\n" + left + content + right + FENCE
  }

  lemma NewlineAfterTag(tag: string, rest: string)
    requires '\n' !in tag
    ensures FirstNewline(FENCE + tag + "\n" + rest) == 3 + |tag|
  {
    var s := FENCE + tag + "\n" + rest;
    assert s[3 + |tag|] == '\n';
    forall j | 0 <= j < 3 + |tag| ensures s[j] != '\n' {
      if j >= 3 { assert s[j] == tag[j - 3]; }
    }
  }

  /** The closing fence is the last one when no backquote follows it. */
  lemma ClosingFenceIsLast(head: string, tail: string)
    requires '`' !in tail
    ensures LastFence(head + FENCE + tail, |head + FENCE + tail|) == Some(|head|)
  {
    var s := head + FENCE + tail;
    assert s[|head|..|head| + 3] == FENCE;
    forall j: nat | |head| < j ensures !FenceAt(s, j) {
      if j + 3 <= |s| {
        assert s[j..j + 3][2] == s[j + 2] == tail[j + 2 - |head| - 3];
        assert tail[j + 2 - |head| - 3] in tail;
      }
    }
    assert FenceAt(s, |head|);
  }

  lemma ContentTrims(left: string, content: string, right: string)
    requires Text.AllSpace(left) && Text.AllSpace(right)
    requires content != "" && !Text.IsSpace(content[0]) && !Text.IsSpace(content[|content| - 1])
    ensures Text.TrimSpace(left + content + right) == content
  {
    BlanksTrimAway(left);
    BlanksTrimAway(right);
    Text.TrimAround(left, content, right);
    assert "" + content + "" == content;
  }

  lemma FencedParts(tag: string, left: string, content: string, right: string, rest: string)
    ensures var s, head := Fenced(tag, left, content, right) + rest, FENCE + tag + "\n" + left + content + right;
            && s == head + FENCE + rest
            && s == FENCE + tag + "\n" + (left + content + right + FENCE + rest)
            && FENCE <= s
            && s[3 + |tag|..|head|] == ("\n" + left) + content + right
  {
    var s, head := Fenced(tag, left, content, right) + rest, FENCE + tag + "\n" + left + content + right;
    assert head == FENCE + tag + ("\n" + left + content + right);
    assert s[..|head|] == head;
    assert head[3 + |tag|..] == "\n" + left + content + right;
  }

  /** The fenced content, whatever its language tag and whatever backquotes are inside it. */
  lemma FencedContent(tag: string, left: string, content: string, right: string, rest: string)
    requires '\n' !in tag && '`' !in rest && Text.AllSpace(left) && Text.AllSpace(right)
    requires content != "" && !Text.IsSpace(content[0]) && !Text.IsSpace(content[|content| - 1])
    ensures ExtractFencedJSON(Fenced(tag, left, content, right) + rest) == Some(content)
  {
    FencedParts(tag, left, content, right, rest);
    NewlineAfterTag(tag, left + content + right + FENCE + rest);
    ClosingFenceIsLast(FENCE + tag + "\n" + left + content + right, rest);
    assert Text.TrimSpace(("\n" + left) + content + right) == content by {
      assert Text.AllSpace("\n" + left);
      ContentTrims("\n" + left, content, right);
    }
  }

  /** A fenced object or array is what comes out, unless the whole answer is valid JSON. */
  lemma FencedJsonIsFound(valid: string -> bool, tag: string, left: string, v: Value, right: string, tail: string, r: Option<string>)
    requires '\n' !in tag && '`' !in tail && Text.AllSpace(left) && Text.AllSpace(right)
    requires (v.Obj? || v.Arr?) && valid(Print(v))
    requires !valid(Text.TrimSpace(Fenced(tag, left, Print(v), right) + tail))
    requires IsExtraction(valid, Fenced(tag, left, Print(v), right) + tail, r)
    ensures r == Some(Print(v))
  {
    var content := Print(v);
    Ends(v);
    FencedTrims(tag, left, content, right, tail);
    FencedContent(tag, left, content, right, Text.TrimRight(tail));
    FenceDecides(valid, Fenced(tag, left, content, right) + tail, content, r);
  }

  lemma FencedTrims(tag: string, left: string, content: string, right: string, tail: string)
    requires '`' !in tail
    ensures Text.TrimSpace(Fenced(tag, left, content, right) + tail) == Fenced(tag, left, content, right) + Text.TrimRight(tail)
    ensures '`' !in Text.TrimRight(tail)
  {
    TrimAfter(Fenced(tag, left, content, right), tail);
  }

  lemma FenceDecides(valid: string -> bool, input: string, content: string, r: Option<string>)
    requires IsExtraction(valid, input, r) && !valid(Text.TrimSpace(input))
    requires ExtractFencedJSON(Text.TrimSpace(input)) == Some(content) && valid(content)
    ensures r == Some(content)
  {
  }

  lemma TrimAfter(core: string, tail: string)
    requires core != "" && !Text.IsSpace(core[0]) && !Text.IsSpace(core[|core| - 1])
    ensures Text.TrimSpace(core + tail) == core + Text.TrimRight(tail)
  {
    Text.TrimLeftOf("", core + tail);
    assert "" + (core + tail) == core + tail;
    Text.TrimRightOf(core, tail);
  }
}
