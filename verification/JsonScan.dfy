/** Finding the first balanced object or array in a text, by counting one kind of bracket outside strings. */
module JsonScan {
  import opened Sequences
  import Text

  datatype Lexing = Outside | Inside | Escaped

  /** Where a character leads, in or out of a string. */
  function Next(st: Lexing, c: char): Lexing {
    match st
    case Outside => if c == '"' then Inside else Outside
    case Inside => if c == '\\' then Escaped else if c == '"' then Outside else Inside
    case Escaped => Inside
  }

  function LexFrom(st: Lexing, s: string): Lexing {
    if s == "" then st else Next(LexFrom(st, s[..|s| - 1]), s[|s| - 1])
  }

  function Closing(open: char): char {
    if open == '[' then ']' else '}'
  }

  function Weight(open: char, st: Lexing, c: char): int {
    if !st.Outside? then 0 else if c == open then 1 else if c == Closing(open) then -1 else 0
  }

  /** Opening minus closing brackets outside strings. */
  function DepthFrom(open: char, st: Lexing, s: string): int {
    if s == "" then 0
    else DepthFrom(open, st, s[..|s| - 1]) + Weight(open, LexFrom(st, s[..|s| - 1]), s[|s| - 1])
  }

  function Depth(open: char, s: string): int {
    DepthFrom(open, Outside, s)
  }

  predicate IsOpening(c: char) {
    c == '{' || c == '['
  }

  /** Where the first bracket is, or the length. */
  function FirstBracket(s: string): (i: nat)
    ensures i <= |s| && (i < |s| ==> IsOpening(s[i]))
    ensures forall j :: 0 <= j < i ==> !IsOpening(s[j])
  {
    if s == "" then 0 else if IsOpening(s[0]) then 0 else 1 + FirstBracket(s[1..])
  }

  /** The depth returns to zero at `end` for the first time since `start`. */
  ghost predicate ClosesAt(s: string, start: nat, end: nat)
    requires start < |s|
  {
    && start < end <= |s|
    && Depth(s[start], s[start..end]) == 0
    && forall k :: start < k < end ==> Depth(s[start], s[start..k]) != 0
  }

  /** There is at most one such end. */
  lemma ClosesOnce(s: string, start: nat, a: nat, b: nat)
    requires start < |s| && ClosesAt(s, start, a) && ClosesAt(s, start, b)
    ensures a == b
  {
  }

  ghost predicate IsBalanced(input: string, r: Option<string>) {
    var start := FirstBracket(input);
    if r.Some? then start < |input| && exists end: nat :: ClosesAt(input, start, end) && r.value == input[start..end]
    else start < |input| ==> forall end: nat :: !ClosesAt(input, start, end)
  }

  /** What was seen so far: the segment up to here, the lexing state and the depth. */
  ghost predicate Scanned(open: char, seen: string, st: Lexing, depth: int) {
    st == LexFrom(Outside, seen) && depth == Depth(open, seen)
  }

  lemma ScanOne(open: char, seen: string, c: char, st: Lexing, depth: int)
    requires Scanned(open, seen, st, depth)
    ensures Scanned(open, seen + [c], Next(st, c), depth + Weight(open, st, c))
  {
    assert (seen + [c])[..|seen|] == seen;
  }

  function StateOf(inString: bool, escaped: bool): Lexing {
    if !inString then Outside else if escaped then Escaped else Inside
  }

  method ExtractBalancedJSON(input: string) returns (r: Option<string>)
    ensures IsBalanced(input, r)
  {
    var start := FirstBracket(input);
    if start == |input| {
      return None;
    }
    var open := input[start];
    var close := Closing(open);
    var depth, inString, escaped := 0, false, false;
    for i := start to |input|
      invariant escaped ==> inString
      invariant Scanned(open, input[start..i], StateOf(inString, escaped), depth)
      invariant depth >= 0 && (i > start ==> depth > 0)
      invariant forall k :: start < k <= i ==> Depth(open, input[start..k]) != 0
    {
      var ch := input[i];
      assert input[start..i + 1] == input[start..i] + [ch];
      ScanOne(open, input[start..i], ch, StateOf(inString, escaped), depth);
      if inString {
        if escaped {
          escaped := false;
          continue;
        }
        if ch == '\\' {
          escaped := true;
          continue;
        }
        if ch == '"' {
          inString := false;
        }
        continue;
      }
      if ch == '"' {
        inString := true;
      } else if ch == open {
        depth := depth + 1;
      } else if ch == close {
        depth := depth - 1;
        if depth == 0 {
          assert ClosesAt(input, start, i + 1);
          BracketsAreNotSpace(input[start..i + 1], open);
          return Some(Text.TrimSpace(input[start..i + 1]));
        }
      }
    }
    r := None;
  }

  /** Trimming the found segment changes nothing: it begins and ends with a bracket. */
  lemma BracketsAreNotSpace(s: string, open: char)
    requires |s| > 1 && s[0] == open && IsOpening(open) && s[|s| - 1] == Closing(open)
    ensures Text.TrimSpace(s) == s
  {
    Text.TrimAround("", s, "");
    assert "" + s + "" == s;
  }

  // ---------------------------------------------------------------- texts that leave the scan as it was

  lemma {:induction false} LexConcat(st: Lexing, a: string, b: string)
    ensures LexFrom(st, a + b) == LexFrom(LexFrom(st, a), b)
    decreases |b|
  {
    if b == "" {
      assert a + b == a;
    } else {
      assert (a + b)[..|a + b| - 1] == a + b[..|b| - 1];
      LexConcat(st, a, b[..|b| - 1]);
    }
  }

  lemma {:induction false} DepthConcat(open: char, st: Lexing, a: string, b: string)
    ensures DepthFrom(open, st, a + b) == DepthFrom(open, st, a) + DepthFrom(open, LexFrom(st, a), b)
    decreases |b|
  {
    if b == "" {
      assert a + b == a;
    } else {
      assert (a + b)[..|a + b| - 1] == a + b[..|b| - 1];
      DepthConcat(open, st, a, b[..|b| - 1]);
      LexConcat(st, a, b[..|b| - 1]);
    }
  }

  /** Read from `st`, the text ends in `st` at depth zero and never goes below. */
  ghost predicate Neutral(open: char, st: Lexing, s: string) {
    && LexFrom(st, s) == st && DepthFrom(open, st, s) == 0
    && forall k :: 0 <= k <= |s| ==> DepthFrom(open, st, s[..k]) >= 0
  }

  lemma NeutralEmpty(open: char, st: Lexing)
    ensures Neutral(open, st, "")
  {
  }

  lemma NeutralConcat(open: char, st: Lexing, a: string, b: string)
    requires Neutral(open, st, a) && Neutral(open, st, b)
    ensures Neutral(open, st, a + b)
  {
    LexConcat(st, a, b);
    DepthConcat(open, st, a, b);
    forall k | 0 <= k <= |a + b| ensures DepthFrom(open, st, (a + b)[..k]) >= 0 {
      if k <= |a| {
        assert (a + b)[..k] == a[..k];
      } else {
        assert (a + b)[..k] == a + b[..k - |a|];
        DepthConcat(open, st, a, b[..k - |a|]);
      }
    }
  }

  lemma One(st: Lexing, open: char, c: char)
    ensures LexFrom(st, [c]) == Next(st, c) && DepthFrom(open, st, [c]) == Weight(open, st, c)
  {
    assert [c][..0] == "";
  }

  /** A character that is neither quote nor bracket. */
  predicate Quiet(c: char) {
    c != '"' && c != '{' && c != '}' && c != '[' && c != ']'
  }

  lemma {:induction false} NeutralQuiet(open: char, s: string)
    requires IsOpening(open) && forall i :: 0 <= i < |s| ==> Quiet(s[i])
    ensures Neutral(open, Outside, s)
    decreases |s|
  {
    if s == "" {
      NeutralEmpty(open, Outside);
    } else {
      var front, c := s[..|s| - 1], s[|s| - 1];
      NeutralQuiet(open, front);
      NeutralOne(open, Outside, c);
      NeutralConcat(open, Outside, front, [c]);
      assert s == front + [c];
    }
  }

  lemma NeutralOne(open: char, st: Lexing, c: char)
    requires Next(st, c) == st && Weight(open, st, c) == 0
    ensures Neutral(open, st, [c])
  {
    One(st, open, c);
    assert [c][..0] == "" && [c][..1] == [c];
  }

  /** A quoted text is neutral when its body is neutral inside a string. */
  lemma NeutralQuoted(open: char, body: string)
    requires IsOpening(open) && Neutral(open, Inside, body)
    ensures Neutral(open, Outside, "\"" + body + "\"")
  {
    var a, b := "\"" + body, "\"";
    One(Outside, open, '"');
    One(Inside, open, '"');
    LexConcat(Outside, "\"", body);
    DepthConcat(open, Outside, "\"", body);
    LexConcat(Outside, a, b);
    DepthConcat(open, Outside, a, b);
    forall k | 0 <= k <= |a + b| ensures DepthFrom(open, Outside, (a + b)[..k]) >= 0 {
      if k == 0 {
        assert (a + b)[..k] == "";
      } else if k <= |a| {
        assert (a + b)[..k] == "\"" + body[..k - 1];
        DepthConcat(open, Outside, "\"", body[..k - 1]);
      } else {
        assert (a + b)[..k] == a + b;
      }
    }
  }

  /** Inside brackets of the counted kind every proper beginning is at depth one or more. */
  lemma Bracketed(open: char, body: string)
    requires IsOpening(open) && Neutral(open, Outside, body)
    ensures var s := [open] + body + [Closing(open)];
            && Neutral(open, Outside, s)
            && forall k :: 0 < k < |s| ==> Depth(open, s[..k]) > 0
  {
    var a, b := [open] + body, [Closing(open)];
    One(Outside, open, open);
    One(Outside, open, Closing(open));
    LexConcat(Outside, [open], body);
    DepthConcat(open, Outside, [open], body);
    LexConcat(Outside, a, b);
    DepthConcat(open, Outside, a, b);
    forall k | 0 < k < |a + b| ensures Depth(open, (a + b)[..k]) > 0 {
      assert (a + b)[..k] == [open] + body[..k - 1];
      DepthConcat(open, Outside, [open], body[..k - 1]);
    }
    assert (a + b)[..0] == "" && (a + b)[..|a + b|] == a + b;
  }

  /** Brackets of either kind around a neutral text leave it neutral. */
  lemma NeutralBracketed(open: char, bracket: char, body: string)
    requires IsOpening(open) && IsOpening(bracket) && Neutral(open, Outside, body)
    ensures Neutral(open, Outside, [bracket] + body + [Closing(bracket)])
  {
    if bracket == open {
      Bracketed(open, body);
    } else {
      NeutralOne(open, Outside, bracket);
      NeutralOne(open, Outside, Closing(bracket));
      NeutralConcat(open, Outside, [bracket], body);
      NeutralConcat(open, Outside, [bracket] + body, [Closing(bracket)]);
    }
  }
}
