/** Blanks and trimming, as the standard string library of the program's language defines them. */
module Text {

  predicate IsSpace(c: char) {
    || c == '\t' || c == '\n' || c == '\U{000b}' || c == '\U{000c}' || c == '\r' || c == ' '
    || c == '\U{0085}' || c == '\U{00a0}' || c == '\U{1680}'
    || '\U{2000}' <= c <= '\U{200a}'
    || c == '\U{2028}' || c == '\U{2029}' || c == '\U{202f}' || c == '\U{205f}' || c == '\U{3000}'
  }

  function TrimLeft(s: string): (r: string)
    ensures |r| <= |s| && r == s[|s| - |r|..]
    ensures r != "" ==> !IsSpace(r[0])
    ensures forall i :: 0 <= i < |s| - |r| ==> IsSpace(s[i])
  {
    if s != "" && IsSpace(s[0]) then TrimLeft(s[1..]) else s
  }

  function TrimRight(s: string): (r: string)
    ensures |r| <= |s| && r == s[..|r|]
    ensures r != "" ==> !IsSpace(r[|r| - 1])
    ensures forall i :: |r| <= i < |s| ==> IsSpace(s[i])
  {
    if s != "" && IsSpace(s[|s| - 1]) then TrimRight(s[..|s| - 1]) else s
  }

  function TrimSpace(s: string): string {
    TrimRight(TrimLeft(s))
  }

  predicate AllSpace(s: string) {
    forall i :: 0 <= i < |s| ==> IsSpace(s[i])
  }

  predicate Blank(s: string) {
    TrimSpace(s) == ""
  }

  lemma BlankIsAllSpace(s: string)
    ensures Blank(s) <==> AllSpace(s)
  {
    var l := TrimLeft(s);
    var r := TrimRight(l);
    assert r == "" ==> l == "";
    assert l != "" ==> s[|s| - |l|] == l[0];
  }

  lemma Assoc(a: string, b: string, c: string)
    ensures a + b + c == a + (b + c)
  {
  }

  /** A text whose ends are not blank is found again inside blanks, and inside any text trimmed outside it. */
  lemma TrimAround(left: string, core: string, right: string)
    requires core != "" && !IsSpace(core[0]) && !IsSpace(core[|core| - 1])
    ensures TrimSpace(left + core + right) == TrimLeft(left) + core + TrimRight(right)
  {
    TrimLeftAround(left, core, right);
    TrimRightOf(TrimLeft(left) + core, right);
  }

  lemma TrimLeftAround(left: string, core: string, right: string)
    requires core != "" && !IsSpace(core[0])
    ensures TrimLeft(left + core + right) == TrimLeft(left) + core + right
  {
    Assoc(left, core, right);
    TrimLeftOf(left, core + right);
    Assoc(TrimLeft(left), core, right);
  }

  lemma {:induction false} TrimLeftOf(left: string, rest: string)
    requires rest != "" && !IsSpace(rest[0])
    ensures TrimLeft(left + rest) == TrimLeft(left) + rest
  {
    if left != "" && IsSpace(left[0]) {
      assert (left + rest)[1..] == left[1..] + rest;
      TrimLeftOf(left[1..], rest);
    } else if left == "" {
      assert left + rest == rest;
    }
  }

  lemma {:induction false} TrimRightOf(start: string, right: string)
    requires start != "" && !IsSpace(start[|start| - 1])
    ensures TrimRight(start + right) == start + TrimRight(right)
  {
    if right != "" && IsSpace(right[|right| - 1]) {
      assert (start + right)[..|start + right| - 1] == start + right[..|right| - 1];
      TrimRightOf(start, right[..|right| - 1]);
    } else if right == "" {
      assert start + right == start;
    }
  }
}
