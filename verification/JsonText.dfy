/** The texts of RFC 8259: values, numbers and strings with any inner whitespace, and how they scan. */
module JsonText {
  import opened Sequences
  import opened JsonScan

  datatype Char = Plain(c: char) | Short(c: char) | Unicode(hex: string)

  /** Section 7 of RFC 8259: everything but quote, backslash and control characters may stand for itself. */
  predicate ValidChar(x: Char) {
    match x
    case Plain(c) => c != '"' && c != '\\' && c >= ' '
    case Short(c) => c in "\"\\/bfnrt"
    case Unicode(hex) => |hex| == 4 && forall i :: 0 <= i < 4 ==> IsHex(hex[i])
  }

  predicate IsDigit(c: char) {
    '0' <= c <= '9'
  }

  predicate IsHex(c: char) {
    IsDigit(c) || 'a' <= c <= 'f' || 'A' <= c <= 'F'
  }

  function PrintChar(x: Char): string {
    match x
    case Plain(c) => [c]
    case Short(c) => ['\\', c]
    case Unicode(hex) => "\\u" + hex
  }

  /** Section 6: an integer part, an optional fraction and an optional exponent. */
  datatype Number = Number(minus: bool, integer: string, fraction: Option<string>, exponent: Option<Exponent>)

  datatype Exponent = Exponent(e: char, sign: string, digits: string)

  predicate Digits(s: string) {
    s != "" && forall i :: 0 <= i < |s| ==> IsDigit(s[i])
  }

  predicate ValidNumber(n: Number) {
    && Digits(n.integer) && (n.integer[0] == '0' ==> |n.integer| == 1)
    && (n.fraction.Some? ==> Digits(n.fraction.value))
    && (n.exponent.Some? ==> ValidExponent(n.exponent.value))
  }

  predicate ValidExponent(x: Exponent) {
    x.e in "eE" && x.sign in {"", "+", "-"} && Digits(x.digits)
  }

  function PrintNumber(n: Number): string {
    (if n.minus then "-" else "") + n.integer
    + (if n.fraction.Some? then "." + n.fraction.value else "")
    + (if n.exponent.Some? then [n.exponent.value.e] + n.exponent.value.sign + n.exponent.value.digits else "")
  }

  /** Sections 3 to 5; whitespace may stand around every structural character. */
  datatype Value =
    | Null | True | False
    | Num(number: Number)
    | Str(chars: seq<Char>)
    | Obj(blank: string, members: seq<Member>)
    | Arr(blank: string, elements: seq<Element>)

  datatype Member = Member(before: string, key: seq<Char>, afterKey: string, element: Element)

  datatype Element = Element(before: string, value: Value, after: string)

  /** Section 2. */
  predicate IsBlank(s: string) {
    forall i :: 0 <= i < |s| ==> s[i] in " \t\n\r"
  }

  predicate ValidChars(cs: seq<Char>) {
    forall i :: 0 <= i < |cs| ==> ValidChar(cs[i])
  }

  predicate ValidValue(v: Value) {
    match v
    case Null => true
    case True => true
    case False => true
    case Num(n) => ValidNumber(n)
    case Str(cs) => ValidChars(cs)
    case Obj(blank, members) => IsBlank(blank) && forall m :: m in members ==> ValidMember(m)
    case Arr(blank, elements) => IsBlank(blank) && forall e :: e in elements ==> ValidElement(e)
  }

  predicate ValidMember(m: Member) {
    IsBlank(m.before) && ValidChars(m.key) && IsBlank(m.afterKey) && ValidElement(m.element)
  }

  predicate ValidElement(e: Element) {
    IsBlank(e.before) && ValidValue(e.value) && IsBlank(e.after)
  }

  function PrintChars(cs: seq<Char>): string {
    if cs == [] then "" else PrintChars(cs[..|cs| - 1]) + PrintChar(cs[|cs| - 1])
  }

  function Quote(cs: seq<Char>): string {
    "\"" + PrintChars(cs) + "\""
  }

  function Print(v: Value): string
  {
    match v
    case Null => "null"
    case True => "true"
    case False => "false"
    case Num(n) => PrintNumber(n)
    case Str(cs) => Quote(cs)
    case Obj(blank, members) => ['{'] + (if members == [] then blank else PrintMembers(members)) + ['}']
    case Arr(blank, elements) => ['['] + (if elements == [] then blank else PrintElements(elements)) + [']']
  }

  function PrintMember(m: Member): string {
    m.before + Quote(m.key) + m.afterKey + ":" + PrintElement(m.element)
  }

  function PrintElement(e: Element): string {
    e.before + Print(e.value) + e.after
  }

  /** The members of an object, separated by commas. */
  function PrintMembers(members: seq<Member>): string
  {
    if members == [] then ""
    else if |members| == 1 then PrintMember(members[0])
    else PrintMembers(members[..|members| - 1]) + "," + PrintMember(members[|members| - 1])
  }

  function PrintElements(elements: seq<Element>): string
  {
    if elements == [] then ""
    else if |elements| == 1 then PrintElement(elements[0])
    else PrintElements(elements[..|elements| - 1]) + "," + PrintElement(elements[|elements| - 1])
  }

  // ---------------------------------------------------------------- scanning a text

  lemma CharIsNeutral(open: char, x: Char)
    requires IsOpening(open) && ValidChar(x)
    ensures Neutral(open, Inside, PrintChar(x))
  {
    if x.Plain? {
      NeutralOne(open, Inside, x.c);
    } else if x.Short? {
      EscapeIsNeutral(open, x.c);
    } else {
      EscapeIsNeutral(open, 'u');
      HexIsNeutral(open, x.hex);
      NeutralConcat(open, Inside, "\\u", x.hex);
    }
  }

  lemma EscapeIsNeutral(open: char, c: char)
    ensures Neutral(open, Inside, ['\\', c])
  {
    var s := ['\\', c];
    assert s[..0] == "" && s[..1] == ['\\'] && s[..2] == s;
    One(Inside, open, '\\');
    assert LexFrom(Inside, s) == Next(LexFrom(Inside, s[..1]), c);
  }

  lemma {:induction false} HexIsNeutral(open: char, hex: string)
    requires forall i :: 0 <= i < |hex| ==> IsHex(hex[i])
    ensures Neutral(open, Inside, hex)
    decreases |hex|
  {
    if hex == "" {
      NeutralEmpty(open, Inside);
    } else {
      var front, c := hex[..|hex| - 1], hex[|hex| - 1];
      HexIsNeutral(open, front);
      NeutralOne(open, Inside, c);
      NeutralConcat(open, Inside, front, [c]);
      assert hex == front + [c];
    }
  }

  lemma {:induction false} CharsAreNeutral(open: char, cs: seq<Char>)
    requires IsOpening(open) && ValidChars(cs)
    ensures Neutral(open, Inside, PrintChars(cs))
    decreases |cs|
  {
    if cs == [] {
      NeutralEmpty(open, Inside);
    } else {
      CharsAreNeutral(open, cs[..|cs| - 1]);
      CharIsNeutral(open, cs[|cs| - 1]);
      NeutralConcat(open, Inside, PrintChars(cs[..|cs| - 1]), PrintChar(cs[|cs| - 1]));
    }
  }

  lemma QuoteIsNeutral(open: char, cs: seq<Char>)
    requires IsOpening(open) && ValidChars(cs)
    ensures Neutral(open, Outside, Quote(cs))
  {
    CharsAreNeutral(open, cs);
    NeutralQuoted(open, PrintChars(cs));
  }

  lemma BlankIsNeutral(open: char, s: string)
    requires IsOpening(open) && IsBlank(s)
    ensures Neutral(open, Outside, s)
  {
    NeutralQuiet(open, s);
  }

  lemma NumberIsNeutral(open: char, n: Number)
    requires IsOpening(open) && ValidNumber(n)
    ensures Neutral(open, Outside, PrintNumber(n))
  {
    var s := PrintNumber(n);
    forall i | 0 <= i < |s| ensures Quiet(s[i]) {
      NumberIsQuiet(n, i);
    }
    NeutralQuiet(open, s);
  }

  lemma NumberIsQuiet(n: Number, i: nat)
    requires ValidNumber(n) && i < |PrintNumber(n)|
    ensures Quiet(PrintNumber(n)[i])
  {
    var a := (if n.minus then "-" else "") + n.integer;
    var b := if n.fraction.Some? then "." + n.fraction.value else "";
    var c := if n.exponent.Some? then [n.exponent.value.e] + n.exponent.value.sign + n.exponent.value.digits else "";
    assert PrintNumber(n) == a + b + c;
    assert AllQuiet(a);
    assert AllQuiet(b);
    assert AllQuiet(c);
  }

  predicate AllQuiet(s: string) {
    forall i :: 0 <= i < |s| ==> Quiet(s[i])
  }

  lemma {:induction false} ValueIsNeutral(open: char, v: Value)
    requires IsOpening(open) && ValidValue(v)
    ensures Neutral(open, Outside, Print(v))
    decreases v, 1
  {
    match v
    case Null => NeutralQuiet(open, "null");
    case True => NeutralQuiet(open, "true");
    case False => NeutralQuiet(open, "false");
    case Num(n) => NumberIsNeutral(open, n);
    case Str(cs) => QuoteIsNeutral(open, cs);
    case Obj(blank, members) =>
      BodyIsNeutral(open, v);
      NeutralBracketed(open, '{', Body(v));
    case Arr(blank, elements) =>
      BodyIsNeutral(open, v);
      NeutralBracketed(open, '[', Body(v));
  }

  /** What stands between the brackets of an object or an array. */
  function Body(v: Value): string
    requires v.Obj? || v.Arr?
  {
    if v.Obj? then (if v.members == [] then v.blank else PrintMembers(v.members))
    else if v.elements == [] then v.blank else PrintElements(v.elements)
  }

  lemma {:induction false} BodyIsNeutral(open: char, v: Value)
    requires IsOpening(open) && ValidValue(v) && (v.Obj? || v.Arr?)
    ensures Neutral(open, Outside, Body(v))
    decreases v, 0
  {
    if v.Obj? {
      if v.members == [] {
        BlankIsNeutral(open, v.blank);
      } else {
        MembersAreNeutral(open, v.members);
      }
    } else if v.elements == [] {
      BlankIsNeutral(open, v.blank);
    } else {
      ElementsAreNeutral(open, v.elements);
    }
  }

  lemma {:induction false} ElementIsNeutral(open: char, e: Element)
    requires IsOpening(open) && ValidElement(e)
    ensures Neutral(open, Outside, PrintElement(e))
    decreases e
  {
    BlankIsNeutral(open, e.before);
    ValueIsNeutral(open, e.value);
    BlankIsNeutral(open, e.after);
    NeutralConcat(open, Outside, e.before, Print(e.value));
    NeutralConcat(open, Outside, e.before + Print(e.value), e.after);
  }

  lemma {:induction false} MemberIsNeutral(open: char, m: Member)
    requires IsOpening(open) && ValidMember(m)
    ensures Neutral(open, Outside, PrintMember(m))
    decreases m
  {
    var key := m.before + Quote(m.key);
    BlankIsNeutral(open, m.before);
    QuoteIsNeutral(open, m.key);
    NeutralConcat(open, Outside, m.before, Quote(m.key));
    BlankIsNeutral(open, m.afterKey);
    NeutralConcat(open, Outside, key, m.afterKey);
    NeutralQuiet(open, ":");
    NeutralConcat(open, Outside, key + m.afterKey, ":");
    ElementIsNeutral(open, m.element);
    NeutralConcat(open, Outside, key + m.afterKey + ":", PrintElement(m.element));
  }

  lemma {:induction false} MembersAreNeutral(open: char, members: seq<Member>)
    requires IsOpening(open) && forall m :: m in members ==> ValidMember(m)
    ensures Neutral(open, Outside, PrintMembers(members))
    decreases members
  {
    if members == [] {
      NeutralEmpty(open, Outside);
    } else {
      var front, last := members[..|members| - 1], members[|members| - 1];
      MemberIsNeutral(open, last);
      if |members| > 1 {
        MembersAreNeutral(open, front);
        NeutralQuiet(open, ",");
        NeutralConcat(open, Outside, PrintMembers(front), ",");
        NeutralConcat(open, Outside, PrintMembers(front) + ",", PrintMember(last));
      }
    }
  }

  lemma {:induction false} ElementsAreNeutral(open: char, elements: seq<Element>)
    requires IsOpening(open) && forall e :: e in elements ==> ValidElement(e)
    ensures Neutral(open, Outside, PrintElements(elements))
    decreases elements
  {
    if elements == [] {
      NeutralEmpty(open, Outside);
    } else {
      var front, last := elements[..|elements| - 1], elements[|elements| - 1];
      ElementIsNeutral(open, last);
      if |elements| > 1 {
        ElementsAreNeutral(open, front);
        NeutralQuiet(open, ",");
        NeutralConcat(open, Outside, PrintElements(front), ",");
        NeutralConcat(open, Outside, PrintElements(front) + ",", PrintElement(last));
      }
    }
  }

  // ---------------------------------------------------------------- the object or array is found

  lemma FirstBracketAfter(before: string, rest: string)
    requires FirstBracket(before) == |before| && rest != "" && IsOpening(rest[0])
    ensures FirstBracket(before + rest) == |before|
  {
    var s := before + rest;
    var i := FirstBracket(s);
    assert forall j :: 0 <= j < |before| ==> s[j] == before[j] && !IsOpening(s[j]);
    assert s[|before|] == rest[0];
  }

  /** The text of an object or array is where the first bracket after a bracket-free prefix closes. */
  lemma PrintedCloses(before: string, v: Value, after: string)
    requires FirstBracket(before) == |before| && (v.Obj? || v.Arr?) && ValidValue(v)
    ensures var s := before + Print(v) + after;
            && FirstBracket(s) == |before| < |s| && ClosesAt(s, |before|, |before| + |Print(v)|)
            && s[|before|..|before| + |Print(v)|] == Print(v)
  {
    var p := Print(v);
    var s, start, end := before + p + after, |before|, |before| + |p|;
    var open := if v.Obj? then '{' else '[';
    assert s == before + (p + after);
    FirstBracketAfter(before, p + after);
    BodyIsNeutral(open, v);
    Bracketed(open, Body(v));
    assert p == [open] + Body(v) + [Closing(open)];
    assert s[start] == open && s[start..end] == p;
    assert p[..|p|] == p;
    forall k | start < k < end ensures Depth(open, s[start..k]) != 0 {
      assert s[start..k] == p[..k - start];
    }
  }

  /** Found exactly, whatever follows it and whatever bracket-free text comes before. */
  lemma PrintedIsFound(before: string, v: Value, after: string, r: Option<string>)
    requires FirstBracket(before) == |before| && (v.Obj? || v.Arr?) && ValidValue(v)
    requires IsBalanced(before + Print(v) + after, r)
    ensures r == Some(Print(v))
  {
    var s := before + Print(v) + after;
    PrintedCloses(before, v, after);
    if r.Some? {
      var end: nat :| ClosesAt(s, |before|, end) && r.value == s[|before|..end];
      ClosesOnce(s, |before|, end, |before| + |Print(v)|);
    }
  }
}
