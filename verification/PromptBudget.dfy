/** Fitting history, memory and evidence into a prompt: truncation, compaction, and the budget split. */
module PromptBudget {
  import opened Chat
  import SessionCore
  import Text

  /** How many tokens a text is taken to have. */
  type Estimator = string -> nat

  /** A blank text costs nothing, and trimming never costs. */
  ghost predicate Sensible(est: Estimator) {
    && (forall s: string {:trigger Text.AllSpace(s)} :: Text.AllSpace(s) ==> est(s) == 0)
    && forall s: string {:trigger Text.TrimSpace(s)} :: est(Text.TrimSpace(s)) <= est(s)
  }

  /** A longer text never has fewer tokens than its beginning. */
  ghost predicate PrefixMonotone(est: Estimator) {
    forall s: string, i, j :: 0 <= i <= j <= |s| ==> est(s[..i]) <= est(s[..j])
  }

  /** A quarter of the runes, at least one; a text that trims away costs nothing. */
  function EstimateRunes(s: string): nat {
    if Text.AllSpace(s) then 0 else if |s| / 4 < 1 then 1 else |s| / 4
  }

  /** The estimate by runes, used when no encoding is at hand, has both properties. */
  lemma EstimateRunesIsSensible()
    ensures Sensible(EstimateRunes) && PrefixMonotone(EstimateRunes)
  {
    forall s: string ensures EstimateRunes(Text.TrimSpace(s)) <= EstimateRunes(s) {
      TrimmedCostsLess(s);
    }
    forall s: string, i, j | 0 <= i <= j <= |s| ensures EstimateRunes(s[..i]) <= EstimateRunes(s[..j]) {
      PrefixCostsLess(s[..i], s[..j]);
    }
  }

  lemma TrimmedCostsLess(s: string)
    ensures EstimateRunes(Text.TrimSpace(s)) <= EstimateRunes(s)
  {
    Text.BlankIsAllSpace(s);
    assert |Text.TrimSpace(s)| <= |s|;
    assert Text.AllSpace(s) ==> Text.AllSpace(Text.TrimSpace(s));
  }

  lemma PrefixCostsLess(a: string, b: string)
    requires a <= b
    ensures EstimateRunes(a) <= EstimateRunes(b)
  {
    assert forall i :: 0 <= i < |a| ==> a[i] == b[i];
  }

  // ---------------------------------------------------------------- truncation

  /** The first `k` characters fit, and one more does not. */
  predicate Edge(est: Estimator, text: string, maxTokens: int, k: nat) {
    k < |text| && est(text[..k]) <= maxTokens && est(text[..k + 1]) > maxTokens
  }

  /** A text that fits stays whole; another is cut at an edge and trimmed. */
  ghost predicate IsTruncation(est: Estimator, text: string, maxTokens: int, r: string) {
    if maxTokens <= 0 then r == ""
    else if est(text) <= maxTokens then r == text
    else exists k: nat :: Edge(est, text, maxTokens, k) && r == Text.TrimSpace(text[..k])
  }

  method TruncateTextToTokens(est: Estimator, text: string, maxTokens: int) returns (r: string)
    requires Sensible(est)
    ensures IsTruncation(est, text, maxTokens, r)
  {
    if maxTokens <= 0 {
      return "";
    }
    if est(text) <= maxTokens {
      return text;
    }
    assert est("") == 0 by { assert Text.AllSpace(""); }
    var best := LongestFitting(est, text, maxTokens);
    r := Text.TrimSpace(text[..best]);
  }

  /** The binary search for how much of the text fits. */
  method LongestFitting(est: Estimator, text: string, maxTokens: nat) returns (best: nat)
    requires est("") == 0 && est(text) > maxTokens
    ensures Edge(est, text, maxTokens, best)
  {
    assert text[..|text|] == text && text[..0] == "";
    var low, high := 0, |text|;
    best := 0;
    while low <= high
      invariant 0 <= low <= high + 1 <= |text| + 1
      invariant low == 0 ==> best == 0
      invariant low > 0 ==> best == low - 1 && est(text[..best]) <= maxTokens
      invariant high < |text| ==> est(text[..high + 1]) > maxTokens
      decreases high - low
    {
      var mid := (low + high) / 2;
      if est(text[..mid]) <= maxTokens {
        best := mid;
        low := mid + 1;
        continue;
      }
      high := mid - 1;
    }
  }

  /** The result always fits. */
  lemma TruncationFits(est: Estimator, text: string, maxTokens: int, r: string)
    requires Sensible(est) && IsTruncation(est, text, maxTokens, r)
    ensures est(r) <= if maxTokens > 0 then maxTokens else 0
  {
    if maxTokens <= 0 {
      assert Text.AllSpace("");
    }
  }

  /** With an estimator that never falls along a text, the cut keeps the longest beginning that fits. */
  lemma EdgeIsLongest(est: Estimator, text: string, maxTokens: int, k: nat)
    requires PrefixMonotone(est) && Edge(est, text, maxTokens, k)
    ensures forall j: nat :: j <= |text| ==> (est(text[..j]) <= maxTokens <==> j <= k)
  {
    forall j: nat | j <= |text| ensures est(text[..j]) <= maxTokens <==> j <= k {
      if j <= k {
        assert est(text[..j]) <= est(text[..k]);
      } else {
        assert est(text[..k + 1]) <= est(text[..j]);
      }
    }
  }

  /** So there is one truncation only. */
  lemma TruncationIsUnique(est: Estimator, text: string, maxTokens: int, a: string, b: string)
    requires PrefixMonotone(est) && IsTruncation(est, text, maxTokens, a) && IsTruncation(est, text, maxTokens, b)
    ensures a == b
  {
    if maxTokens > 0 && est(text) > maxTokens {
      var i: nat :| Edge(est, text, maxTokens, i) && a == Text.TrimSpace(text[..i]);
      var j: nat :| Edge(est, text, maxTokens, j) && b == Text.TrimSpace(text[..j]);
      EdgeIsLongest(est, text, maxTokens, i);
      EdgeIsLongest(est, text, maxTokens, j);
      assert est(text[..i]) <= maxTokens && est(text[..j]) <= maxTokens;
    }
  }

  // ---------------------------------------------------------------- history

  type Turn = SessionCore.Turn

  function Cost(est: Estimator, t: Turn): nat {
    est(t.user) + est(t.assistant)
  }

  function Total(est: Estimator, turns: seq<Turn>): nat {
    if turns == [] then 0 else Cost(est, turns[0]) + Total(est, turns[1..])
  }

  /** The turns the mask marks with `b`, in their order. */
  function Select(turns: seq<Turn>, mask: seq<bool>, b: bool): seq<Turn>
    requires |mask| == |turns|
  {
    if turns == [] then []
    else (if mask[0] == b then [turns[0]] else []) + Select(turns[1..], mask[1..], b)
  }

  /** A turn is kept exactly when it fits beside the newer ones that are kept. */
  ghost predicate KeepsWhatFits(est: Estimator, turns: seq<Turn>, mask: seq<bool>, maxTokens: int)
    requires |mask| == |turns|
  {
    forall i :: 0 <= i < |turns| ==>
      (mask[i] <==> Cost(est, turns[i]) + Total(est, Select(turns[i + 1..], mask[i + 1..], true)) <= maxTokens)
  }

  ghost predicate IsCompaction(est: Estimator, history: seq<Turn>, maxTokens: int, mask: seq<bool>, kept: seq<Turn>, dropped: seq<Turn>) {
    && |mask| == |history| && KeepsWhatFits(est, history, mask, maxTokens)
    && kept == Select(history, mask, true) && dropped == Select(history, mask, false)
  }

  lemma OneMoreTurn(est: Estimator, turn: Turn, turns: seq<Turn>, b: bool, mask: seq<bool>, maxTokens: int)
    requires |mask| == |turns| && KeepsWhatFits(est, turns, mask, maxTokens)
    requires b <==> Cost(est, turn) + Total(est, Select(turns, mask, true)) <= maxTokens
    ensures KeepsWhatFits(est, [turn] + turns, [b] + mask, maxTokens)
    ensures forall c :: Select([turn] + turns, [b] + mask, c) == (if b == c then [turn] else []) + Select(turns, mask, c)
  {
    var ts, ms := [turn] + turns, [b] + mask;
    assert ts[1..] == turns && ms[1..] == mask;
    forall i | 0 <= i < |ts|
      ensures ms[i] <==> Cost(est, ts[i]) + Total(est, Select(ts[i + 1..], ms[i + 1..], true)) <= maxTokens
    {
      if i > 0 {
        assert ts[i + 1..] == turns[i..] && ms[i + 1..] == mask[i..];
        assert turns[i - 1 + 1..] == turns[i..] && mask[i - 1 + 1..] == mask[i..];
      }
    }
  }

  lemma CompactOneMore(est: Estimator, turn: Turn, turns: seq<Turn>, maxTokens: int, mask: seq<bool>, kept: seq<Turn>, dropped: seq<Turn>)
    requires IsCompaction(est, turns, maxTokens, mask, kept, dropped)
    ensures var fits := Cost(est, turn) + Total(est, kept) <= maxTokens;
            && Total(est, [turn] + kept) == Cost(est, turn) + Total(est, kept)
            && (if fits then IsCompaction(est, [turn] + turns, maxTokens, [true] + mask, [turn] + kept, dropped)
                else IsCompaction(est, [turn] + turns, maxTokens, [false] + mask, kept, [turn] + dropped))
  {
    var fits := Cost(est, turn) + Total(est, kept) <= maxTokens;
    OneMoreTurn(est, turn, turns, fits, mask, maxTokens);
    assert ([turn] + kept)[1..] == kept;
    assert [] + kept == kept && [] + dropped == dropped;
  }

  /** The same for the turn at place `i` of the history. */
  lemma CompactFrom(est: Estimator, history: seq<Turn>, i: nat, maxTokens: int, mask: seq<bool>, kept: seq<Turn>, dropped: seq<Turn>)
    requires i < |history| && IsCompaction(est, history[i + 1..], maxTokens, mask, kept, dropped)
    ensures var turn := history[i];
            var fits := Cost(est, turn) + Total(est, kept) <= maxTokens;
            && Total(est, [turn] + kept) == Cost(est, turn) + Total(est, kept)
            && (if fits then IsCompaction(est, history[i..], maxTokens, [true] + mask, [turn] + kept, dropped)
                else IsCompaction(est, history[i..], maxTokens, [false] + mask, kept, [turn] + dropped))
  {
    CompactOneMore(est, history[i], history[i + 1..], maxTokens, mask, kept, dropped);
    assert history[i..] == [history[i]] + history[i + 1..];
  }

  method CompactHistory(est: Estimator, history: seq<Turn>, maxTokens: int)
    returns (kept: seq<Turn>, dropped: seq<Turn>, ghost mask: seq<bool>)
    ensures maxTokens > 0 ==> IsCompaction(est, history, maxTokens, mask, kept, dropped)
    ensures maxTokens <= 0 ==> kept == [] && dropped == history
    ensures Total(est, kept) <= if maxTokens > 0 then maxTokens else 0
  {
    kept, dropped, mask := [], [], [];
    if |history| == 0 {
      return;
    }
    if maxTokens <= 0 {
      dropped := history;
      return;
    }
    var used, i := 0, |history|;
    while i > 0
      invariant 0 <= i <= |history|
      invariant IsCompaction(est, history[i..], maxTokens, mask, kept, dropped)
      invariant used == Total(est, kept) <= maxTokens
    {
      i := i - 1;
      var turn := history[i];
      var turnTokens := est(turn.user) + est(turn.assistant);
      CompactFrom(est, history, i, maxTokens, mask, kept, dropped);
      mask := [used + turnTokens <= maxTokens] + mask;
      if used + turnTokens > maxTokens {
        dropped := [turn] + dropped;
        continue;
      }
      used := used + turnTokens;
      kept := [turn] + kept;
    }
    assert history[0..] == history;
  }

  /** No turn is lost or doubled. */
  lemma {:induction false} SelectPartitions(turns: seq<Turn>, mask: seq<bool>)
    requires |mask| == |turns|
    ensures multiset(Select(turns, mask, true)) + multiset(Select(turns, mask, false)) == multiset(turns)
    decreases |turns|
  {
    if turns != [] {
      SelectPartitions(turns[1..], mask[1..]);
      assert turns == [turns[0]] + turns[1..];
    }
  }

  /** Which turns are kept is determined by the turns and the budget. */
  lemma {:induction false} CompactionIsUnique(est: Estimator, turns: seq<Turn>, maxTokens: int, a: seq<bool>, b: seq<bool>)
    requires |a| == |b| == |turns|
    requires KeepsWhatFits(est, turns, a, maxTokens) && KeepsWhatFits(est, turns, b, maxTokens)
    ensures a == b
    decreases |turns|
  {
    if turns != [] {
      TailKeepsWhatFits(est, turns, a, maxTokens);
      TailKeepsWhatFits(est, turns, b, maxTokens);
      CompactionIsUnique(est, turns[1..], maxTokens, a[1..], b[1..]);
      assert a == [a[0]] + a[1..] && b == [b[0]] + b[1..];
    }
  }

  lemma TailKeepsWhatFits(est: Estimator, turns: seq<Turn>, mask: seq<bool>, maxTokens: int)
    requires |mask| == |turns| && turns != [] && KeepsWhatFits(est, turns, mask, maxTokens)
    ensures KeepsWhatFits(est, turns[1..], mask[1..], maxTokens)
    ensures mask[0] <==> Cost(est, turns[0]) + Total(est, Select(turns[1..], mask[1..], true)) <= maxTokens
  {
    forall i | 0 <= i < |turns| - 1
      ensures mask[1..][i] <==> Cost(est, turns[1..][i]) + Total(est, Select(turns[1..][i + 1..], mask[1..][i + 1..], true)) <= maxTokens
    {
      assert turns[1..][i + 1..] == turns[i + 1 + 1..] && mask[1..][i + 1..] == mask[i + 1 + 1..];
    }
  }

  // ---------------------------------------------------------------- the prompt

  /** Limits as configured; zero stands for the default. */
  datatype Limits = Limits(prompt: int, history: int, evidence: int, memory: int, summary: int) {
    function Defaulted(): Limits {
      Limits(if prompt == 0 then 4096 else prompt,
             if history == 0 then 1024 else history,
             if evidence == 0 then 2048 else evidence,
             if memory == 0 then 512 else memory,
             if summary == 0 then 256 else summary)
    }
  }

  function Tokens(est: Estimator, msgs: seq<Message>): nat {
    if msgs == [] then 0 else Tokens(est, msgs[..|msgs| - 1]) + est(msgs[|msgs| - 1].content)
  }

  lemma {:induction false} TokensConcat(est: Estimator, a: seq<Message>, b: seq<Message>)
    ensures Tokens(est, a + b) == Tokens(est, a) + Tokens(est, b)
    decreases |b|
  {
    if b == [] {
      assert a + b == a;
    } else {
      assert (a + b)[..|a + b| - 1] == a + b[..|b| - 1];
      TokensConcat(est, a, b[..|b| - 1]);
    }
  }

  function Unless(role: Role, content: string): seq<Message> {
    if Text.AllSpace(content) then [] else [Say(role, content)]
  }

  function TurnMessages(turns: seq<Turn>): seq<Message> {
    if turns == [] then []
    else TurnMessages(turns[..|turns| - 1]) + Spoken(turns[|turns| - 1])
  }

  function Spoken(turn: Turn): seq<Message> {
    Unless(User, turn.user) + Unless(Assistant, turn.assistant)
  }

  /** The messages a prompt has whatever the memory and the evidence. */
  function BaseMessages(system: string, format: string, summary: string, kept: seq<Turn>): seq<Message> {
    [Say(System, system)] + Unless(System, format) + Unless(System, summary) + TurnMessages(kept)
  }

  function Labelled(heading: string, text: string): seq<Message> {
    if Text.AllSpace(text) then [] else [Say(User, heading + text)]
  }

  const MEMORY_HEADING: string := "Relevant long-term memory:\n"
  const EVIDENCE_HEADING: string := "Relevant context:\n"

  function Prompt(base: seq<Message>, memory: string, evidence: string, query: string): seq<Message> {
    base + Labelled(MEMORY_HEADING, memory) + Labelled(EVIDENCE_HEADING, evidence) + [Say(User, query)]
  }

  function NotNegative(n: int): nat {
    if n > 0 then n else 0
  }

  function AtMost(limit: int, remaining: int): int {
    if remaining < limit then (if remaining > 0 then remaining else 0) else limit
  }

  /** What evidence may take, and what memory may take after it. */
  function EvidenceBudget(l: Limits, base: nat): int {
    if l.prompt > 0 then AtMost(l.evidence, l.prompt - base) else l.evidence
  }

  function MemoryBudget(l: Limits, base: nat): int {
    if l.prompt > 0 then AtMost(l.memory, l.prompt - base - EvidenceBudget(l, base)) else l.memory
  }

  method EstimateMessages(est: Estimator, msgs: seq<Message>) returns (total: nat)
    ensures total == Tokens(est, msgs)
  {
    total := 0;
    for i := 0 to |msgs|
      invariant total == Tokens(est, msgs[..i])
    {
      assert msgs[..i + 1][..i] == msgs[..i];
      total := total + est(msgs[i].content);
    }
    assert msgs[..|msgs|] == msgs;
  }

  method AppendUnless(msgs: seq<Message>, role: Role, content: string) returns (r: seq<Message>)
    ensures r == msgs + Unless(role, content)
  {
    r := msgs;
    Text.BlankIsAllSpace(content);
    if Text.TrimSpace(content) != "" {
      r := r + [Say(role, content)];
    }
  }

  method AppendTurns(head: seq<Message>, turns: seq<Turn>) returns (r: seq<Message>)
    ensures r == head + TurnMessages(turns)
  {
    r := head;
    for i := 0 to |turns|
      invariant r == head + TurnMessages(turns[..i])
    {
      assert turns[..i + 1][..i] == turns[..i];
      r := AppendTurn(r, turns[i]);
    }
    assert turns[..|turns|] == turns;
  }

  method AppendTurn(msgs: seq<Message>, turn: Turn) returns (r: seq<Message>)
    ensures r == msgs + Spoken(turn)
  {
    r := AppendUnless(msgs, User, turn.user);
    r := AppendUnless(r, Assistant, turn.assistant);
  }

  method BaseOf(system: string, format: string, summary: string, kept: seq<Turn>) returns (msgs: seq<Message>)
    ensures msgs == BaseMessages(system, format, summary, kept)
  {
    msgs := [Say(System, system)];
    msgs := AppendUnless(msgs, System, format);
    msgs := AppendUnless(msgs, System, summary);
    msgs := AppendTurns(msgs, kept);
  }

  /** A text that comes from outside, made safe and cut to its budget; nothing when it is blank. */
  ghost predicate IsFitted(est: Estimator, sanitize: string -> string, text: string, budget: int, r: string) {
    if Text.AllSpace(text) then r == "" else IsTruncation(est, sanitize(text), budget, r)
  }

  /** Memory and evidence each cut to what the base leaves them. */
  ghost predicate AreFitted(est: Estimator, sanitize: string -> string, l: Limits, base: nat,
                            memoryText: string, memory: string, evidenceText: string, evidence: string) {
    && IsFitted(est, sanitize, memoryText, MemoryBudget(l, base), memory)
    && IsFitted(est, sanitize, evidenceText, EvidenceBudget(l, base), evidence)
  }

  method Fit(est: Estimator, sanitize: string -> string, text: string, budget: int) returns (r: string)
    requires Sensible(est)
    ensures IsFitted(est, sanitize, text, budget, r)
  {
    Text.BlankIsAllSpace(text);
    if Text.TrimSpace(text) == "" {
      return "";
    }
    r := TruncateTextToTokens(est, sanitize(text), budget);
  }

  /** The summary of dropped turns; `render` writes them as lines. */
  ghost predicate IsSummary(est: Estimator, render: seq<Turn> -> string, dropped: seq<Turn>, maxTokens: int, r: string) {
    if dropped == [] then r == "" else IsTruncation(est, "Conversation summary:\n" + render(dropped), maxTokens, r)
  }

  method SummarizeTurns(est: Estimator, render: seq<Turn> -> string, turns: seq<Turn>, maxTokens: int) returns (r: string)
    requires Sensible(est)
    ensures IsSummary(est, render, turns, maxTokens, r)
  {
    if |turns| == 0 || maxTokens <= 0 {
      return "";
    }
    r := TruncateTextToTokens(est, "Conversation summary:\n" + render(turns), maxTokens);
  }

  /** What a prompt is built from. */
  datatype Request = Request(
    system: string, format: string, history: seq<Turn>, evidence: string, memory: string, query: string,
    conversationSummary: string, configured: Limits)

  /** How texts are measured, dropped turns written, and foreign texts made safe. */
  datatype Tools = Tools(est: Estimator, render: seq<Turn> -> string, sanitize: string -> string)

  /** What goes into a prompt, cut to fit. */
  datatype Parts = Parts(kept: seq<Turn>, summary: string, memory: string, evidence: string)

  /** What the prompt costs before memory and evidence. */
  function BaseCost(t: Tools, q: Request, p: Parts): nat {
    Tokens(t.est, BaseMessages(q.system, q.format, p.summary, p.kept)) + t.est(q.query)
  }

  /** `kept` fits the history's limit, and `summary` is the one given or one of the other turns. */
  ghost predicate IsConversation(t: Tools, q: Request, kept: seq<Turn>, summary: string) {
    var l := q.configured.Defaulted();
    exists dropped: seq<Turn> :: SplitsHistory(t.est, q.history, l.history, kept, dropped)
      && if Text.AllSpace(q.conversationSummary) then IsSummary(t.est, t.render, dropped, l.summary, summary)
         else summary == q.conversationSummary
  }

  ghost predicate SplitsHistory(est: Estimator, history: seq<Turn>, maxTokens: int, kept: seq<Turn>, dropped: seq<Turn>) {
    && Total(est, kept) <= NotNegative(maxTokens)
    && if maxTokens > 0 then exists mask :: IsCompaction(est, history, maxTokens, mask, kept, dropped)
       else kept == [] && dropped == history
  }

  ghost predicate AreParts(t: Tools, q: Request, p: Parts) {
    && IsConversation(t, q, p.kept, p.summary)
    && AreFitted(t.est, t.sanitize, q.configured.Defaulted(), BaseCost(t, q, p), q.memory, p.memory, q.evidence, p.evidence)
  }

  function Rendered(q: Request, p: Parts): seq<Message> {
    Prompt(BaseMessages(q.system, q.format, p.summary, p.kept), p.memory, p.evidence, q.query)
  }

  /** The limits are those of a validated configuration, none of them negative. */
  method BuildPromptMessages(t: Tools, q: Request) returns (msgs: seq<Message>)
    requires Sensible(t.est) && q.configured.evidence >= 0 && q.configured.memory >= 0
    ensures exists p :: AreParts(t, q, p) && msgs == Rendered(q, p)
    ensures exists p, at :: AreParts(t, q, p) && ReadsAs(t, q, p, msgs, at)
  {
    var kept, summary := Conversation(t, q);
    var base := BaseOf(q.system, q.format, summary, kept);
    var memory, evidence := Fill(t, q, base);
    msgs := Assemble(base, memory, evidence, q.query);
    ghost var p := Parts(kept, summary, memory, evidence);
    assert AreParts(t, q, p) && msgs == Rendered(q, p);
    ghost var at := PromptReads(t, q, p);
  }

  method Fill(t: Tools, q: Request, base: seq<Message>) returns (memory: string, evidence: string)
    requires Sensible(t.est)
    ensures AreFitted(t.est, t.sanitize, q.configured.Defaulted(), Tokens(t.est, base) + t.est(q.query), q.memory, memory, q.evidence, evidence)
  {
    var used := EstimateMessages(t.est, base);
    var evidenceBudget, memoryBudget := Split(q.configured.Defaulted(), used + t.est(q.query));
    memory := Fit(t.est, t.sanitize, q.memory, memoryBudget);
    evidence := Fit(t.est, t.sanitize, q.evidence, evidenceBudget);
  }

  /** The history that fits, and the summary given or made of the rest. */
  method Conversation(t: Tools, q: Request) returns (kept: seq<Turn>, summary: string)
    requires Sensible(t.est)
    ensures IsConversation(t, q, kept, summary)
  {
    var l := q.configured.Defaulted();
    var dropped;
    ghost var mask;
    kept, dropped, mask := CompactHistory(t.est, q.history, l.history);
    assert SplitsHistory(t.est, q.history, l.history, kept, dropped);
    summary := q.conversationSummary;
    Text.BlankIsAllSpace(q.conversationSummary);
    if Text.TrimSpace(q.conversationSummary) == "" {
      summary := SummarizeTurns(t.est, t.render, dropped, l.summary);
    }
  }

  method Assemble(base: seq<Message>, memory: string, evidence: string, query: string) returns (msgs: seq<Message>)
    ensures msgs == Prompt(base, memory, evidence, query)
  {
    msgs := AppendLabelled(base, MEMORY_HEADING, memory);
    msgs := AppendLabelled(msgs, EVIDENCE_HEADING, evidence);
    msgs := msgs + [Say(User, query)];
  }

  method AppendLabelled(msgs: seq<Message>, heading: string, text: string) returns (r: seq<Message>)
    ensures r == msgs + Labelled(heading, text)
  {
    r := msgs;
    Text.BlankIsAllSpace(text);
    if Text.TrimSpace(text) != "" {
      r := r + [Say(User, heading + text)];
    }
  }

  method Split(l: Limits, baseTokens: nat) returns (evidence: int, memory: int)
    ensures evidence == EvidenceBudget(l, baseTokens) && memory == MemoryBudget(l, baseTokens)
  {
    evidence, memory := l.evidence, l.memory;
    if l.prompt > 0 {
      var remaining := l.prompt - baseTokens;
      if remaining < evidence {
        evidence := if remaining > 0 then remaining else 0;
      }
      remaining := remaining - evidence;
      if remaining < memory {
        memory := if remaining > 0 then remaining else 0;
      }
    }
  }

  // ---------------------------------------------------------------- how a prompt reads

  function OneIf(b: bool): nat { if b then 1 else 0 }

  /** The messages of one turn are those from place `a` to place `b`: what was asked, then what was answered. */
  predicate TurnAt(turn: Turn, msgs: seq<Message>, a: nat, b: nat) {
    var asked, answered := !Text.AllSpace(turn.user), !Text.AllSpace(turn.assistant);
    && b == a + OneIf(asked) + OneIf(answered) && b <= |msgs|
    && (asked ==> msgs[a] == Message(User, turn.user, [], ""))
    && (answered ==> msgs[b - 1] == Message(Assistant, turn.assistant, [], ""))
  }

  predicate TurnsAt(turns: seq<Turn>, msgs: seq<Message>, at: seq<nat>) {
    |at| == |turns| + 1 && forall i :: 0 <= i < |turns| ==> TurnAt(turns[i], msgs, at[i], at[i + 1])
  }

  /** The instructions: the system text, then format and summary when they are not blank. */
  predicate HeadAt(q: Request, p: Parts, msgs: seq<Message>, n: nat) {
    var f, m := !Text.AllSpace(q.format), !Text.AllSpace(p.summary);
    && n == 1 + OneIf(f) + OneIf(m) && n <= |msgs|
    && msgs[0] == Message(System, q.system, [], "")
    && (f ==> msgs[1] == Message(System, q.format, [], ""))
    && (m ==> msgs[n - 1] == Message(System, p.summary, [], ""))
  }

  /** From place `n` on: memory and evidence under their headings, when they are not blank, and the query. */
  predicate TailAt(q: Request, p: Parts, msgs: seq<Message>, n: nat) {
    var m, e := !Text.AllSpace(p.memory), !Text.AllSpace(p.evidence);
    && |msgs| == n + OneIf(m) + OneIf(e) + 1
    && msgs[|msgs| - 1] == Message(User, q.query, [], "")
    && (e ==> msgs[|msgs| - 2] == Message(User, EVIDENCE_HEADING + p.evidence, [], ""))
    && (m ==> msgs[n] == Message(User, MEMORY_HEADING + p.memory, [], ""))
  }

  /**
   * The messages of a prompt, in order: the instructions, the kept turns, memory, evidence, and the query,
   * which is always there and always last; and what the messages before memory and evidence cost.
   */
  ghost predicate ReadsAs(t: Tools, q: Request, p: Parts, msgs: seq<Message>, at: seq<nat>) {
    && TurnsAt(p.kept, msgs, at) && at[|p.kept|] <= |msgs|
    && HeadAt(q, p, msgs, at[0]) && TailAt(q, p, msgs, at[|p.kept|])
    && Tokens(t.est, msgs[..at[|p.kept|]]) == t.est(q.system) + t.est(q.format) + t.est(p.summary) + Total(t.est, p.kept)
  }

  lemma {:induction false} TurnsPlaced(head: seq<Message>, turns: seq<Turn>) returns (at: seq<nat>)
    ensures TurnsAt(turns, head + TurnMessages(turns), at)
    ensures at[0] == |head| && at[|turns|] == |head + TurnMessages(turns)|
  {
    if turns == [] {
      at := [|head|];
    } else {
      var front, last := turns[..|turns| - 1], turns[|turns| - 1];
      at := TurnsPlaced(head, front);
      assert head + TurnMessages(turns) == head + TurnMessages(front) + Spoken(last);
      at := OneMorePlaced(front, head + TurnMessages(front), last, at);
      assert front + [last] == turns;
    }
  }

  lemma OneMorePlaced(front: seq<Turn>, before: seq<Message>, last: Turn, at: seq<nat>) returns (longer: seq<nat>)
    requires TurnsAt(front, before, at) && at[|front|] == |before|
    ensures TurnsAt(front + [last], before + Spoken(last), longer)
    ensures longer[0] == at[0] && longer[|front| + 1] == |before + Spoken(last)|
  {
    StillAt(front, before, Spoken(last), at);
    assert TurnAt(last, before + Spoken(last), |before|, |before + Spoken(last)|);
    longer := at + [|before + Spoken(last)|];
  }

  /** What stands in a transcript still stands there when it grows. */
  lemma StillAt(turns: seq<Turn>, msgs: seq<Message>, more: seq<Message>, at: seq<nat>)
    requires TurnsAt(turns, msgs, at)
    ensures TurnsAt(turns, msgs + more, at)
  {
    forall i | 0 <= i < |turns| ensures TurnAt(turns[i], msgs + more, at[i], at[i + 1]) {
      assert TurnAt(turns[i], msgs, at[i], at[i + 1]);
    }
  }

  /** Every prompt reads so. */
  lemma PromptReads(t: Tools, q: Request, p: Parts) returns (at: seq<nat>)
    requires Sensible(t.est)
    ensures ReadsAs(t, q, p, Rendered(q, p), at)
  {
    var base, tail := BaseMessages(q.system, q.format, p.summary, p.kept), TailOf(q, p);
    assert Rendered(q, p) == base + tail by { RenderedParts(q, p); }
    at := TurnsPlaced(HeadOf(q, p), p.kept);
    StillAt(p.kept, base, tail, at);
    assert HeadAt(q, p, base + tail, at[0]) by { HeadReads(q, p, TurnMessages(p.kept), tail); }
    assert TailAt(q, p, base + tail, |base|) by { TailReads(q, p, base); }
    assert (base + tail)[..|base|] == base;
    BaseIsBounded(t.est, q.system, q.format, p.summary, p.kept);
  }

  function HeadOf(q: Request, p: Parts): seq<Message> {
    [Say(System, q.system)] + Unless(System, q.format) + Unless(System, p.summary)
  }

  function TailOf(q: Request, p: Parts): seq<Message> {
    Labelled(MEMORY_HEADING, p.memory) + Labelled(EVIDENCE_HEADING, p.evidence) + [Say(User, q.query)]
  }

  lemma RenderedParts(q: Request, p: Parts)
    ensures Rendered(q, p) == BaseMessages(q.system, q.format, p.summary, p.kept) + TailOf(q, p)
  {
    var base := BaseMessages(q.system, q.format, p.summary, p.kept);
    ThreeBehind(base, Labelled(MEMORY_HEADING, p.memory), Labelled(EVIDENCE_HEADING, p.evidence), [Say(User, q.query)]);
  }

  lemma ThreeBehind(base: seq<Message>, a: seq<Message>, b: seq<Message>, c: seq<Message>)
    ensures base + a + b + c == base + (a + b + c)
  {
  }

  lemma HeadReads(q: Request, p: Parts, turns: seq<Message>, tail: seq<Message>)
    ensures HeadAt(q, p, HeadOf(q, p) + turns + tail, |HeadOf(q, p)|)
  {
    var msgs, head := HeadOf(q, p) + turns + tail, HeadOf(q, p);
    assert forall i :: 0 <= i < |head| ==> msgs[i] == head[i];
  }

  lemma TailReads(q: Request, p: Parts, base: seq<Message>)
    ensures TailAt(q, p, base + TailOf(q, p), |base|)
  {
  }

  // ---------------------------------------------------------------- what a prompt costs

  lemma FittedFits(est: Estimator, sanitize: string -> string, text: string, budget: int, r: string)
    requires Sensible(est) && IsFitted(est, sanitize, text, budget, r)
    ensures est(r) <= NotNegative(budget)
  {
    if Text.AllSpace(text) {
      assert Text.AllSpace("");
    } else {
      TruncationFits(est, sanitize(text), budget, r);
    }
  }

  /**
   * Adding memory and evidence never makes a prompt too long, headings apart: the whole stays within
   * the prompt limit, or within what history and query already take when that is more. Each also
   * stays within its own limit, and so do the kept history and a computed summary.
   */
  lemma PromptFits(t: Tools, q: Request, p: Parts)
    requires Sensible(t.est) && q.configured.evidence >= 0 && q.configured.memory >= 0 && AreParts(t, q, p)
    ensures var l, base, added := q.configured.Defaulted(), BaseCost(t, q, p), t.est(p.memory) + t.est(p.evidence);
            && (l.prompt > 0 && base <= l.prompt ==> base + added <= l.prompt)
            && (l.prompt > 0 && base > l.prompt ==> added == 0)
            && t.est(p.memory) <= l.memory && t.est(p.evidence) <= l.evidence
    ensures Total(t.est, p.kept) <= NotNegative(q.configured.Defaulted().history)
    ensures Text.AllSpace(q.conversationSummary) ==> t.est(p.summary) <= NotNegative(q.configured.Defaulted().summary)
  {
    var l, base := q.configured.Defaulted(), BaseCost(t, q, p);
    FittedFits(t.est, t.sanitize, q.memory, MemoryBudget(l, base), p.memory);
    FittedFits(t.est, t.sanitize, q.evidence, EvidenceBudget(l, base), p.evidence);
    SummaryFits(t, q, p);
  }

  lemma SummaryFits(t: Tools, q: Request, p: Parts)
    requires Sensible(t.est) && AreParts(t, q, p)
    ensures Total(t.est, p.kept) <= NotNegative(q.configured.Defaulted().history)
    ensures Text.AllSpace(q.conversationSummary) ==> t.est(p.summary) <= NotNegative(q.configured.Defaulted().summary)
  {
    var l := q.configured.Defaulted();
    var dropped: seq<Turn> :| SplitsHistory(t.est, q.history, l.history, p.kept, dropped)
      && if Text.AllSpace(q.conversationSummary) then IsSummary(t.est, t.render, dropped, l.summary, p.summary)
         else p.summary == q.conversationSummary;
    assert Text.AllSpace("");
    if Text.AllSpace(q.conversationSummary) && dropped != [] {
      TruncationFits(t.est, "Conversation summary:\n" + t.render(dropped), l.summary, p.summary);
    }
  }

  /** A text is used whole exactly when it fits its budget. */
  lemma FittedIsWhole(est: Estimator, sanitize: string -> string, text: string, budget: int, r: string)
    requires Sensible(est) && IsFitted(est, sanitize, text, budget, r)
    requires !Text.AllSpace(text) && est(sanitize(text)) > 0
    ensures r == sanitize(text) <==> est(sanitize(text)) <= budget
  {
    TruncationFits(est, sanitize(text), budget, r);
  }

  /** Evidence comes before memory: it is whole exactly when it is within its own limit and what the base leaves. */
  lemma EvidenceIsWhole(est: Estimator, sanitize: string -> string, l: Limits, base: nat, text: string, r: string)
    requires Sensible(est) && IsFitted(est, sanitize, text, EvidenceBudget(l, base), r)
    requires !Text.AllSpace(text) && est(sanitize(text)) > 0
    ensures r == sanitize(text) <==>
      est(sanitize(text)) <= l.evidence && (l.prompt > 0 ==> base + est(sanitize(text)) <= l.prompt)
  {
    FittedIsWhole(est, sanitize, text, EvidenceBudget(l, base), r);
  }

  /** Memory is whole exactly when it is within its own limit and leaves evidence its limit, used or not. */
  lemma MemoryIsWhole(est: Estimator, sanitize: string -> string, l: Limits, base: nat, text: string, r: string)
    requires Sensible(est) && IsFitted(est, sanitize, text, MemoryBudget(l, base), r)
    requires !Text.AllSpace(text) && est(sanitize(text)) > 0 && l.evidence >= 0
    ensures r == sanitize(text) <==>
      est(sanitize(text)) <= l.memory && (l.prompt > 0 ==> base + l.evidence + est(sanitize(text)) <= l.prompt)
  {
    FittedIsWhole(est, sanitize, text, MemoryBudget(l, base), r);
  }

  /** The base costs no more than its instructions, its summary and the kept history. */
  lemma BaseIsBounded(est: Estimator, system: string, format: string, summary: string, kept: seq<Turn>)
    requires Sensible(est)
    ensures Tokens(est, BaseMessages(system, format, summary, kept)) == est(system) + est(format) + est(summary) + Total(est, kept)
  {
    var s, f, m, t := [Say(System, system)], Unless(System, format), Unless(System, summary), TurnMessages(kept);
    TokensConcat(est, s + f + m, t);
    TokensConcat(est, s + f, m);
    TokensConcat(est, s, f);
    TokensOfOne(est, System, system);
    TokensUnless(est, System, format);
    TokensUnless(est, System, summary);
    TurnTokens(est, kept);
  }

  lemma TokensOfOne(est: Estimator, role: Role, content: string)
    ensures Tokens(est, [Say(role, content)]) == est(content)
  {
    var one := [Say(role, content)];
    assert one[..0] == [];
    assert Tokens(est, []) == 0;
  }

  lemma TokensUnless(est: Estimator, role: Role, content: string)
    requires Sensible(est)
    ensures Tokens(est, Unless(role, content)) == est(content)
  {
    TokensOfOne(est, role, content);
  }

  lemma {:induction false} TurnTokens(est: Estimator, turns: seq<Turn>)
    requires Sensible(est)
    ensures Tokens(est, TurnMessages(turns)) == Total(est, turns)
  {
    if turns != [] {
      var front, last := turns[..|turns| - 1], turns[|turns| - 1];
      TurnTokens(est, front);
      TokensConcat(est, TurnMessages(front), Spoken(last));
      SpokenTokens(est, last);
      assert Total(est, turns) == Total(est, front) + Cost(est, last) by {
        assert turns == front + [last];
        TotalAppend(est, front, last);
      }
    }
  }

  lemma SpokenTokens(est: Estimator, turn: Turn)
    requires Sensible(est)
    ensures Tokens(est, Spoken(turn)) == Cost(est, turn)
  {
    TokensConcat(est, Unless(User, turn.user), Unless(Assistant, turn.assistant));
    TokensUnless(est, User, turn.user);
    TokensUnless(est, Assistant, turn.assistant);
  }

  lemma {:induction false} TotalAppend(est: Estimator, turns: seq<Turn>, last: Turn)
    ensures Total(est, turns + [last]) == Total(est, turns) + Cost(est, last)
    decreases |turns|
  {
    if turns == [] {
      assert [] + [last] == [last] && [last][1..] == [];
    } else {
      assert (turns + [last])[1..] == turns[1..] + [last];
      TotalAppend(est, turns[1..], last);
    }
  }
}
