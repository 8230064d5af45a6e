/** One tool call of a model: the checks before the tool runs, and what goes back to the model. */
module ToolCalls {
  import opened Sequences
  import opened Chat
  import Text

  type Transcript = seq<Message>

  type Args = map<string, string>

  /** What the model streams before its message, or before it fails. */
  datatype Streamed = Streamed(chunks: seq<string>, message: Option<Message>)

  datatype Model = Model(generate: Transcript -> Option<Message>, stream: Transcript -> Streamed)

  datatype ToolError =
    | DecodeFailed | NameMissing | UnknownTool | Denied | InvalidArguments
    | StartRejected | MarshalFailed | RunFailed | RunCancelled | EndRejected

  datatype RunResult = Output(text: string) | Failed | Cancelled

  /** The tools, the policy and the observer a loop works with. Without a policy everything is allowed. */
  datatype Tools = Tools(
    decode: string -> Option<Args>,
    registered: string -> bool,
    allowed: (string, Args) -> bool,
    structured: string -> bool,
    valid: (string, Args) -> bool,
    startOk: string -> bool,
    marshals: (string, Args) -> bool,
    run: (Transcript, string, Args) -> RunResult,
    endOk: (string, Option<ToolError>) -> bool,
    errorText: (ToolCall, ToolError) -> string)

  // ---------------------------------------------------------------- one tool call

  /** Failures the model is told about and may correct; the others stop the loop. */
  predicate Recoverable(e: ToolError) {
    e.DecodeFailed? || e.NameMissing? || e.UnknownTool? || e.InvalidArguments? || e.MarshalFailed? || e.RunFailed?
  }

  datatype CallResult = Success(text: string) | Failure(error: ToolError)

  /** A call is permitted when every check before the tool itself passes. */
  predicate Permitted(t: Tools, name: string, args: Args) {
    && name != "" && t.registered(name) && t.allowed(name, args)
    && (t.structured(name) ==> t.valid(name, args))
    && t.startOk(name) && t.marshals(name, args)
  }

  /** The error of the first check that fails, in the order the checks are made. */
  function Refusal(t: Tools, name: string, args: Args): Option<ToolError> {
    if name == "" then Some(NameMissing)
    else if !t.registered(name) then Some(UnknownTool)
    else if !t.allowed(name, args) then Some(Denied)
    else if t.structured(name) && !t.valid(name, args) then Some(InvalidArguments)
    else if !t.startOk(name) then Some(StartRejected)
    else if !t.marshals(name, args) then Some(MarshalFailed)
    else None
  }

  /** The observer hears of every failure but a missing name and its own refusal to start. */
  predicate Observed(e: ToolError) {
    !e.NameMissing? && !e.StartRejected?
  }

  function Execute(t: Tools, ms: Transcript, rawName: string, args: Args): CallResult {
    ExecuteNamed(t, ms, Text.TrimSpace(rawName), args)
  }

  function ExecuteNamed(t: Tools, ms: Transcript, name: string, args: Args): CallResult {
    match Refusal(t, name, args)
    case Some(e) => Failure(if Observed(e) && !t.endOk(name, Some(e)) then EndRejected else e)
    case None =>
      match t.run(ms, name, args)
      case Output(text) => if t.endOk(name, None) then Success(text) else Failure(EndRejected)
      case Failed => Failure(RunFailed)
      case Cancelled => Failure(RunCancelled)
  }

  /** `ran` says whether the tool itself was run. */
  method ExecuteToolCall(t: Tools, ms: Transcript, rawName: string, args: Args) returns (result: CallResult, ran: bool)
    ensures result == Execute(t, ms, rawName, args)
    ensures ran <==> Permitted(t, Text.TrimSpace(rawName), args)
  {
    result, ran := ExecuteTrimmed(t, ms, Text.TrimSpace(rawName), args);
  }

  method ExecuteTrimmed(t: Tools, ms: Transcript, name: string, args: Args) returns (result: CallResult, ran: bool)
    ensures result == ExecuteNamed(t, ms, name, args)
    ensures ran <==> Permitted(t, name, args)
  {
    if name == "" {
      return Failure(NameMissing), false;
    }
    if !t.registered(name) {
      return (if t.endOk(name, Some(UnknownTool)) then Failure(UnknownTool) else Failure(EndRejected)), false;
    }
    if !t.allowed(name, args) {
      return (if t.endOk(name, Some(Denied)) then Failure(Denied) else Failure(EndRejected)), false;
    }
    if t.structured(name) && !t.valid(name, args) {
      return (if t.endOk(name, Some(InvalidArguments)) then Failure(InvalidArguments) else Failure(EndRejected)), false;
    }
    if !t.startOk(name) {
      return Failure(StartRejected), false;
    }
    if !t.marshals(name, args) {
      return (if t.endOk(name, Some(MarshalFailed)) then Failure(MarshalFailed) else Failure(EndRejected)), false;
    }
    var outcome := t.run(ms, name, args);
    match outcome {
      case Output(text) => return (if t.endOk(name, None) then Success(text) else Failure(EndRejected)), true;
      case Failed => return Failure(RunFailed), true;
      case Cancelled => return Failure(RunCancelled), true;
    }
  }

  /** The text that goes back to the model, or none when the loop must stop. */
  function NativeResult(t: Tools, ms: Transcript, call: ToolCall): Option<string> {
    match t.decode(call.arguments)
    case None =>
      if t.endOk(Text.TrimSpace(call.name), Some(DecodeFailed)) then Some(t.errorText(call, DecodeFailed)) else None
    case Some(args) =>
      TextOf(t, call, Execute(t, ms, call.name, args))
  }

  function TextOf(t: Tools, call: ToolCall, result: CallResult): Option<string> {
    match result
    case Success(text) => Some(text)
    case Failure(e) => if Recoverable(e) then Some(t.errorText(call, e)) else None
  }

  /** Every check before the observer's start passes. */
  predicate Cleared(t: Tools, name: string, args: Args) {
    name != "" && t.registered(name) && t.allowed(name, args) && (t.structured(name) ==> t.valid(name, args))
  }

  /**
   * What the model is told about a call, on the tools alone: the output of a permitted tool that ran and
   * was observed to its end, or the text of the one failure it may correct.
   */
  ghost predicate ReplyMeans(t: Tools, ms: Transcript, call: ToolCall, content: string) {
    var name, decoded := Text.TrimSpace(call.name), t.decode(call.arguments);
    && (decoded.None? ==> t.endOk(name, Some(DecodeFailed)) && content == t.errorText(call, DecodeFailed))
    && (decoded.Some? && !Cleared(t, name, decoded.value) ==> CorrectionMeans(t, call, name, decoded.value, content))
    && (decoded.Some? && Cleared(t, name, decoded.value) ==> OutcomeMeans(t, ms, call, name, decoded.value, content))
  }

  ghost predicate CorrectionMeans(t: Tools, call: ToolCall, name: string, args: Args, content: string) {
    || (name == "" && content == t.errorText(call, NameMissing))
    || (name != "" && !t.registered(name) && t.endOk(name, Some(UnknownTool)) && content == t.errorText(call, UnknownTool))
    || (name != "" && t.registered(name) && t.allowed(name, args) && t.structured(name) && !t.valid(name, args)
        && t.endOk(name, Some(InvalidArguments)) && content == t.errorText(call, InvalidArguments))
  }

  ghost predicate OutcomeMeans(t: Tools, ms: Transcript, call: ToolCall, name: string, args: Args, content: string) {
    && t.startOk(name)
    && (!t.marshals(name, args) ==> t.endOk(name, Some(MarshalFailed)) && content == t.errorText(call, MarshalFailed))
    && (t.marshals(name, args) ==>
          || (t.run(ms, name, args) == Output(content) && t.endOk(name, None))
          || (t.run(ms, name, args) == Failed && content == t.errorText(call, RunFailed)))
  }

  /** A call is answered with a text exactly when that text is what the tools call for; otherwise the loop stops. */
  lemma AnswerMeans(t: Tools, ms: Transcript, call: ToolCall, content: string)
    ensures NativeResult(t, ms, call) == Some(content) <==> ReplyMeans(t, ms, call, content)
  {
    if t.decode(call.arguments).Some? {
      ExecutionMeans(t, ms, call, Text.TrimSpace(call.name), t.decode(call.arguments).value, content);
    }
  }

  lemma ExecutionMeans(t: Tools, ms: Transcript, call: ToolCall, name: string, args: Args, content: string)
    ensures TextOf(t, call, ExecuteNamed(t, ms, name, args)) == Some(content)
       <==> if Cleared(t, name, args) then OutcomeMeans(t, ms, call, name, args, content)
            else CorrectionMeans(t, call, name, args, content)
  {
  }

  datatype Invocation = Invocation(name: string, args: Args)

  predicate PermittedCall(t: Tools, call: ToolCall) {
    var args := t.decode(call.arguments);
    args.Some? && Permitted(t, Text.TrimSpace(call.name), args.value)
  }

  method RunNativeToolCall(t: Tools, ms: Transcript, call: ToolCall) returns (result: Option<string>, ran: seq<Invocation>)
    ensures result == NativeResult(t, ms, call)
    ensures |ran| <= 1 && forall i :: i in ran ==> Permitted(t, i.name, i.args)
    ensures ran != [] <==> PermittedCall(t, call)
  {
    match t.decode(call.arguments) {
      case None =>
        if !t.endOk(Text.TrimSpace(call.name), Some(DecodeFailed)) {
          return None, [];
        }
        return Some(t.errorText(call, DecodeFailed)), [];
      case Some(args) =>
        var r, executed := ExecuteToolCall(t, ms, call.name, args);
        ran := if executed then [Invocation(Text.TrimSpace(call.name), args)] else [];
        match r {
          case Success(text) => return Some(text), ran;
          case Failure(e) => return (if Recoverable(e) then Some(t.errorText(call, e)) else None), ran;
        }
    }
  }
}

/**
 * The bounded tool-calling loop over a model's native tool protocol, in its synchronous and its
 * streaming form. The model, the tools, the policy and the observer are parameters.
 */
module ToolLoop {
  import opened Sequences
  import opened Chat
  import opened ToolCalls
  import Text

  /** The text that answers a tool call in a transcript, or none when the loop must stop. */
  type Replier = (Transcript, ToolCall) -> Option<string>

  function ReplyOf(t: Tools): Replier {
    (ms: Transcript, call: ToolCall) => NativeResult(t, ms, call)
  }

  /** `reply` is how the tools answer; read from the tools' side only, which keeps the proofs small. */
  ghost predicate RepliesFor(reply: Replier, t: Tools) {
    forall ms: Transcript, call: ToolCall {:trigger NativeResult(t, ms, call)} :: reply(ms, call) == NativeResult(t, ms, call)
  }

  // ---------------------------------------------------------------- the tool calls of one round

  function ToolMessage(call: ToolCall, result: string): Message {
    Message(Tool, result, [], call.id)
  }

  /** The transcript after the calls, or none when the loop stops at one of them. */
  function AfterCalls(reply: Replier, ms: Transcript, calls: seq<ToolCall>, budget: nat): (r: Option<Transcript>)
    ensures r.Some? ==> |calls| <= budget
    decreases |calls|
  {
    if calls == [] then Some(ms)
    else if budget == 0 then None
    else match reply(ms, calls[0])
      case None => None
      case Some(text) => AfterCalls(reply, ms + [ToolMessage(calls[0], text)], calls[1..], budget - 1)
  }

  /** The transcript with the answer to one call. */
  function WithReply(reply: Replier, ms: Transcript, call: ToolCall): Option<Transcript> {
    match reply(ms, call)
    case None => None
    case Some(text) => Some(ms + [ToolMessage(call, text)])
  }

  method AnswerOne(t: Tools, ghost reply: Replier, ms: Transcript, call: ToolCall) returns (next: Option<Transcript>, ran: seq<Invocation>)
    requires RepliesFor(reply, t)
    ensures next == WithReply(reply, ms, call)
    ensures |ran| <= 1 && forall i :: i in ran ==> Permitted(t, i.name, i.args)
  {
    var result;
    result, ran := RunNativeToolCall(t, ms, call);
    next := if result.Some? then Some(ms + [ToolMessage(call, result.value)]) else None;
  }

  /** The first `n` calls are answered in `ms`, and the others are still to be made. */
  ghost predicate Answered(reply: Replier, start: Transcript, calls: seq<ToolCall>, budget: nat, ms: Transcript, n: nat)
    requires n <= |calls|
  {
    n <= budget && AfterCalls(reply, start, calls, budget) == AfterCalls(reply, ms, calls[n..], budget - n)
  }

  lemma AnsweredOneMore(reply: Replier, start: Transcript, calls: seq<ToolCall>, budget: nat, ms: Transcript, n: nat)
    requires n < |calls| && Answered(reply, start, calls, budget, ms, n)
    ensures n == budget || WithReply(reply, ms, calls[n]).None? ==> AfterCalls(reply, start, calls, budget).None?
    ensures n < budget && WithReply(reply, ms, calls[n]).Some? ==>
      Answered(reply, start, calls, budget, WithReply(reply, ms, calls[n]).value, n + 1)
  {
    assert calls[n..][1..] == calls[n + 1..];
  }

  lemma AllAnswered(reply: Replier, start: Transcript, calls: seq<ToolCall>, budget: nat, ms: Transcript)
    requires Answered(reply, start, calls, budget, ms, |calls|)
    ensures AfterCalls(reply, start, calls, budget) == Some(ms)
  {
  }

  method RunToolCalls(t: Tools, ghost reply: Replier, ghost right: Judge, start: Transcript, calls: seq<ToolCall>, budget: nat)
    returns (after: Option<Transcript>, attempts: nat, ran: seq<Invocation>)
    requires RepliesFor(reply, t) && Judges(right, reply)
    ensures after == AfterCalls(reply, start, calls, budget)
    ensures RoundEnds(right, start, calls, budget, after)
    ensures attempts <= budget && |ran| <= attempts && (after.Some? ==> attempts == |calls|)
    ensures forall i :: i in ran ==> Permitted(t, i.name, i.args)
  {
    var ms := start;
    attempts, ran := 0, [];
    AfterCallsMeans(right, reply, start, calls, budget);
    assert calls[0..] == calls;
    for n := 0 to |calls|
      invariant attempts == n && |ran| <= attempts
      invariant Answered(reply, start, calls, budget, ms, n)
      invariant forall i :: i in ran ==> Permitted(t, i.name, i.args)
    {
      AnsweredOneMore(reply, start, calls, budget, ms, n);
      if attempts >= budget {
        return None, attempts, ran;
      }
      attempts := attempts + 1;
      var next, more := AnswerOne(t, reply, ms, calls[n]);
      ran := ran + more;
      if next.None? {
        return None, attempts, ran;
      }
      ms := next.value;
    }
    AllAnswered(reply, start, calls, budget, ms);
    return Some(ms), attempts, ran;
  }

  // ---------------------------------------------------------------- what the prompts must hold

  /** `m` is the message that answers `call` after the transcript `ms`. */
  ghost predicate ReplyAt(t: Tools, ms: Transcript, call: ToolCall, m: Message) {
    m.role == Tool && m.toolCallId == call.id && m.toolCalls == [] && ReplyMeans(t, ms, call, m.content)
  }

  /** Which message is right as the reply to a call after a transcript. */
  type Judge = (Transcript, ToolCall, Message) -> bool

  ghost function RightReply(t: Tools): Judge {
    (ms: Transcript, call: ToolCall, m: Message) => ReplyAt(t, ms, call, m)
  }

  /** The replies of `reply` are the right ones. */
  ghost predicate Judges(right: Judge, reply: Replier) {
    forall ms: Transcript, call: ToolCall, m: Message {:trigger right(ms, call, m)} ::
      right(ms, call, m) <==> reply(ms, call) == Some(m.content) && m == ToolMessage(call, m.content)
  }

  lemma RepliesAreRight(t: Tools)
    ensures Judges(RightReply(t), ReplyOf(t))
  {
    forall ms: Transcript, call: ToolCall, m: Message
      ensures RightReply(t)(ms, call, m) <==> ReplyOf(t)(ms, call) == Some(m.content) && m == ToolMessage(call, m.content)
    {
      AnswerMeans(t, ms, call, m.content);
    }
  }

  /** `after` is `ms` and one reply per call, in order; each tool saw the replies before its own. */
  ghost predicate Replied(right: Judge, ms: Transcript, calls: seq<ToolCall>, after: Transcript) {
    && |after| == |ms| + |calls| && after[..|ms|] == ms
    && forall j :: 0 <= j < |calls| ==> right(after[..|ms| + j], calls[j], after[|ms| + j])
  }

  /** The loop cannot go on: some call is one too many, or there is no right reply to it. */
  ghost predicate Stuck(right: Judge, ms: Transcript, calls: seq<ToolCall>, budget: nat) {
    exists after: Transcript, n: nat :: n < |calls| && StuckAt(right, ms, calls, budget, after, n)
  }

  ghost predicate StuckAt(right: Judge, ms: Transcript, calls: seq<ToolCall>, budget: nat, after: Transcript, n: nat)
    requires n < |calls|
  {
    Replied(right, ms, calls[..n], after) && (n == budget || forall m: Message :: !right(after, calls[n], m))
  }

  /** The transcript after the calls is there with all replies, or the loop is stuck at one of them. */
  ghost predicate RoundEnds(right: Judge, ms: Transcript, calls: seq<ToolCall>, budget: nat, after: Option<Transcript>) {
    if after.Some? then Replied(right, ms, calls, after.value) else Stuck(right, ms, calls, budget)
  }

  lemma {:induction false} AfterCallsMeans(right: Judge, reply: Replier, ms: Transcript, calls: seq<ToolCall>, budget: nat)
    requires Judges(right, reply)
    ensures RoundEnds(right, ms, calls, budget, AfterCalls(reply, ms, calls, budget))
    decreases |calls|
  {
    if calls != [] {
      var result := reply(ms, calls[0]);
      if budget == 0 || result.None? {
        assert StuckAt(right, ms, calls, budget, ms, 0);
      } else {
        var m := ToolMessage(calls[0], result.value);
        assert right(ms, calls[0], m);
        AfterCallsMeans(right, reply, ms + [m], calls[1..], budget - 1);
        OneMoreReply(right, ms, calls, budget, m, AfterCalls(reply, ms + [m], calls[1..], budget - 1));
      }
    }
  }

  lemma OneMoreReply(right: Judge, ms: Transcript, calls: seq<ToolCall>, budget: nat, m: Message, after: Option<Transcript>)
    requires calls != [] && budget > 0 && right(ms, calls[0], m) && RoundEnds(right, ms + [m], calls[1..], budget - 1, after)
    ensures RoundEnds(right, ms, calls, budget, after)
  {
    if after.Some? {
      RepliedOneMore(right, ms, calls, m, after.value);
    } else {
      var end: Transcript, n: nat :| n < |calls[1..]| && StuckAt(right, ms + [m], calls[1..], budget - 1, end, n);
      StuckAtOneMore(right, ms, calls, m, budget, end, n);
    }
  }

  lemma RepliedOneMore(right: Judge, ms: Transcript, calls: seq<ToolCall>, m: Message, after: Transcript)
    requires calls != [] && right(ms, calls[0], m) && Replied(right, ms + [m], calls[1..], after)
    ensures Replied(right, ms, calls, after)
  {
    assert after[..|ms|] == after[..|ms| + 1][..|ms|] == ms;
    forall j | 0 <= j < |calls| ensures right(after[..|ms| + j], calls[j], after[|ms| + j]) {
      if j > 0 {
        assert calls[1..][j - 1] == calls[j] && |ms + [m]| + (j - 1) == |ms| + j;
      } else {
        assert after[..|ms| + 1][|ms|] == m;
      }
    }
  }

  lemma StuckAtOneMore(right: Judge, ms: Transcript, calls: seq<ToolCall>, m: Message, budget: nat, after: Transcript, n: nat)
    requires calls != [] && budget > 0 && right(ms, calls[0], m)
    requires n < |calls[1..]| && StuckAt(right, ms + [m], calls[1..], budget - 1, after, n)
    ensures StuckAt(right, ms, calls, budget, after, n + 1)
  {
    assert calls[..n + 1][1..] == calls[1..][..n];
    RepliedOneMore(right, ms, calls[..n + 1], m, after);
  }

  /** What the model says to a transcript. */
  function MessageOf(m: Model, ms: Transcript, streaming: bool): Option<Message> {
    if streaming then m.stream(ms).message else m.generate(ms)
  }

  /** `next` is `ms`, the message with calls that the model answered it with, and the replies to the calls. */
  ghost predicate Follows(m: Model, right: Judge, streaming: bool, ms: Transcript, next: Transcript) {
    var msg := MessageOf(m, ms, streaming);
    msg.Some? && msg.value.toolCalls != [] && Replied(right, ms + [msg.value], msg.value.toolCalls, next)
  }

  ghost predicate FollowsAt(m: Model, right: Judge, streaming: bool, prompts: seq<Transcript>, i: nat)
    requires i + 1 < |prompts|
  {
    Follows(m, right, streaming, prompts[i], prompts[i + 1])
  }

  /** The transcripts the model was called with, each after the other. */
  ghost predicate Chained(m: Model, right: Judge, streaming: bool, start: Transcript, prompts: seq<Transcript>) {
    && (prompts != [] ==> prompts[0] == start)
    && forall i: nat :: i + 1 < |prompts| ==> FollowsAt(m, right, streaming, prompts, i)
  }

  lemma ChainedOneMore(m: Model, right: Judge, streaming: bool, start: Transcript, prompts: seq<Transcript>, ms: Transcript, next: Transcript)
    requires Chained(m, right, streaming, start, prompts + [ms]) && Follows(m, right, streaming, ms, next)
    ensures Chained(m, right, streaming, start, prompts + [ms] + [next])
  {
    var longer := prompts + [ms] + [next];
    forall i: nat | i + 1 < |longer| ensures FollowsAt(m, right, streaming, longer, i) {
      if i + 1 < |prompts + [ms]| { assert FollowsAt(m, right, streaming, prompts + [ms], i); }
    }
  }

  lemma ChainedOneLess(m: Model, right: Judge, streaming: bool, start: Transcript, prompts: seq<Transcript>, ms: Transcript)
    requires Chained(m, right, streaming, start, prompts + [ms])
    ensures Chained(m, right, streaming, start, prompts)
    ensures prompts != [] ==> Follows(m, right, streaming, prompts[|prompts| - 1], ms)
  {
    forall i: nat | i + 1 < |prompts| ensures FollowsAt(m, right, streaming, prompts, i) {
      assert FollowsAt(m, right, streaming, prompts + [ms], i);
    }
    if prompts != [] { assert FollowsAt(m, right, streaming, prompts + [ms], |prompts| - 1); }
  }

  /** The tool calls made before the last of these prompts. */
  function CallsMade(start: Transcript, prompts: seq<Transcript>): int
    requires prompts != []
  {
    |prompts[|prompts| - 1]| - |start| - (|prompts| - 1)
  }

  /** How a loop that was called with these prompts ends: with a message without calls, or for a reason to stop. */
  ghost predicate EndsWell(m: Model, right: Judge, streaming: bool, start: Transcript, prompts: seq<Transcript>,
                           maxIterations: nat, maxToolCalls: nat, answered: bool) {
    if prompts == [] then maxIterations == 0 && !answered
    else
      var ms, made := prompts[|prompts| - 1], CallsMade(start, prompts);
      var msg := MessageOf(m, ms, streaming);
      && 0 <= made <= maxToolCalls
      && (answered <==> msg.Some? && msg.value.toolCalls == [])
      && (msg.Some? && msg.value.toolCalls != [] ==>
            |prompts| == maxIterations || Stuck(right, ms + [msg.value], msg.value.toolCalls, maxToolCalls - made))
  }

  /** What the text gets before a round that speaks: a line break when its last line is not ended. */
  predicate NeedsBreak(before: string, speaks: bool) {
    speaks && before != "" && before[|before| - 1] != '\n'
  }

  /** What the model says to the last prompt, and whether it says anything. */
  function SaidTo(m: Model, streaming: bool, ms: Transcript): (string, bool) {
    if streaming then (Concat(m.stream(ms).chunks), m.stream(ms).chunks != [])
    else match m.generate(ms)
      case None => ("", false)
      case Some(msg) => (msg.content, msg.content != "")
  }

  /** The text when these prompts have been answered: what the model said to each of them, one round a line or more. */
  function TextOfRounds(m: Model, streaming: bool, prompts: seq<Transcript>): string {
    if prompts == [] then ""
    else
      var before, (said, speaks) := TextOfRounds(m, streaming, prompts[..|prompts| - 1]), SaidTo(m, streaming, prompts[|prompts| - 1]);
      before + (if NeedsBreak(before, speaks) then "\n" else "") + said
  }

  /** What was emitted by then: in the streaming form the model's chunks one by one, and the line breaks of the text. */
  function EmittedInRounds(m: Model, streaming: bool, prompts: seq<Transcript>): seq<string> {
    if prompts == [] || !streaming then []
    else
      var front, chunks := prompts[..|prompts| - 1], m.stream(prompts[|prompts| - 1]).chunks;
      EmittedInRounds(m, streaming, front) + (if NeedsBreak(TextOfRounds(m, streaming, front), chunks != []) then ["\n"] else []) + chunks
  }

  /**
   * What a run of the loop is: its prompts follow one another, its answer is what the model said to them, and
   * it ended where it had to.
   */
  ghost predicate RunMeans(m: Model, right: Judge, streaming: bool, start: Transcript, maxIterations: nat, maxToolCalls: nat,
                           prompts: seq<Transcript>, run: Run) {
    && |prompts| <= maxIterations && Chained(m, right, streaming, start, prompts)
    && EndsWell(m, right, streaming, start, prompts, maxIterations, maxToolCalls, run.answer.Some?)
    && (run.answer.Some? ==> run.answer.value == TextOfRounds(m, streaming, prompts))
    && run.emitted == EmittedInRounds(m, streaming, prompts)
  }

  lemma RoundSays(m: Model, ms: Transcript, before: string, streaming: bool)
    ensures var r, (said, speaks) := RoundOf(m, ms, before, streaming), SaidTo(m, streaming, ms);
            && r.message == MessageOf(m, ms, streaming)
            && r.text == before + (if NeedsBreak(before, speaks) then "\n" else "") + said
            && r.emits == if !streaming then [] else (if NeedsBreak(before, speaks) then ["\n"] else []) + m.stream(ms).chunks
  {
    assert before + "" + "" == before;
    assert [] + m.stream(ms).chunks == m.stream(ms).chunks;
    assert (before + "") + Concat(m.stream(ms).chunks) == before + Concat(m.stream(ms).chunks);
    if !streaming && m.generate(ms).Some? {
      assert (before + "") + m.generate(ms).value.content == before + m.generate(ms).value.content;
    }
  }

  lemma OneMoreRound(m: Model, streaming: bool, prompts: seq<Transcript>, ms: Transcript)
    ensures var before, r := TextOfRounds(m, streaming, prompts), RoundOf(m, ms, TextOfRounds(m, streaming, prompts), streaming);
            && TextOfRounds(m, streaming, prompts + [ms]) == r.text
            && EmittedInRounds(m, streaming, prompts + [ms]) == EmittedInRounds(m, streaming, prompts) + r.emits
  {
    assert (prompts + [ms])[..|prompts|] == prompts;
    var before := TextOfRounds(m, streaming, prompts);
    RoundSays(m, ms, before, streaming);
    if streaming {
      var gap := if NeedsBreak(before, m.stream(ms).chunks != []) then ["\n"] else [];
      assert EmittedInRounds(m, streaming, prompts) + gap + m.stream(ms).chunks
          == EmittedInRounds(m, streaming, prompts) + (gap + m.stream(ms).chunks);
    }
  }

  // ---------------------------------------------------------------- the rounds

  predicate EndsLine(s: string) {
    s != "" && s[|s| - 1] == '\n'
  }

  /** The answer so far when a further round starts to speak. */
  function StartRound(answer: string): string {
    if answer == "" || EndsLine(answer) then answer else answer + "\n"
  }

  /** A further round starts on a new line. */
  predicate OpenLine(answer: string) {
    answer != "" && !EndsLine(answer)
  }

  function Concat(chunks: seq<string>): string {
    if chunks == [] then "" else Concat(chunks[..|chunks| - 1]) + chunks[|chunks| - 1]
  }

  function SyncText(answer: string, content: string): string {
    if content == "" then answer else StartRound(answer) + content
  }

  function StreamText(answer: string, chunks: seq<string>): string {
    if chunks == [] then answer else StartRound(answer) + Concat(chunks)
  }

  /** What the streaming form emits for the chunks of one round. */
  function RoundEmits(answer: string, chunks: seq<string>): seq<string> {
    if chunks == [] then []
    else (if answer == "" || EndsLine(answer) then [] else ["\n"]) + chunks
  }

  /** One model call: the answer after it, what it emitted, and the message it ended with. */
  datatype Round = Round(text: string, emits: seq<string>, message: Option<Message>)

  function RoundOf(m: Model, ms: Transcript, text: string, streaming: bool): Round {
    if streaming then
      var s := m.stream(ms);
      Round(StreamText(text, s.chunks), RoundEmits(text, s.chunks), s.message)
    else
      var message := m.generate(ms);
      Round(if message.Some? then SyncText(text, message.value.content) else text, [], message)
  }

  /** A model in one of the two forms. */
  type Speaker = (Transcript, string) -> Round

  function Speaking(m: Model, streaming: bool): Speaker {
    (ms: Transcript, text: string) => RoundOf(m, ms, text, streaming)
  }

  ghost predicate SpeaksFor(speak: Speaker, m: Model, streaming: bool) {
    forall ms: Transcript, text: string {:trigger RoundOf(m, ms, text, streaming)} :: speak(ms, text) == RoundOf(m, ms, text, streaming)
  }

  datatype Run = Run(answer: Option<string>, emitted: seq<string>)

  /** The transcript of the next model call, when a message asks for tools. */
  function Continue(reply: Replier, ms: Transcript, msg: Message, budget: nat): (r: Option<Transcript>)
    ensures r.Some? ==> |msg.toolCalls| <= budget
  {
    AfterCalls(reply, ms + [msg], msg.toolCalls, budget)
  }

  /** The rest of the loop: `rounds` model calls and `budget` tool calls are left. */
  function Rest(speak: Speaker, reply: Replier, ms: Transcript, text: string, rounds: nat, budget: nat): Run
    decreases rounds, 0
  {
    if rounds == 0 then Run(None, [])
    else AfterRound(speak, reply, ms, speak(ms, text), rounds - 1, budget)
  }

  function AfterRound(speak: Speaker, reply: Replier, ms: Transcript, r: Round, rounds: nat, budget: nat): Run
    decreases rounds, 1
  {
    match r.message
    case None => Run(None, r.emits)
    case Some(msg) =>
      if msg.toolCalls == [] then Run(Some(r.text), r.emits)
      else match Continue(reply, ms, msg, budget)
        case None => Run(None, r.emits)
        case Some(next) => Emitting(r.emits, Rest(speak, reply, next, r.text, rounds, budget - |msg.toolCalls|))
  }

  function Emitting(first: seq<string>, run: Run): Run {
    Run(run.answer, first + run.emitted)
  }

  // ---------------------------------------------------------------- the transcript

  /** Every message with tool calls is followed at once by one tool message per call, in order. */
  ghost predicate Paired(ms: Transcript) {
    forall i :: 0 <= i < |ms| ==> PairedAt(ms, i)
  }

  ghost predicate PairedAt(ms: Transcript, i: nat)
    requires i < |ms|
  {
    && i + |ms[i].toolCalls| < |ms|
    && forall j :: 0 <= j < |ms[i].toolCalls| ==> Answers(ms[i + 1 + j], ms[i].toolCalls[j])
  }

  predicate Answers(m: Message, call: ToolCall) {
    m.role == Tool && m.toolCallId == call.id && m.toolCalls == []
  }

  /** The tool messages that answer `calls`, in order. */
  ghost predicate Replies(replies: Transcript, calls: seq<ToolCall>) {
    |replies| == |calls| && forall j :: 0 <= j < |calls| ==> Answers(replies[j], calls[j])
  }

  lemma {:induction false} AfterCallsReplies(reply: Replier, ms: Transcript, calls: seq<ToolCall>, budget: nat)
    returns (replies: Transcript)
    requires AfterCalls(reply, ms, calls, budget).Some?
    ensures AfterCalls(reply, ms, calls, budget) == Some(ms + replies)
    ensures Replies(replies, calls)
    decreases |calls|
  {
    if calls == [] {
      replies := [];
      assert ms + replies == ms;
    } else {
      var message := ToolMessage(calls[0], reply(ms, calls[0]).value);
      var rest := AfterCallsReplies(reply, ms + [message], calls[1..], budget - 1);
      replies := [message] + rest;
      assert (ms + [message]) + rest == ms + replies;
      forall j | 0 <= j < |calls| ensures Answers(replies[j], calls[j]) {
        if j > 0 { assert calls[1..][j - 1] == calls[j]; }
      }
    }
  }

  lemma RepliesKeepPaired(ms: Transcript, msg: Message, replies: Transcript)
    requires Paired(ms) && Replies(replies, msg.toolCalls)
    ensures Paired(ms + [msg] + replies)
  {
    var next := ms + [msg] + replies;
    forall i | 0 <= i < |next| ensures PairedAt(next, i) {
      if i < |ms| {
        assert PairedAt(ms, i);
      } else if i > |ms| {
        assert Answers(replies[i - |ms| - 1], msg.toolCalls[i - |ms| - 1]);
      }
    }
  }

  /** A round keeps the transcript paired. */
  lemma RoundKeepsPaired(reply: Replier, ms: Transcript, msg: Message, budget: nat)
    requires Paired(ms) && Continue(reply, ms, msg, budget).Some?
    ensures Paired(Continue(reply, ms, msg, budget).value)
  {
    var replies := AfterCallsReplies(reply, ms + [msg], msg.toolCalls, budget);
    RepliesKeepPaired(ms, msg, replies);
  }

  // ---------------------------------------------------------------- the loop

  /** The streaming form of one round: the emit callback starts the round at its first chunk. */
  method StreamRound(m: Model, ms: Transcript, before: string) returns (r: Round)
    ensures r == RoundOf(m, ms, before, true)
  {
    var s := m.stream(ms);
    var text, emits := before, [];
    var roundStarted := false;
    for i := 0 to |s.chunks|
      invariant roundStarted <==> i > 0
      invariant Spoken(before, s.chunks[..i], text, emits)
    {
      assert s.chunks[..i + 1] == s.chunks[..i] + [s.chunks[i]];
      text, emits := Speak(before, s.chunks[..i], s.chunks[i], text, emits, roundStarted);
      roundStarted := true;
    }
    assert s.chunks[..|s.chunks|] == s.chunks;
    r := Round(text, emits, s.message);
  }

  /** Where text and emissions stand after some chunks of a round. */
  predicate Spoken(before: string, chunks: seq<string>, text: string, emits: seq<string>) {
    text == StreamText(before, chunks) && emits == RoundEmits(before, chunks)
  }

  /** The emit callback, for one more chunk. */
  method Speak(before: string, ghost chunks: seq<string>, chunk: string, text: string, emits: seq<string>, roundStarted: bool)
    returns (text': string, emits': seq<string>)
    requires Spoken(before, chunks, text, emits) && (roundStarted <==> chunks != [])
    ensures Spoken(before, chunks + [chunk], text', emits')
  {
    text', emits' := text, emits;
    if !roundStarted && text != "" && !EndsLine(text) {
      text', emits' := text + "\n", emits + ["\n"];
    }
    if roundStarted {
      NextChunk(before, chunks, chunk);
    } else {
      FirstChunk(before, chunk);
    }
    text', emits' := text' + chunk, emits' + [chunk];
  }

  lemma FirstChunk(before: string, chunk: string)
    ensures StreamText(before, [] + [chunk]) == StartRound(before) + chunk
    ensures RoundEmits(before, [] + [chunk]) == (if StartRound(before) == before then [] else ["\n"]) + [chunk]
  {
    ConcatOne(chunk);
    assert [] + [chunk] == [chunk];
  }

  lemma NextChunk(before: string, chunks: seq<string>, chunk: string)
    requires chunks != []
    ensures StreamText(before, chunks + [chunk]) == StreamText(before, chunks) + chunk
    ensures RoundEmits(before, chunks + [chunk]) == RoundEmits(before, chunks) + [chunk]
  {
    assert (chunks + [chunk])[..|chunks|] == chunks;
    Text.Assoc(StartRound(before), Concat(chunks), chunk);
    assert [] + (chunks + [chunk]) == [] + chunks + [chunk];
    assert ["\n"] + (chunks + [chunk]) == ["\n"] + chunks + [chunk];
  }

  method OneRound(m: Model, ms: Transcript, before: string, streaming: bool) returns (r: Round)
    ensures r == RoundOf(m, ms, before, streaming)
  {
    if streaming {
      r := StreamRound(m, ms, before);
    } else {
      var message := m.generate(ms);
      var text := before;
      if message.Some? && message.value.content != "" {
        if text != "" && !EndsLine(text) {
          text := text + "\n";
        }
        text := text + message.value.content;
      }
      r := Round(text, [], message);
    }
  }

  lemma RestContinues(speak: Speaker, reply: Replier, ms: Transcript, text: string, rounds: nat, budget: nat, msg: Message)
    requires rounds > 0 && speak(ms, text).message == Some(msg)
    requires msg.toolCalls != [] && Continue(reply, ms, msg, budget).Some?
    ensures var r := speak(ms, text);
            Rest(speak, reply, ms, text, rounds, budget)
            == Emitting(r.emits, Rest(speak, reply, Continue(reply, ms, msg, budget).value, r.text, rounds - 1, budget - |msg.toolCalls|))
  {
  }

  /** How one iteration ends: the loop goes on with a transcript, or it is over. */
  datatype Turn = GoOn(ms: Transcript) | Stop(answer: Option<string>)

  /** How the transcript follows on after one more message, or why it does not. */
  ghost predicate TurnMeans(m: Model, right: Judge, streaming: bool, ms: Transcript, budget: nat, turn: Turn, after: string, attempts: nat) {
    var msg := MessageOf(m, ms, streaming);
    && (turn.GoOn? ==> Follows(m, right, streaming, ms, turn.ms) && |turn.ms| == |ms| + 1 + attempts)
    && (turn.Stop? && turn.answer.Some? ==> msg.Some? && msg.value.toolCalls == [] && turn.answer.value == after)
    && (turn.Stop? && turn.answer.None? && msg.Some? ==>
          msg.value.toolCalls != [] && Stuck(right, ms + [msg.value], msg.value.toolCalls, budget))
  }

  /** The tool calls of a message, and the transcript with their replies if the loop goes on. */
  method AnswerCalls(t: Tools, ghost reply: Replier, ghost right: Judge, ms: Transcript, msg: Message, budget: nat)
    returns (turn: Turn, attempts: nat, ran: seq<Invocation>)
    requires RepliesFor(reply, t) && Judges(right, reply) && Paired(ms)
    ensures attempts <= budget && |ran| <= attempts && forall i :: i in ran ==> Permitted(t, i.name, i.args)
    ensures turn == match Continue(reply, ms, msg, budget) case None => Stop(None) case Some(next) => GoOn(next)
    ensures turn.GoOn? ==> Paired(turn.ms) && Replied(right, ms + [msg], msg.toolCalls, turn.ms) && attempts == |msg.toolCalls|
    ensures turn.Stop? ==> Stuck(right, ms + [msg], msg.toolCalls, budget)
  {
    var next;
    next, attempts, ran := RunToolCalls(t, reply, right, ms + [msg], msg.toolCalls, budget);
    if next.None? {
      return Stop(None), attempts, ran;
    }
    RoundKeepsPaired(reply, ms, msg, budget);
    turn := GoOn(next.value);
  }

  /** The value of the rest of the loop, after one turn of it. */
  ghost predicate TurnLeads(speak: Speaker, reply: Replier, ms: Transcript, text: string, rounds: nat, budget: nat,
                            turn: Turn, after: string, emits: seq<string>, attempts: nat)
    requires rounds > 0 && attempts <= budget
  {
    Rest(speak, reply, ms, text, rounds, budget)
    == if turn.Stop? then Run(turn.answer, emits)
       else Emitting(emits, Rest(speak, reply, turn.ms, after, rounds - 1, budget - attempts))
  }

  lemma CallsLead(speak: Speaker, reply: Replier, ms: Transcript, text: string, rounds: nat, budget: nat, msg: Message, turn: Turn, attempts: nat)
    requires rounds > 0 && speak(ms, text).message == Some(msg) && msg.toolCalls != [] && attempts <= budget
    requires turn == match Continue(reply, ms, msg, budget) case None => Stop(None) case Some(next) => GoOn(next)
    requires turn.GoOn? ==> attempts == |msg.toolCalls|
    ensures TurnLeads(speak, reply, ms, text, rounds, budget, turn, speak(ms, text).text, speak(ms, text).emits, attempts)
  {
    if turn.GoOn? { RestContinues(speak, reply, ms, text, rounds, budget, msg); }
  }

  /** One iteration of the loop, the first of the `rounds` that are left; `prompts` are those of the earlier ones. */
  method Iteration(m: Model, t: Tools, ms: Transcript, text: string, budget: nat, streaming: bool,
                   ghost speak: Speaker, ghost reply: Replier, ghost right: Judge, ghost rounds: nat, ghost prompts: seq<Transcript>)
    returns (turn: Turn, after: string, emits: seq<string>, attempts: nat, ran: seq<Invocation>)
    requires SpeaksFor(speak, m, streaming) && RepliesFor(reply, t) && Judges(right, reply)
    requires Paired(ms) && rounds > 0 && text == TextOfRounds(m, streaming, prompts)
    ensures attempts <= budget && |ran| <= attempts
    ensures forall i :: i in ran ==> Permitted(t, i.name, i.args)
    ensures turn.GoOn? ==> Paired(turn.ms)
    ensures TurnMeans(m, right, streaming, ms, budget, turn, after, attempts)
    ensures after == TextOfRounds(m, streaming, prompts + [ms])
    ensures EmittedInRounds(m, streaming, prompts) + emits == EmittedInRounds(m, streaming, prompts + [ms])
    ensures TurnLeads(speak, reply, ms, text, rounds, budget, turn, after, emits, attempts)
  {
    var r := OneRound(m, ms, text, streaming);
    RoundSays(m, ms, text, streaming);
    OneMoreRound(m, streaming, prompts, ms);
    after, emits, attempts, ran := r.text, r.emits, 0, [];
    if r.message.None? {
      return Stop(None), after, emits, attempts, ran;
    }
    var msg := r.message.value;
    if msg.toolCalls == [] {
      return Stop(Some(after)), after, emits, attempts, ran;
    }
    turn, attempts, ran := AnswerCalls(t, reply, right, ms, msg, budget);
    CallsLead(speak, reply, ms, text, rounds, budget, msg, turn, attempts);
  }

  lemma EmittingTwice(a: seq<string>, b: seq<string>, run: Run)
    ensures Emitting(a, Emitting(b, run)) == Emitting(a + b, run)
  {
    assert a + (b + run.emitted) == (a + b) + run.emitted;
  }

  /** Where the loop stands before its next model call. */
  ghost predicate Standing(m: Model, right: Judge, streaming: bool, start: Transcript, prompts: seq<Transcript>, ms: Transcript, attempts: nat) {
    && Chained(m, right, streaming, start, prompts + [ms]) && |ms| == |start| + |prompts| + attempts
    && (prompts != [] ==> 0 <= CallsMade(start, prompts) <= attempts)
  }

  lemma StandingGoesOn(m: Model, right: Judge, streaming: bool, start: Transcript, prompts: seq<Transcript>, ms: Transcript,
                       attempts: nat, budget: nat, turn: Turn, after: string, tried: nat)
    requires Standing(m, right, streaming, start, prompts, ms, attempts)
    requires TurnMeans(m, right, streaming, ms, budget, turn, after, tried) && turn.GoOn?
    ensures Standing(m, right, streaming, start, prompts + [ms], turn.ms, attempts + tried)
  {
    ChainedOneMore(m, right, streaming, start, prompts, ms, turn.ms);
  }

  lemma StandingStops(m: Model, right: Judge, streaming: bool, start: Transcript, prompts: seq<Transcript>, ms: Transcript, attempts: nat,
                      maxIterations: nat, maxToolCalls: nat, turn: Turn, after: string, tried: nat)
    requires Standing(m, right, streaming, start, prompts, ms, attempts) && |prompts| < maxIterations && attempts <= maxToolCalls
    requires TurnMeans(m, right, streaming, ms, maxToolCalls - attempts, turn, after, tried) && turn.Stop?
    ensures Chained(m, right, streaming, start, prompts + [ms])
    ensures EndsWell(m, right, streaming, start, prompts + [ms], maxIterations, maxToolCalls, turn.answer.Some?)
    ensures turn.answer.Some? ==> turn.answer.value == after
  {
  }

  lemma StandingRunsOut(m: Model, right: Judge, streaming: bool, start: Transcript, prompts: seq<Transcript>, ms: Transcript,
                        attempts: nat, maxIterations: nat, maxToolCalls: nat)
    requires Standing(m, right, streaming, start, prompts, ms, attempts) && |prompts| == maxIterations && attempts <= maxToolCalls
    ensures Chained(m, right, streaming, start, prompts)
    ensures EndsWell(m, right, streaming, start, prompts, maxIterations, maxToolCalls, false)
  {
    ChainedOneLess(m, right, streaming, start, prompts, ms);
  }

  /** What is left of the loop, behind what was emitted. */
  ghost predicate Leaves(whole: Run, speak: Speaker, reply: Replier, ms: Transcript, text: string, rounds: nat, budget: nat, emitted: seq<string>) {
    whole == Emitting(emitted, Rest(speak, reply, ms, text, rounds, budget))
  }

  lemma LeavesAfterTurn(whole: Run, speak: Speaker, reply: Replier, ms: Transcript, text: string, rounds: nat, budget: nat, emitted: seq<string>,
                        turn: Turn, after: string, emits: seq<string>, tried: nat)
    requires rounds > 0 && tried <= budget
    requires Leaves(whole, speak, reply, ms, text, rounds, budget, emitted)
    requires TurnLeads(speak, reply, ms, text, rounds, budget, turn, after, emits, tried)
    ensures turn.GoOn? ==> Leaves(whole, speak, reply, turn.ms, after, rounds - 1, budget - tried, emitted + emits)
    ensures turn.Stop? ==> whole == Run(turn.answer, emitted + emits)
  {
    if turn.GoOn? { EmittingTwice(emitted, emits, Rest(speak, reply, turn.ms, after, rounds - 1, budget - tried)); }
  }

  /** The loop between two iterations. */
  ghost predicate Underway(m: Model, right: Judge, streaming: bool, start: Transcript, maxIterations: nat, maxToolCalls: nat, speak: Speaker,
                           reply: Replier, prompts: seq<Transcript>, ms: Transcript, text: string, emitted: seq<string>, attempts: nat) {
    && |prompts| <= maxIterations && attempts <= maxToolCalls
    && Standing(m, right, streaming, start, prompts, ms, attempts)
    && text == TextOfRounds(m, streaming, prompts) && emitted == EmittedInRounds(m, streaming, prompts)
    && Leaves(Rest(speak, reply, start, "", maxIterations, maxToolCalls), speak, reply, ms, text,
              maxIterations - |prompts|, maxToolCalls - attempts, emitted)
  }

  /** The loop is over with this run. */
  ghost predicate Over(m: Model, right: Judge, streaming: bool, start: Transcript, maxIterations: nat, maxToolCalls: nat, speak: Speaker,
                       reply: Replier, prompts: seq<Transcript>, run: Run) {
    && run == Rest(speak, reply, start, "", maxIterations, maxToolCalls)
    && RunMeans(m, right, streaming, start, maxIterations, maxToolCalls, prompts, run)
  }

  /** The prompts are all paired, and every tool that ran was permitted. */
  ghost predicate Kept(t: Tools, prompts: seq<Transcript>, attempts: nat, ran: seq<Invocation>) {
    && (forall i :: 0 <= i < |prompts| ==> Paired(prompts[i]))
    && |ran| <= attempts && forall i :: i in ran ==> Permitted(t, i.name, i.args)
  }

  method OneTurn(m: Model, t: Tools, streaming: bool, ghost start: Transcript, ghost maxIterations: nat, maxToolCalls: nat, ghost speak: Speaker,
                 ghost reply: Replier, ghost right: Judge, ghost prompts: seq<Transcript>, ms: Transcript, text: string, ghost emitted: seq<string>,
                 attempts: nat, ran: seq<Invocation>)
    returns (turn: Turn, after: string, emits: seq<string>, attempts': nat, ran': seq<Invocation>)
    requires SpeaksFor(speak, m, streaming) && RepliesFor(reply, t) && Judges(right, reply) && Paired(ms) && |prompts| < maxIterations
    requires Kept(t, prompts, attempts, ran)
    requires Underway(m, right, streaming, start, maxIterations, maxToolCalls, speak, reply, prompts, ms, text, emitted, attempts)
    ensures attempts' <= maxToolCalls && Kept(t, prompts + [ms], attempts', ran')
    ensures turn.GoOn? ==> Paired(turn.ms) && Underway(m, right, streaming, start, maxIterations, maxToolCalls, speak, reply,
                             prompts + [ms], turn.ms, after, emitted + emits, attempts')
    ensures turn.Stop? ==> Over(m, right, streaming, start, maxIterations, maxToolCalls, speak, reply, prompts + [ms], Run(turn.answer, emitted + emits))
  {
    var tried, more;
    turn, after, emits, tried, more := Iteration(m, t, ms, text, maxToolCalls - attempts, streaming, speak, reply, right, maxIterations - |prompts|, prompts);
    LeavesAfterTurn(Rest(speak, reply, start, "", maxIterations, maxToolCalls), speak, reply, ms, text,
                    maxIterations - |prompts|, maxToolCalls - attempts, emitted, turn, after, emits, tried);
    if turn.Stop? {
      StandingStops(m, right, streaming, start, prompts, ms, attempts, maxIterations, maxToolCalls, turn, after, tried);
    } else {
      StandingGoesOn(m, right, streaming, start, prompts, ms, attempts, maxToolCalls - attempts, turn, after, tried);
    }
    KeptOn(t, prompts, attempts, ran, ms, tried, more);
    attempts', ran' := attempts + tried, ran + more;
  }

  lemma SetsOut(m: Model, right: Judge, streaming: bool, start: Transcript, maxIterations: nat, maxToolCalls: nat, speak: Speaker, reply: Replier)
    ensures Underway(m, right, streaming, start, maxIterations, maxToolCalls, speak, reply, [], start, "", [], 0)
  {
    var rest := Rest(speak, reply, start, "", maxIterations, maxToolCalls);
    assert [] + rest.emitted == rest.emitted;
  }

  lemma KeptOn(t: Tools, prompts: seq<Transcript>, attempts: nat, ran: seq<Invocation>, ms: Transcript, tried: nat, more: seq<Invocation>)
    requires Kept(t, prompts, attempts, ran) && Paired(ms) && |more| <= tried && forall i :: i in more ==> Permitted(t, i.name, i.args)
    ensures Kept(t, prompts + [ms], attempts + tried, ran + more)
  {
  }

  lemma RunsOut(m: Model, right: Judge, streaming: bool, start: Transcript, maxIterations: nat, maxToolCalls: nat, speak: Speaker,
                reply: Replier, prompts: seq<Transcript>, ms: Transcript, text: string, emitted: seq<string>, attempts: nat)
    requires Underway(m, right, streaming, start, maxIterations, maxToolCalls, speak, reply, prompts, ms, text, emitted, attempts)
    requires |prompts| == maxIterations
    ensures Over(m, right, streaming, start, maxIterations, maxToolCalls, speak, reply, prompts, Run(None, emitted))
  {
    StandingRunsOut(m, right, streaming, start, prompts, ms, attempts, maxIterations, maxToolCalls);
    assert emitted + [] == emitted;
  }

  method Loop(m: Model, t: Tools, start: Transcript, maxIterations: nat, maxToolCalls: nat, streaming: bool,
              ghost speak: Speaker, ghost reply: Replier, ghost right: Judge)
    returns (run: Run, prompts: seq<Transcript>, attempts: nat, ran: seq<Invocation>)
    requires SpeaksFor(speak, m, streaming) && RepliesFor(reply, t) && Judges(right, reply)
    requires Paired(start)
    ensures Over(m, right, streaming, start, maxIterations, maxToolCalls, speak, reply, prompts, run)
    ensures attempts <= maxToolCalls && Kept(t, prompts, attempts, ran)
  {
    var ms, text, emitted := start, "", [];
    prompts, attempts, ran := [], 0, [];
    SetsOut(m, right, streaming, start, maxIterations, maxToolCalls, speak, reply);
    for round := 0 to maxIterations
      invariant |prompts| == round && Paired(ms) && Kept(t, prompts, attempts, ran)
      invariant Underway(m, right, streaming, start, maxIterations, maxToolCalls, speak, reply, prompts, ms, text, emitted, attempts)
    {
      var turn, after, emits;
      turn, after, emits, attempts, ran :=
        OneTurn(m, t, streaming, start, maxIterations, maxToolCalls, speak, reply, right, prompts, ms, text, emitted, attempts, ran);
      prompts := prompts + [ms];
      if turn.Stop? {
        return Run(turn.answer, emitted + emits), prompts, attempts, ran;
      }
      ms, text, emitted := turn.ms, after, emitted + emits;
    }
    RunsOut(m, right, streaming, start, maxIterations, maxToolCalls, speak, reply, prompts, ms, text, emitted, attempts);
    return Run(None, emitted), prompts, attempts, ran;
  }

  /**
   * askNative: synchronous without an emitter, streaming with one. Returns the answer and what was
   * emitted, the transcripts the model was called with, how many tool calls were attempted, and the
   * tools that ran.
   */
  method AskNative(m: Model, t: Tools, start: Transcript, maxIterations: nat, maxToolCalls: nat, streaming: bool)
    returns (run: Run, prompts: seq<Transcript>, attempts: nat, ran: seq<Invocation>)
    requires Paired(start)
    ensures run == Rest(Speaking(m, streaming), ReplyOf(t), start, "", maxIterations, maxToolCalls)
    ensures RunMeans(m, RightReply(t), streaming, start, maxIterations, maxToolCalls, prompts, run)
    ensures forall i :: 0 <= i < |prompts| ==> Paired(prompts[i])
    ensures attempts <= maxToolCalls && |ran| <= attempts
    ensures forall i :: i in ran ==> Permitted(t, i.name, i.args)
  {
    RepliesAreRight(t);
    run, prompts, attempts, ran := Loop(m, t, start, maxIterations, maxToolCalls, streaming, Speaking(m, streaming), ReplyOf(t), RightReply(t));
  }

  /** At this place stands what the tool put out, if the call is permitted, the tool ran on what is before, and its end was observed. */
  predicate OutputStands(t: Tools, next: Transcript, place: nat, call: ToolCall, args: Args, text: string)
    requires place < |next|
  {
    var name := Text.TrimSpace(call.name);
    t.decode(call.arguments) == Some(args) && Permitted(t, name, args)
    && t.run(next[..place], name, args) == Output(text) && t.endOk(name, None)
    ==> next[place] == Message(Tool, text, [], call.id)
  }

  /**
   * What the model sees next is what it saw, its own message and one tool message per call; and what a permitted
   * tool put out, run on what stood before its reply, stands there to the letter.
   */
  lemma OutputsReachTheModel(m: Model, t: Tools, streaming: bool, start: Transcript, prompts: seq<Transcript>,
                             i: nat, msg: Message, j: nat, args: Args, text: string)
    requires Chained(m, RightReply(t), streaming, start, prompts) && i + 1 < |prompts|
    requires (if streaming then m.stream(prompts[i]).message else m.generate(prompts[i])) == Some(msg) && j < |msg.toolCalls|
    ensures |prompts[i + 1]| == |prompts[i]| + 1 + |msg.toolCalls| && prompts[i + 1][..|prompts[i]| + 1] == prompts[i] + [msg]
    ensures OutputStands(t, prompts[i + 1], |prompts[i]| + 1 + j, msg.toolCalls[j], args, text)
  {
    RightReplyAt(m, RightReply(t), streaming, start, prompts, i, msg, j);
    RightMeansOutput(t, prompts[i + 1], |prompts[i]| + 1 + j, msg.toolCalls[j], args, text);
  }

  lemma RightReplyAt(m: Model, right: Judge, streaming: bool, start: Transcript, prompts: seq<Transcript>, i: nat, msg: Message, j: nat)
    requires Chained(m, right, streaming, start, prompts) && i + 1 < |prompts|
    requires MessageOf(m, prompts[i], streaming) == Some(msg) && j < |msg.toolCalls|
    ensures |prompts[i + 1]| == |prompts[i]| + 1 + |msg.toolCalls| && prompts[i + 1][..|prompts[i]| + 1] == prompts[i] + [msg]
    ensures right(prompts[i + 1][..|prompts[i]| + 1 + j], msg.toolCalls[j], prompts[i + 1][|prompts[i]| + 1 + j])
  {
    assert FollowsAt(m, right, streaming, prompts, i);
    RepliedAt(right, prompts[i] + [msg], msg.toolCalls, prompts[i + 1], |prompts[i]| + 1, j);
  }

  lemma RepliedAt(right: Judge, ms: Transcript, calls: seq<ToolCall>, after: Transcript, n: nat, j: nat)
    requires Replied(right, ms, calls, after) && n == |ms| && j < |calls|
    ensures |after| == n + |calls| && after[..n] == ms && right(after[..n + j], calls[j], after[n + j])
  {
  }

  lemma RightMeansOutput(t: Tools, next: Transcript, place: nat, call: ToolCall, args: Args, text: string)
    requires place < |next| && RightReply(t)(next[..place], call, next[place])
    ensures OutputStands(t, next, place, call, args, text)
  {
    assert ReplyAt(t, next[..place], call, next[place]);
  }

  // ---------------------------------------------------------------- both forms agree

  lemma {:induction false} ConcatAppend(a: seq<string>, b: seq<string>)
    ensures Concat(a + b) == Concat(a) + Concat(b)
    decreases |b|
  {
    if b == [] {
      assert a + b == a;
    } else {
      assert (a + b)[..|a + b| - 1] == a + b[..|b| - 1];
      ConcatAppend(a, b[..|b| - 1]);
    }
  }

  lemma ConcatOne(chunk: string)
    ensures Concat([chunk]) == chunk
  {
    assert [chunk][..0] == [];
  }

  lemma RoundEmitsText(answer: string, chunks: seq<string>)
    ensures StreamText(answer, chunks) == answer + Concat(RoundEmits(answer, chunks))
  {
    if chunks == [] {
      assert answer + "" == answer;
    } else if answer == "" || EndsLine(answer) {
      assert [] + chunks == chunks;
    } else {
      ConcatAppend(["\n"], chunks);
      ConcatOne("\n");
      Text.Assoc(answer, "\n", Concat(chunks));
    }
  }

  /** What the streaming form emits is, put together, exactly the answer it builds. */
  lemma {:induction false} EmitsAreTheAnswer(m: Model, reply: Replier, ms: Transcript, text: string, rounds: nat, budget: nat)
    requires Rest(Speaking(m, true), reply, ms, text, rounds, budget).answer.Some?
    ensures var run := Rest(Speaking(m, true), reply, ms, text, rounds, budget);
            run.answer.value == text + Concat(run.emitted)
    decreases rounds
  {
    var r := RoundOf(m, ms, text, true);
    RoundEmitsText(text, m.stream(ms).chunks);
    var msg := r.message.value;
    if msg.toolCalls != [] {
      var next, left := Continue(reply, ms, msg, budget).value, budget - |msg.toolCalls|;
      RestContinues(Speaking(m, true), reply, ms, text, rounds, budget, msg);
      EmitsAreTheAnswer(m, reply, next, r.text, rounds - 1, left);
      EmitsTogether(text, r, Rest(Speaking(m, true), reply, next, r.text, rounds - 1, left));
    }
  }

  lemma EmitsTogether(text: string, r: Round, rest: Run)
    requires r.text == text + Concat(r.emits)
    requires rest.answer.Some? && rest.answer.value == r.text + Concat(rest.emitted)
    ensures Emitting(r.emits, rest).answer.value == text + Concat(Emitting(r.emits, rest).emitted)
  {
    ConcatAppend(r.emits, rest.emitted);
    Text.Assoc(text, Concat(r.emits), Concat(rest.emitted));
  }

  /** The model streams what it generates: the same message, and chunks that make up its content. */
  ghost predicate Faithful(m: Model) {
    forall ms: Transcript :: FaithfulAt(m, ms)
  }

  ghost predicate FaithfulAt(m: Model, ms: Transcript) {
    && m.stream(ms).message == m.generate(ms)
    && (m.generate(ms).Some? ==> Concat(m.stream(ms).chunks) == m.generate(ms).value.content)
  }

  /** And it does not stream chunks when it has no content. */
  ghost predicate SilentWhenEmpty(m: Model) {
    forall ms: Transcript :: SilentAt(m, ms)
  }

  ghost predicate SilentAt(m: Model, ms: Transcript) {
    m.generate(ms).Some? && m.generate(ms).value.content == "" ==> m.stream(ms).chunks == []
  }

  /**
   * Whether the streamed text has a line break that the synchronous text still lacks: chunks came in a
   * round without content, after text that did not end its line, and nothing was said since.
   */
  predicate DanglingRound(m: Model, ms: Transcript, text: string, dangling: bool, content: string) {
    content == "" && (dangling || (m.stream(ms).chunks != [] && OpenLine(text)))
  }

  function Dangling(m: Model, reply: Replier, ms: Transcript, text: string, dangling: bool, rounds: nat, budget: nat): bool
    decreases rounds
  {
    if rounds == 0 then dangling
    else match m.generate(ms)
      case None => dangling
      case Some(msg) =>
        var now := DanglingRound(m, ms, text, dangling, msg.content);
        if msg.toolCalls == [] then now
        else match Continue(reply, ms, msg, budget)
          case None => now
          case Some(next) =>
            Dangling(m, reply, next, SyncText(text, msg.content), now, rounds - 1, budget - |msg.toolCalls|)
  }

  function WithBreak(text: string, dangling: bool): string {
    if dangling then text + "\n" else text
  }

  lemma RoundAgrees(text: string, dangling: bool, chunks: seq<string>)
    requires dangling ==> OpenLine(text)
    ensures var content := Concat(chunks);
            var now := content == "" && (dangling || (chunks != [] && OpenLine(text)));
            && StreamText(WithBreak(text, dangling), chunks) == WithBreak(SyncText(text, content), now)
            && (now ==> OpenLine(SyncText(text, content)))
  {
    assert EndsLine(text + "\n");
    if chunks != [] { assert StartRound(text) + "" == StartRound(text); }
  }

  /** The streamed run is the synchronous one, up to a line break left dangling. */
  predicate AgreesUpTo(sync: Run, stream: Run, dangling: bool) {
    && (sync.answer.None? <==> stream.answer.None?)
    && (sync.answer.Some? ==> stream.answer.value == WithBreak(sync.answer.value, dangling))
  }

  /** From here on the two forms end alike, up to a line break left dangling. */
  ghost predicate Alike(m: Model, reply: Replier, ms: Transcript, text: string, dangling: bool, rounds: nat, budget: nat) {
    AgreesUpTo(Rest(Speaking(m, false), reply, ms, text, rounds, budget),
               Rest(Speaking(m, true), reply, ms, WithBreak(text, dangling), rounds, budget),
               Dangling(m, reply, ms, text, dangling, rounds, budget))
  }

  /**
   * For every faithful model, the streamed answer is the synchronous one, with one more line break
   * exactly when one is left dangling.
   */
  lemma {:induction false} StreamIsSync(m: Model, reply: Replier, ms: Transcript, text: string, dangling: bool, rounds: nat, budget: nat)
    requires Faithful(m)
    requires dangling ==> OpenLine(text)
    ensures Alike(m, reply, ms, text, dangling, rounds, budget)
    decreases rounds
  {
    assert FaithfulAt(m, ms);
    if GoesOn(m, reply, ms, rounds, budget) {
      var msg := m.generate(ms).value;
      var next, now := SyncText(text, msg.content), DanglingRound(m, ms, text, dangling, msg.content);
      DanglingIsOpen(m, ms, text, dangling);
      StreamIsSync(m, reply, Continue(reply, ms, msg, budget).value, next, now, rounds - 1, budget - |msg.toolCalls|);
      AlikeGoesOn(m, reply, ms, text, dangling, rounds, budget);
    } else {
      AlikeEnds(m, reply, ms, text, dangling, rounds, budget);
    }
  }

  /** A line break is left dangling only after text that does not end its line. */
  lemma DanglingIsOpen(m: Model, ms: Transcript, text: string, dangling: bool)
    requires FaithfulAt(m, ms) && m.generate(ms).Some?
    requires dangling ==> OpenLine(text)
    ensures var content := m.generate(ms).value.content;
            DanglingRound(m, ms, text, dangling, content) ==> OpenLine(SyncText(text, content))
  {
    RoundAgrees(text, dangling, m.stream(ms).chunks);
  }

  /** Another round follows this one. */
  predicate GoesOn(m: Model, reply: Replier, ms: Transcript, rounds: nat, budget: nat) {
    rounds > 0 && m.generate(ms).Some? && m.generate(ms).value.toolCalls != []
    && Continue(reply, ms, m.generate(ms).value, budget).Some?
  }

  lemma AlikeEnds(m: Model, reply: Replier, ms: Transcript, text: string, dangling: bool, rounds: nat, budget: nat)
    requires FaithfulAt(m, ms) && !GoesOn(m, reply, ms, rounds, budget)
    requires dangling ==> OpenLine(text)
    ensures Alike(m, reply, ms, text, dangling, rounds, budget)
  {
    RoundAgrees(text, dangling, m.stream(ms).chunks);
  }

  lemma AlikeGoesOn(m: Model, reply: Replier, ms: Transcript, text: string, dangling: bool, rounds: nat, budget: nat)
    requires FaithfulAt(m, ms) && GoesOn(m, reply, ms, rounds, budget)
    requires dangling ==> OpenLine(text)
    requires var msg := m.generate(ms).value;
             Alike(m, reply, Continue(reply, ms, msg, budget).value, SyncText(text, msg.content),
                   DanglingRound(m, ms, text, dangling, msg.content), rounds - 1, budget - |msg.toolCalls|)
    ensures Alike(m, reply, ms, text, dangling, rounds, budget)
  {
    var msg := m.generate(ms).value;
    var next, now, left := SyncText(text, msg.content), DanglingRound(m, ms, text, dangling, msg.content), budget - |msg.toolCalls|;
    var after := Continue(reply, ms, msg, budget).value;
    var sync, stream := Speaking(m, false), Speaking(m, true);
    assert Rest(sync, reply, ms, text, rounds, budget) == Emitting([], Rest(sync, reply, after, next, rounds - 1, left)) by {
      RestContinues(sync, reply, ms, text, rounds, budget, msg);
    }
    var emits := StreamContinues(m, reply, ms, text, dangling, rounds, budget, msg);
    DanglingContinues(m, reply, ms, text, dangling, rounds, budget, msg, after, now, left);
    EmittingAgrees([], Rest(sync, reply, after, next, rounds - 1, left), emits,
                   Rest(stream, reply, after, WithBreak(next, now), rounds - 1, left),
                   Dangling(m, reply, after, next, now, rounds - 1, left));
  }

  /** The streamed form of the round carries the break that dangles after it. */
  lemma StreamContinues(m: Model, reply: Replier, ms: Transcript, text: string, dangling: bool, rounds: nat, budget: nat, msg: Message)
    returns (emits: seq<string>)
    requires FaithfulAt(m, ms) && rounds > 0 && m.generate(ms) == Some(msg) && msg.toolCalls != []
    requires Continue(reply, ms, msg, budget).Some? && (dangling ==> OpenLine(text))
    ensures Rest(Speaking(m, true), reply, ms, WithBreak(text, dangling), rounds, budget)
         == Emitting(emits, Rest(Speaking(m, true), reply, Continue(reply, ms, msg, budget).value,
                                 WithBreak(SyncText(text, msg.content), DanglingRound(m, ms, text, dangling, msg.content)),
                                 rounds - 1, budget - |msg.toolCalls|))
  {
    RoundAgrees(text, dangling, m.stream(ms).chunks);
    RestContinues(Speaking(m, true), reply, ms, WithBreak(text, dangling), rounds, budget, msg);
    emits := RoundOf(m, ms, WithBreak(text, dangling), true).emits;
  }

  lemma EmittingAgrees(a: seq<string>, sync: Run, b: seq<string>, stream: Run, dangling: bool)
    requires AgreesUpTo(sync, stream, dangling)
    ensures AgreesUpTo(Emitting(a, sync), Emitting(b, stream), dangling)
  {
  }

  /** Asking and streaming give the same text to the letter exactly when no line break is left dangling. */
  lemma AgreeExactly(m: Model, reply: Replier, ms: Transcript, rounds: nat, budget: nat)
    requires Faithful(m) && Rest(Speaking(m, false), reply, ms, "", rounds, budget).answer.Some?
    ensures Rest(Speaking(m, true), reply, ms, "", rounds, budget).answer.Some?
    ensures Concat(Rest(Speaking(m, true), reply, ms, "", rounds, budget).emitted) == Rest(Speaking(m, false), reply, ms, "", rounds, budget).answer.value
       <==> !Dangling(m, reply, ms, "", false, rounds, budget)
  {
    StreamIsSync(m, reply, ms, "", false, rounds, budget);
    EmitsAreTheAnswer(m, reply, ms, "", rounds, budget);
    var emits := Concat(Rest(Speaking(m, true), reply, ms, "", rounds, budget).emitted);
    assert "" + emits == emits;
  }

  /** A model that streams no chunk without content never leaves one dangling. */
  lemma {:induction false} NeverDangling(m: Model, reply: Replier, ms: Transcript, text: string, rounds: nat, budget: nat)
    requires SilentWhenEmpty(m)
    ensures NothingDangles(m, reply, ms, text, rounds, budget)
    decreases rounds
  {
    assert SilentAt(m, ms);
    if GoesOn(m, reply, ms, rounds, budget) {
      var msg, next, left := NextRound(m, reply, ms, rounds, budget);
      NeverDangling(m, reply, next, SyncText(text, msg.content), rounds - 1, left);
      NothingDanglesOn(m, reply, ms, text, rounds, budget, msg, next, left);
    } else {
      DanglingEnds(m, reply, ms, text, rounds, budget);
    }
  }

  predicate NothingDangles(m: Model, reply: Replier, ms: Transcript, text: string, rounds: nat, budget: nat) {
    !Dangling(m, reply, ms, text, false, rounds, budget)
  }

  /** What the next round starts with. */
  lemma NextRound(m: Model, reply: Replier, ms: Transcript, rounds: nat, budget: nat) returns (msg: Message, next: Transcript, left: nat)
    requires GoesOn(m, reply, ms, rounds, budget)
    ensures rounds > 0 && m.generate(ms) == Some(msg) && msg.toolCalls != []
    ensures Continue(reply, ms, msg, budget) == Some(next) && left == budget - |msg.toolCalls|
  {
    msg := m.generate(ms).value;
    next, left := Continue(reply, ms, msg, budget).value, budget - |msg.toolCalls|;
  }

  lemma NothingDanglesOn(m: Model, reply: Replier, ms: Transcript, text: string, rounds: nat, budget: nat, msg: Message, next: Transcript, left: nat)
    requires SilentAt(m, ms) && rounds > 0 && m.generate(ms) == Some(msg) && msg.toolCalls != []
    requires Continue(reply, ms, msg, budget) == Some(next) && left == budget - |msg.toolCalls|
    requires NothingDangles(m, reply, next, SyncText(text, msg.content), rounds - 1, left)
    ensures NothingDangles(m, reply, ms, text, rounds, budget)
  {
    SilentRound(m, ms, text, msg);
    DanglingContinues(m, reply, ms, text, false, rounds, budget, msg, next, DanglingRound(m, ms, text, false, msg.content), left);
  }

  lemma SilentRound(m: Model, ms: Transcript, text: string, msg: Message)
    requires SilentAt(m, ms) && m.generate(ms) == Some(msg)
    ensures !DanglingRound(m, ms, text, false, msg.content)
  {
  }

  lemma DanglingEnds(m: Model, reply: Replier, ms: Transcript, text: string, rounds: nat, budget: nat)
    requires SilentAt(m, ms) && !GoesOn(m, reply, ms, rounds, budget)
    ensures NothingDangles(m, reply, ms, text, rounds, budget)
  {
  }

  lemma DanglingContinues(m: Model, reply: Replier, ms: Transcript, text: string, dangling: bool, rounds: nat, budget: nat, msg: Message,
                          next: Transcript, now: bool, left: nat)
    requires rounds > 0 && m.generate(ms) == Some(msg) && msg.toolCalls != [] && Continue(reply, ms, msg, budget) == Some(next)
    requires now == DanglingRound(m, ms, text, dangling, msg.content) && left == budget - |msg.toolCalls|
    ensures Dangling(m, reply, ms, text, dangling, rounds, budget)
         == Dangling(m, reply, next, SyncText(text, msg.content), now, rounds - 1, left)
  {
  }

  /**
   * The promise of the streaming form: for a model whose chunks make up its content and that streams
   * no chunk without content, the emitted chunks make up exactly the synchronous answer.
   */
  lemma StreamedChunksMakeTheAnswer(m: Model, reply: Replier, ms: Transcript, rounds: nat, budget: nat)
    requires Faithful(m) && SilentWhenEmpty(m)
    ensures var sync, stream := Rest(Speaking(m, false), reply, ms, "", rounds, budget), Rest(Speaking(m, true), reply, ms, "", rounds, budget);
            && (sync.answer.None? <==> stream.answer.None?)
            && (sync.answer.Some? ==> Concat(stream.emitted) == sync.answer.value)
  {
    StreamIsSync(m, reply, ms, "", false, rounds, budget);
    NeverDangling(m, reply, ms, "", rounds, budget);
    if Rest(Speaking(m, false), reply, ms, "", rounds, budget).answer.Some? {
      AgreeExactly(m, reply, ms, rounds, budget);
    }
  }

  // ---------------------------------------------------------------- a model that leaves one dangling

  function First(): Message {
    Message(Assistant, "a", [ToolCall("", "", "")], "")
  }

  function Last(): Message {
    Message(Assistant, "", [], "")
  }

  /** Says "a" to the transcript it starts with and asks for a tool, then streams one empty chunk and stops. */
  function Stutter(start: Transcript): Model {
    Model((ms: Transcript) => Some(if |ms| <= |start| then First() else Last()),
          (ms: Transcript) => if |ms| <= |start| then Streamed(["a"], Some(First())) else Streamed([""], Some(Last())))
  }

  /**
   * One empty chunk is enough to tell the two forms apart: from any transcript, with any tools that
   * decode blank arguments as the program does, and any limits that allow two rounds and one call.
   */
  lemma EmptyChunkAddsALineBreak(t: Tools, start: Transcript, maxIterations: nat, maxToolCalls: nat)
    requires t.decode("").Some? && maxIterations >= 2 && maxToolCalls >= 1
    ensures Faithful(Stutter(start))
    ensures Rest(Speaking(Stutter(start), false), ReplyOf(t), start, "", maxIterations, maxToolCalls).answer == Some("a")
    ensures Concat(Rest(Speaking(Stutter(start), true), ReplyOf(t), start, "", maxIterations, maxToolCalls).emitted) == "a\n"
  {
    assert ReplyOf(t)(start + [First()], ToolCall("", "", "")).Some? by { NamelessCallIsAnswered(t, start + [First()]); }
    StutterDiffers(ReplyOf(t), start, maxIterations, maxToolCalls);
  }

  lemma NamelessCallIsAnswered(t: Tools, ms: Transcript)
    requires t.decode("").Some?
    ensures NativeResult(t, ms, ToolCall("", "", "")).Some?
  {
    NothingTrims();
    BlankNameIsAnswered(t, ms, ToolCall("", "", ""));
  }

  lemma BlankNameIsAnswered(t: Tools, ms: Transcript, call: ToolCall)
    requires t.decode(call.arguments).Some? && Text.TrimSpace(call.name) == ""
    ensures NativeResult(t, ms, call).Some?
  {
    assert Execute(t, ms, call.name, t.decode(call.arguments).value) == Failure(NameMissing);
  }

  lemma NothingTrims()
    ensures Text.TrimSpace("") == ""
  {
  }

  lemma StutterDiffers(reply: Replier, start: Transcript, rounds: nat, budget: nat)
    requires reply(start + [First()], ToolCall("", "", "")).Some? && rounds >= 2 && budget >= 1
    ensures Faithful(Stutter(start))
    ensures Rest(Speaking(Stutter(start), false), reply, start, "", rounds, budget).answer == Some("a")
    ensures Concat(Rest(Speaking(Stutter(start), true), reply, start, "", rounds, budget).emitted) == "a\n"
  {
    var m := Stutter(start);
    StutterIsFaithful(start);
    StutterAsksOnce(reply, start, budget);
    StutterSays(reply, start, rounds, budget);
    StutterDangles(reply, start, rounds, budget);
    StreamIsSync(m, reply, start, "", false, rounds, budget);
    EmitsAreTheAnswer(m, reply, start, "", rounds, budget);
    var emits := Concat(Rest(Speaking(m, true), reply, start, "", rounds, budget).emitted);
    assert "" + emits == emits;
  }

  lemma StutterIsFaithful(start: Transcript)
    ensures Faithful(Stutter(start))
  {
    ConcatOne("a");
    ConcatOne("");
    forall ms: Transcript ensures FaithfulAt(Stutter(start), ms) {}
  }

  lemma StutterAsksOnce(reply: Replier, start: Transcript, budget: nat)
    requires reply(start + [First()], ToolCall("", "", "")).Some? && budget >= 1
    ensures Continue(reply, start, First(), budget).Some? && |Continue(reply, start, First(), budget).value| > |start|
  {
    assert First().toolCalls[1..] == [];
    var replies := AfterCallsReplies(reply, start + [First()], First().toolCalls, budget);
  }

  /** What it answers when it is asked without streaming. */
  lemma StutterSays(reply: Replier, start: Transcript, rounds: nat, budget: nat)
    requires rounds >= 2 && budget >= 1
    requires Continue(reply, start, First(), budget).Some? && |Continue(reply, start, First(), budget).value| > |start|
    ensures Rest(Speaking(Stutter(start), false), reply, start, "", rounds, budget).answer == Some("a")
  {
    var speak, next := Speaking(Stutter(start), false), Continue(reply, start, First(), budget).value;
    assert SyncText("", "a") == "a" by { assert "" + "a" == "a"; }
    RestContinues(speak, reply, start, "", rounds, budget, First());
    assert Rest(speak, reply, next, "a", rounds - 1, budget - 1).answer == Some("a");
  }

  lemma StutterDangles(reply: Replier, start: Transcript, rounds: nat, budget: nat)
    requires rounds >= 2 && budget >= 1
    requires Continue(reply, start, First(), budget).Some? && |Continue(reply, start, First(), budget).value| > |start|
    ensures Dangling(Stutter(start), reply, start, "", false, rounds, budget)
  {
    var m, next := Stutter(start), Continue(reply, start, First(), budget).value;
    assert SyncText("", "a") == "a" by { assert "" + "a" == "a"; }
    DanglingContinues(m, reply, start, "", false, rounds, budget, First(), next, false, budget - 1);
    assert DanglingRound(m, next, "a", false, "");
  }
}
