/**
 * Governed provider calls: the retry loops around the breaker's reservations, the limiter's wait, the
 * provider call and the backoff. What the provider, the governor and the clock do is the script; what
 * the loop does is its log. Durations are nanoseconds.
 */
module Resilience {
  import opened Sequences
  import opened Breaker
  import Text

  datatype Governance = Governance(retryMaxAttempts: int, retryBaseDelay: int, retryMaxDelay: int)

  /** What the configuration check lets through. */
  predicate ValidGovernance(cfg: Governance) {
    cfg.retryMaxAttempts > 0 && cfg.retryBaseDelay > 0 && cfg.retryMaxDelay > 0
  }

  predicate ShouldRetry(c: ErrorClass) {
    c.Transient? || c.RateLimit?
  }

  // ---------------------------------------------------------------- backoff

  function Doubled(base: int, k: nat): int {
    if k == 0 then base else 2 * Doubled(base, k - 1)
  }

  /** The smallest wait allowed before retry number `attempt`. */
  function LeastWait(cfg: Governance, attempt: nat): int
    requires attempt > 0
  {
    Min(Doubled(cfg.retryBaseDelay, attempt - 1), cfg.retryMaxDelay)
  }

  lemma {:induction false} DoubledGrows(base: int, j: nat, k: nat)
    requires base > 0 && j <= k
    ensures 0 < Doubled(base, j) <= Doubled(base, k)
    decreases k
  {
    if j < k {
      DoubledGrows(base, j, k - 1);
    } else if k > 0 {
      DoubledGrows(base, k - 1, k - 1);
    }
  }

  /** The delay before jitter: doubled once per earlier attempt, stopped at the maximum once it passes it. */
  method BackoffDelay(cfg: Governance, attempt: nat) returns (delay: int)
    requires ValidGovernance(cfg) && attempt > 0
    ensures delay == if attempt == 1 then cfg.retryBaseDelay else LeastWait(cfg, attempt)
    ensures delay > 0
  {
    delay := cfg.retryBaseDelay;
    var i := 1;
    while i < attempt
      invariant 1 <= i <= attempt
      invariant delay == Doubled(cfg.retryBaseDelay, i - 1) && delay > 0
      invariant i > 1 ==> delay <= cfg.retryMaxDelay
    {
      delay := delay * 2;
      if delay > cfg.retryMaxDelay {
        delay := cfg.retryMaxDelay;
        DoubledGrows(cfg.retryBaseDelay, i, attempt - 1);
        return;
      }
      i := i + 1;
    }
  }

  /** The time slept before retrying after `attempt`, for a random `jitter`. */
  method BackoffWait(cfg: Governance, attempt: nat, jitter: int) returns (wait: int)
    requires ValidGovernance(cfg) && attempt > 0 && jitter >= 0
    ensures LeastWait(cfg, attempt) <= wait <= cfg.retryMaxDelay
    ensures wait == Min((if attempt == 1 then cfg.retryBaseDelay else LeastWait(cfg, attempt)) + jitter, cfg.retryMaxDelay)
  {
    var delay := BackoffDelay(cfg, attempt);
    wait := Min(delay + jitter, cfg.retryMaxDelay);
  }

  // ---------------------------------------------------------------- the script and the log

  /** What acquiring the governor comes to. */
  datatype Acquired =
    | CircuitRefused
    | WaitCut(reserved: bool)    // the context ended in the limiter's wait
    | Ready(reserved: bool)      // `reserved`: there is a breaker, and it granted a reservation

  /** One attempt: the governor, the provider's answer, and the backoff after it. */
  datatype Attempt = Attempt(
    acquired: Acquired,
    chunks: seq<string>,
    error: ErrorClass,
    jitter: int,
    sleepCut: bool)

  datatype Action =
    | Reserved
    | Aborted
    | Called(chunks: seq<string>, error: ErrorClass)
    | Settled(error: ErrorClass)
    | Slept(attempt: nat, wait: int)
    | SleepCut(attempt: nat)
    | Traced(attempts: nat)

  datatype Outcome = AcquireFailed | Answered(error: ErrorClass) | BackoffCut

  /** Some chunk of the stream is not blank. */
  predicate Visible(chunks: seq<string>) {
    exists i :: 0 <= i < |chunks| && !Text.AllSpace(chunks[i])
  }

  function AcquireLog(a: Acquired): seq<Action> {
    match a
    case CircuitRefused => []
    case WaitCut(reserved) => if reserved then [Reserved, Aborted] else []
    case Ready(reserved) => if reserved then [Reserved] else []
  }

  function CallLog(a: Attempt): seq<Action>
    requires a.acquired.Ready?
  {
    AcquireLog(a.acquired) + [Called(a.chunks, a.error)] + (if a.acquired.reserved then [Settled(a.error)] else [])
  }

  /** The loop ends with this answer: nothing to retry, or nothing that may be retried. */
  predicate Final(cfg: Governance, streaming: bool, a: Attempt, attempt: nat) {
    a.error.NoError? || (streaming && Visible(a.chunks)) || !ShouldRetry(a.error) || attempt == cfg.retryMaxAttempts
  }

  function WaitOf(cfg: Governance, attempt: nat, jitter: int): int
    requires attempt > 0
  {
    Min((if attempt == 1 then cfg.retryBaseDelay else LeastWait(cfg, attempt)) + jitter, cfg.retryMaxDelay)
  }

  /** What acquiring and calling add to the log. */
  function Lead(a: Attempt): seq<Action> {
    if a.acquired.Ready? then CallLog(a) else AcquireLog(a.acquired)
  }

  /** How an attempt is concluded: with the loop's trace, or with the backoff before the next one. */
  function Conclusion(cfg: Governance, streaming: bool, a: Attempt, attempt: nat): Action
    requires attempt > 0
  {
    if !a.acquired.Ready? || Final(cfg, streaming, a, attempt) then Traced(attempt)
    else if a.sleepCut then SleepCut(attempt)
    else Slept(attempt, WaitOf(cfg, attempt, a.jitter))
  }

  /** What one attempt adds to the log. */
  function AttemptLog(cfg: Governance, streaming: bool, a: Attempt, attempt: nat): seq<Action>
    requires attempt > 0
  {
    Lead(a) + [Conclusion(cfg, streaming, a, attempt)]
  }

  predicate GoesOn(cfg: Governance, streaming: bool, a: Attempt, attempt: nat) {
    a.acquired.Ready? && !Final(cfg, streaming, a, attempt) && !a.sleepCut
  }

  /** What the loop does from attempt number `attempt` on. */
  function Log(cfg: Governance, streaming: bool, script: seq<Attempt>, attempt: nat): seq<Action>
    requires 1 <= attempt <= cfg.retryMaxAttempts && |script| == cfg.retryMaxAttempts
    decreases cfg.retryMaxAttempts - attempt
  {
    var a := script[attempt - 1];
    if GoesOn(cfg, streaming, a, attempt)
    then AttemptLog(cfg, streaming, a, attempt) + Log(cfg, streaming, script, attempt + 1)
    else AttemptLog(cfg, streaming, a, attempt)
  }

  /** How the loop ends when it ends with this attempt. */
  function EndOf(a: Attempt, final: bool): Outcome {
    if !a.acquired.Ready? then AcquireFailed else if final then Answered(a.error) else BackoffCut
  }

  /** How the loop ends. */
  function OutcomeOf(cfg: Governance, streaming: bool, script: seq<Attempt>, attempt: nat): Outcome
    requires 1 <= attempt <= cfg.retryMaxAttempts && |script| == cfg.retryMaxAttempts
    decreases cfg.retryMaxAttempts - attempt
  {
    var a := script[attempt - 1];
    if GoesOn(cfg, streaming, a, attempt) then OutcomeOf(cfg, streaming, script, attempt + 1)
    else EndOf(a, Final(cfg, streaming, a, attempt))
  }

  ghost predicate ValidScript(cfg: Governance, script: seq<Attempt>) {
    && ValidGovernance(cfg)
    && |script| == cfg.retryMaxAttempts
    && forall i :: 0 <= i < |script| ==> script[i].jitter >= 0
  }

  /** Acquire, then, unless that failed, call the provider and settle the reservation. */
  method AcquireAndCall(a: Attempt) returns (log: seq<Action>, ok: bool)
    ensures ok == a.acquired.Ready?
    ensures log == Lead(a)
    ensures Disciplined(log) && Count(log, IsReserve()) <= 1
    ensures Count(log, IsCall()) == if ok then 1 else 0
  {
    AcquireIsDisciplined(a);
    log := [];
    match a.acquired {
      case CircuitRefused => return log, false;
      case WaitCut(reserved) =>
        if reserved { log := log + [Reserved]; log := log + [Aborted]; }
        return log, false;
      case Ready(reserved) =>
        if reserved { log := log + [Reserved]; }
        log := log + [Called(a.chunks, a.error)];
        if reserved { log := log + [Settled(a.error)]; }
        return log, true;
    }
  }

  /** Some chunk was not blank: what the stream's emit wrapper remembers. */
  method ChunkSeen(chunks: seq<string>) returns (seen: bool)
    ensures seen == Visible(chunks)
  {
    seen := false;
    for i := 0 to |chunks|
      invariant seen <==> exists j :: 0 <= j < i && !Text.AllSpace(chunks[j])
    {
      Text.BlankIsAllSpace(chunks[i]);
      if Text.TrimSpace(chunks[i]) != "" { seen := true; }
    }
  }

  /** One attempt; there is no outcome yet when the loop goes on. */
  method Try(cfg: Governance, streaming: bool, a: Attempt, attempts: nat) returns (part: seq<Action>, outcome: Option<Outcome>)
    requires ValidGovernance(cfg) && attempts > 0 && a.jitter >= 0
    ensures part == AttemptLog(cfg, streaming, a, attempts)
    ensures outcome == if GoesOn(cfg, streaming, a, attempts) then None else Some(EndOf(a, Final(cfg, streaming, a, attempts)))
  {
    var ok;
    part, ok := AcquireAndCall(a);
    if !ok {
      return part + [Traced(attempts)], Some(AcquireFailed);
    }
    var chunkSeen := false;
    if streaming {
      chunkSeen := ChunkSeen(a.chunks);
    }
    if a.error.NoError? || chunkSeen || !ShouldRetry(a.error) || attempts == cfg.retryMaxAttempts {
      return part + [Traced(attempts)], Some(Answered(a.error));
    }
    if a.sleepCut {
      return part + [SleepCut(attempts)], Some(BackoffCut);
    }
    var wait := BackoffWait(cfg, attempts, a.jitter);
    return part + [Slept(attempts, wait)], None;
  }

  /**
   * The loop of generate, embedding and web search, and, with `streaming`, the loop of stream, where
   * the answer is final once a visible chunk went out.
   */
  method Call(cfg: Governance, streaming: bool, script: seq<Attempt>) returns (log: seq<Action>, outcome: Outcome)
    requires ValidScript(cfg, script)
    ensures log == Log(cfg, streaming, script, 1) && outcome == OutcomeOf(cfg, streaming, script, 1)
    ensures RunsAsPromised(cfg, streaming, script, log, outcome)
  {
    log, outcome := Attempts(cfg, streaming, script);
    LogMeans(cfg, streaming, script);
  }

  /** The loop over the attempts. */
  method Attempts(cfg: Governance, streaming: bool, script: seq<Attempt>) returns (log: seq<Action>, outcome: Outcome)
    requires ValidScript(cfg, script)
    ensures log == Log(cfg, streaming, script, 1) && outcome == OutcomeOf(cfg, streaming, script, 1)
  {
    log := [];
    var attempts := 1;
    ghost var whole, end := Log(cfg, streaming, script, 1), OutcomeOf(cfg, streaming, script, 1);
    while true
      invariant 1 <= attempts <= cfg.retryMaxAttempts
      invariant whole == log + Log(cfg, streaming, script, attempts)
      invariant end == OutcomeOf(cfg, streaming, script, attempts)
      decreases cfg.retryMaxAttempts - attempts
    {
      LogFrom(cfg, streaming, script, attempts, log);
      var part, done := Try(cfg, streaming, script[attempts - 1], attempts);
      log := log + part;
      if done.Some? {
        return log, done.value;
      }
      attempts := attempts + 1;
    }
  }

  lemma LogFrom(cfg: Governance, streaming: bool, script: seq<Attempt>, attempt: nat, before: seq<Action>)
    requires 1 <= attempt <= cfg.retryMaxAttempts && |script| == cfg.retryMaxAttempts
    ensures var a := script[attempt - 1];
            before + Log(cfg, streaming, script, attempt)
            == (before + AttemptLog(cfg, streaming, a, attempt))
               + (if GoesOn(cfg, streaming, a, attempt) then Log(cfg, streaming, script, attempt + 1) else [])
  {
  }

  // ---------------------------------------------------------------- how many attempts, and how it ends

  /** The backbone of a log: its calls and the backoffs between them. */
  function Spine(log: seq<Action>): seq<Action> {
    if log == [] then []
    else Spine(log[..|log| - 1]) +
         (var x := log[|log| - 1]; if x.Called? || x.Slept? || x.SleepCut? then [x] else [])
  }

  lemma {:induction false} SpineConcat(a: seq<Action>, b: seq<Action>)
    ensures Spine(a + b) == Spine(a) + Spine(b)
    decreases |b|
  {
    if b == [] {
      assert a + b == a;
    } else {
      assert (a + b)[..|a + b| - 1] == a + b[..|b| - 1];
      SpineConcat(a, b[..|b| - 1]);
    }
  }

  lemma SpineOne(log: seq<Action>, x: Action)
    ensures Spine(log + [x]) == Spine(log) + (if x.Called? || x.Slept? || x.SleepCut? then [x] else [])
  {
    assert (log + [x])[..|log|] == log;
  }

  /** The provider was called, it failed in a way that may pass, and nothing of an answer went out. */
  predicate MayPass(streaming: bool, a: Attempt) {
    a.acquired.Ready? && (a.error == Transient || a.error == RateLimit)
    && !(streaming && exists i :: 0 <= i < |a.chunks| && !Text.AllSpace(a.chunks[i]))
  }

  /** The backbone of the attempts from number `first` to number `n`: each but the last is called and slept after. */
  ghost predicate Backbone(script: seq<Attempt>, spine: seq<Action>, first: nat, n: nat)
    requires 1 <= first <= n <= |script|
  {
    var last := script[n - 1];
    && |spine| >= 2 * (n - first)
    && (forall k :: 0 <= k < n - first ==>
          && spine[2 * k] == Called(script[first - 1 + k].chunks, script[first - 1 + k].error)
          && spine[2 * k + 1].Slept? && spine[2 * k + 1].attempt == first + k)
    && (last.acquired.Ready? ==> |spine| > 2 * (n - first) && spine[2 * (n - first)] == Called(last.chunks, last.error))
    && (!last.acquired.Ready? ==> |spine| == 2 * (n - first))
  }

  /** The breaker granted a reservation to this attempt. */
  function HasReservation(): Attempt -> bool {
    (a: Attempt) => !a.acquired.CircuitRefused? && a.acquired.reserved
  }

  /** The log notes the reservations of exactly these attempts. */
  ghost predicate NotesReservations(script: seq<Attempt>, log: seq<Action>, first: nat, n: nat)
    requires 1 <= first <= n <= |script|
  {
    Count(log, IsReserve()) == Count(script[first - 1..n], HasReservation())
  }

  /** How the attempts from number `first` on go: they end at number `n`. */
  ghost predicate EndsAt(cfg: Governance, streaming: bool, script: seq<Attempt>, log: seq<Action>, outcome: Outcome, first: nat, n: nat)
    requires 1 <= first <= n <= |script|
  {
    var last := script[n - 1];
    && (forall k :: first - 1 <= k < n - 1 ==> MayPass(streaming, script[k]) && !script[k].sleepCut)
    && Backbone(script, Spine(log), first, n)
    && log != [] && log[|log| - 1] == (if outcome.BackoffCut? then SleepCut(n) else Traced(n))
    && (outcome.AcquireFailed? <==> !last.acquired.Ready?)
    && (outcome.BackoffCut? <==> MayPass(streaming, last) && n < cfg.retryMaxAttempts && last.sleepCut)
    && (outcome.Answered? ==> outcome.error == last.error && (n == cfg.retryMaxAttempts || !MayPass(streaming, last)))
  }

  /**
   * A governed call makes `n` attempts. Every attempt before the last one called the provider, got a
   * transient or a rate-limit failure with nothing visible sent, and was slept after; the last one could not acquire,
   * or was cut in its backoff, or its call's class is the answer, because it is final or the attempts are used up.
   */
  ghost predicate CallMeans(cfg: Governance, streaming: bool, script: seq<Attempt>, log: seq<Action>, outcome: Outcome, n: nat) {
    && 1 <= n <= cfg.retryMaxAttempts == |script|
    && EndsAt(cfg, streaming, script, log, outcome, 1, n) && NotesReservations(script, log, 1, n)
  }

  ghost predicate RunsAsPromised(cfg: Governance, streaming: bool, script: seq<Attempt>, log: seq<Action>, outcome: Outcome) {
    exists n :: CallMeans(cfg, streaming, script, log, outcome, n)
  }

  lemma LogMeans(cfg: Governance, streaming: bool, script: seq<Attempt>)
    requires ValidScript(cfg, script)
    ensures RunsAsPromised(cfg, streaming, script, Log(cfg, streaming, script, 1), OutcomeOf(cfg, streaming, script, 1))
  {
    var n := LogEndsAt(cfg, streaming, script, 1);
    assert CallMeans(cfg, streaming, script, Log(cfg, streaming, script, 1), OutcomeOf(cfg, streaming, script, 1), n);
  }

  /** The loop from attempt number `first` on ends at number `n`. */
  ghost predicate EndsFrom(cfg: Governance, streaming: bool, script: seq<Attempt>, first: nat, n: nat)
    requires 1 <= first <= n <= |script| == cfg.retryMaxAttempts
  {
    && EndsAt(cfg, streaming, script, Log(cfg, streaming, script, first), OutcomeOf(cfg, streaming, script, first), first, n)
    && NotesReservations(script, Log(cfg, streaming, script, first), first, n)
  }

  lemma {:induction false} LogEndsAt(cfg: Governance, streaming: bool, script: seq<Attempt>, first: nat) returns (n: nat)
    requires ValidScript(cfg, script) && 1 <= first <= cfg.retryMaxAttempts
    ensures first <= n <= |script| && EndsFrom(cfg, streaming, script, first, n)
    decreases cfg.retryMaxAttempts - first
  {
    if GoesOn(cfg, streaming, script[first - 1], first) {
      n := LogEndsAt(cfg, streaming, script, first + 1);
      EndsFromLater(cfg, streaming, script, first, n);
    } else {
      n := first;
      EndsFromHere(cfg, streaming, script, first);
    }
  }

  lemma EndsFromHere(cfg: Governance, streaming: bool, script: seq<Attempt>, first: nat)
    requires 1 <= first <= |script| == cfg.retryMaxAttempts && !GoesOn(cfg, streaming, script[first - 1], first)
    ensures EndsFrom(cfg, streaming, script, first, first)
  {
    EndsHere(cfg, streaming, script, first);
  }

  lemma EndsFromLater(cfg: Governance, streaming: bool, script: seq<Attempt>, first: nat, n: nat)
    requires 1 <= first < n <= |script| == cfg.retryMaxAttempts && GoesOn(cfg, streaming, script[first - 1], first)
    requires EndsFrom(cfg, streaming, script, first + 1, n)
    ensures EndsFrom(cfg, streaming, script, first, n)
  {
    EndsLater(cfg, streaming, script, Log(cfg, streaming, script, first + 1), OutcomeOf(cfg, streaming, script, first + 1), first, n);
  }

  lemma EndsHere(cfg: Governance, streaming: bool, script: seq<Attempt>, first: nat)
    requires 1 <= first <= |script| == cfg.retryMaxAttempts && !GoesOn(cfg, streaming, script[first - 1], first)
    ensures var a := script[first - 1]; var log := AttemptLog(cfg, streaming, a, first);
            EndsAt(cfg, streaming, script, log, EndOf(a, Final(cfg, streaming, a, first)), first, first)
            && NotesReservations(script, log, first, first)
  {
    OwnSpine(cfg, streaming, script[first - 1], first);
    NotesHere(cfg, streaming, script, first);
  }

  lemma NotesHere(cfg: Governance, streaming: bool, script: seq<Attempt>, first: nat)
    requires 1 <= first <= |script|
    ensures NotesReservations(script, AttemptLog(cfg, streaming, script[first - 1], first), first, first)
  {
    OwnReservation(cfg, streaming, script[first - 1], first);
    assert script[first - 1..first] == [script[first - 1]];
  }

  lemma NotesLater(cfg: Governance, streaming: bool, script: seq<Attempt>, rest: seq<Action>, first: nat, n: nat)
    requires 1 <= first < n <= |script| && NotesReservations(script, rest, first + 1, n)
    ensures NotesReservations(script, AttemptLog(cfg, streaming, script[first - 1], first) + rest, first, n)
  {
    var a := script[first - 1];
    OwnReservation(cfg, streaming, a, first);
    CountConcat(AttemptLog(cfg, streaming, a, first), rest, IsReserve());
    CountConcat([a], script[first..n], HasReservation());
    assert [a] + script[first..n] == script[first - 1..n];
  }

  /** An attempt's log notes its reservation. */
  lemma OwnReservation(cfg: Governance, streaming: bool, a: Attempt, attempt: nat)
    requires attempt > 0
    ensures Count(AttemptLog(cfg, streaming, a, attempt), IsReserve()) == Count([a], HasReservation())
  {
    AttemptCount(cfg, streaming, a, attempt, IsReserve());
    CountOne(a, HasReservation());
  }

  lemma EndsLater(cfg: Governance, streaming: bool, script: seq<Attempt>, rest: seq<Action>, outcome: Outcome, first: nat, n: nat)
    requires 1 <= first < n <= |script| == cfg.retryMaxAttempts && GoesOn(cfg, streaming, script[first - 1], first)
    requires EndsAt(cfg, streaming, script, rest, outcome, first + 1, n) && NotesReservations(script, rest, first + 1, n)
    ensures EndsAt(cfg, streaming, script, AttemptLog(cfg, streaming, script[first - 1], first) + rest, outcome, first, n)
    ensures NotesReservations(script, AttemptLog(cfg, streaming, script[first - 1], first) + rest, first, n)
  {
    OwnSpine(cfg, streaming, script[first - 1], first);
    SpineConcat(AttemptLog(cfg, streaming, script[first - 1], first), rest);
    NotesLater(cfg, streaming, script, rest, first, n);
    EndsAtOneMore(cfg, streaming, script, AttemptLog(cfg, streaming, script[first - 1], first), rest, outcome, first, n);
  }

  /** An attempt that goes on adds its call and its backoff in front. */
  lemma EndsAtOneMore(cfg: Governance, streaming: bool, script: seq<Attempt>, own: seq<Action>, rest: seq<Action>, outcome: Outcome, first: nat, n: nat)
    requires 1 <= first < n <= |script| && EndsAt(cfg, streaming, script, rest, outcome, first + 1, n)
    requires MayPass(streaming, script[first - 1]) && !script[first - 1].sleepCut
    requires Spine(own + rest) == Spine(own) + Spine(rest)
    requires |Spine(own)| == 2 && Spine(own)[0] == Called(script[first - 1].chunks, script[first - 1].error)
    requires Spine(own)[1].Slept? && Spine(own)[1].attempt == first
    ensures EndsAt(cfg, streaming, script, own + rest, outcome, first, n)
  {
    BackboneOneMore(script, Spine(own), Spine(rest), first, n);
  }

  lemma BackboneOneMore(script: seq<Attempt>, own: seq<Action>, rest: seq<Action>, first: nat, n: nat)
    requires 1 <= first < n <= |script| && Backbone(script, rest, first + 1, n) && |own| == 2
    requires own[0] == Called(script[first - 1].chunks, script[first - 1].error) && own[1].Slept? && own[1].attempt == first
    ensures Backbone(script, own + rest, first, n)
  {
    var spine := own + rest;
    forall k | 0 <= k < n - first
      ensures spine[2 * k] == Called(script[first - 1 + k].chunks, script[first - 1 + k].error)
      ensures spine[2 * k + 1].Slept? && spine[2 * k + 1].attempt == first + k
    {
      if k > 0 {
        assert spine[2 * k] == rest[2 * (k - 1)] && spine[2 * k + 1] == rest[2 * (k - 1) + 1];
      }
    }
  }

  /** One attempt's own part of the backbone. */
  lemma OwnSpine(cfg: Governance, streaming: bool, a: Attempt, attempt: nat)
    requires attempt > 0
    ensures var last := Conclusion(cfg, streaming, a, attempt);
            Spine(AttemptLog(cfg, streaming, a, attempt))
            == (if a.acquired.Ready? then [Called(a.chunks, a.error)] else []) + (if last.Traced? then [] else [last])
  {
    SpineOne(Lead(a), Conclusion(cfg, streaming, a, attempt));
    LeadSpine(a);
  }

  lemma LeadSpine(a: Attempt)
    ensures Spine(Lead(a)) == if a.acquired.Ready? then [Called(a.chunks, a.error)] else []
  {
    var lead := AcquireLog(a.acquired);
    assert Spine(lead) == [] by { AcquireSpine(a.acquired); }
    if a.acquired.Ready? {
      SpineOne(lead, Called(a.chunks, a.error));
      SpineOne(lead + [Called(a.chunks, a.error)], Settled(a.error));
      assert CallLog(a) == if a.acquired.reserved then lead + [Called(a.chunks, a.error)] + [Settled(a.error)] else lead + [Called(a.chunks, a.error)];
    }
  }

  lemma AcquireSpine(acquired: Acquired)
    ensures Spine(AcquireLog(acquired)) == []
  {
    if !acquired.CircuitRefused? && acquired.reserved {
      SpineOne([], Reserved);
      assert [] + [Reserved] == [Reserved];
      if acquired.WaitCut? {
        SpineOne([Reserved], Aborted);
        assert [Reserved] + [Aborted] == [Reserved, Aborted];
      }
    }
  }

  // ---------------------------------------------------------------- what every governed call does

  /**
   * A reservation is aborted at once or settled right after the one call it was taken for, with that
   * call's class; nothing else comes in between, and none is left open at the end.
   */
  ghost predicate Disciplined(log: seq<Action>)
    decreases |log|
  {
    || log == []
    || (log[0].Reserved? && |log| >= 2 && log[1].Aborted? && Disciplined(log[2..]))
    || (log[0].Reserved? && |log| >= 3 && log[1].Called? && log[2] == Settled(log[1].error) && Disciplined(log[3..]))
    || (!log[0].Reserved? && !log[0].Aborted? && !log[0].Settled? && Disciplined(log[1..]))
  }

  function IsReserve(): Action -> bool { (x: Action) => x.Reserved? }

  function IsCall(): Action -> bool { (x: Action) => x.Called? }

  function IsTrace(): Action -> bool { (x: Action) => x.Traced? }

  function IsVisibleCall(): Action -> bool { (x: Action) => x.Called? && Visible(x.chunks) }

  function IsAnsweredCall(): Action -> bool { (x: Action) => x.Called? && !ShouldRetry(x.error) }

  /** What one answered call contributes to a count. */
  function CallShare(a: Attempt, p: Action -> bool): nat
    requires a.acquired.Ready?
  {
    (if p(Called(a.chunks, a.error)) then 1 else 0)
    + (if a.acquired.reserved then (if p(Reserved) then 1 else 0) + (if p(Settled(a.error)) then 1 else 0) else 0)
  }

  lemma CallParts(a: Attempt, p: Action -> bool)
    requires a.acquired.Ready?
    ensures Count(CallLog(a), p) == CallShare(a, p)
  {
    var call := [Called(a.chunks, a.error)];
    CountOne(Called(a.chunks, a.error), p);
    if a.acquired.reserved {
      CountOne(Reserved, p);
      CountConcat([Reserved], call, p);
      CountAppend([Reserved] + call, Settled(a.error), p);
    } else {
      assert CallLog(a) == call;
    }
  }

  /** What a failed acquisition contributes to a count. */
  function AbortShare(acquired: Acquired, p: Action -> bool): nat {
    if acquired.WaitCut? && acquired.reserved then (if p(Reserved) then 1 else 0) + (if p(Aborted) then 1 else 0) else 0
  }

  /** What one attempt contributes to a count. */
  function AttemptShare(cfg: Governance, streaming: bool, a: Attempt, attempt: nat, p: Action -> bool): nat
    requires attempt > 0
  {
    (if a.acquired.Ready? then CallShare(a, p) else AbortShare(a.acquired, p))
    + (if p(Conclusion(cfg, streaming, a, attempt)) then 1 else 0)
  }

  lemma AttemptCount(cfg: Governance, streaming: bool, a: Attempt, attempt: nat, p: Action -> bool)
    requires attempt > 0
    ensures Count(AttemptLog(cfg, streaming, a, attempt), p) == AttemptShare(cfg, streaming, a, attempt, p)
  {
    CountAppend(Lead(a), Conclusion(cfg, streaming, a, attempt), p);
    AcquireParts(a, p);
  }

  /** What the attempts from number `attempt` on contribute to a count. */
  function Tally(cfg: Governance, streaming: bool, script: seq<Attempt>, attempt: nat, p: Action -> bool): nat
    requires 1 <= attempt <= cfg.retryMaxAttempts && |script| == cfg.retryMaxAttempts
    decreases cfg.retryMaxAttempts - attempt
  {
    var a := script[attempt - 1];
    AttemptShare(cfg, streaming, a, attempt, p)
    + (if GoesOn(cfg, streaming, a, attempt) then Tally(cfg, streaming, script, attempt + 1, p) else 0)
  }

  lemma {:induction false} LogCount(cfg: Governance, streaming: bool, script: seq<Attempt>, attempt: nat, p: Action -> bool)
    requires 1 <= attempt <= cfg.retryMaxAttempts && |script| == cfg.retryMaxAttempts
    ensures Counted(cfg, streaming, script, attempt, p)
    decreases cfg.retryMaxAttempts - attempt
  {
    if GoesOn(cfg, streaming, script[attempt - 1], attempt) {
      LogCount(cfg, streaming, script, attempt + 1, p);
      CountedMore(cfg, streaming, script, attempt, p);
    } else {
      CountedLast(cfg, streaming, script, attempt, p);
    }
  }

  /** The count over the log is what the attempts contribute. */
  ghost predicate Counted(cfg: Governance, streaming: bool, script: seq<Attempt>, attempt: nat, p: Action -> bool)
    requires 1 <= attempt <= cfg.retryMaxAttempts && |script| == cfg.retryMaxAttempts
  {
    Count(Log(cfg, streaming, script, attempt), p) == Tally(cfg, streaming, script, attempt, p)
  }

  lemma CountedLast(cfg: Governance, streaming: bool, script: seq<Attempt>, attempt: nat, p: Action -> bool)
    requires 1 <= attempt <= cfg.retryMaxAttempts && |script| == cfg.retryMaxAttempts
    requires !GoesOn(cfg, streaming, script[attempt - 1], attempt)
    ensures Counted(cfg, streaming, script, attempt, p)
  {
    AttemptCount(cfg, streaming, script[attempt - 1], attempt, p);
  }

  lemma CountedMore(cfg: Governance, streaming: bool, script: seq<Attempt>, attempt: nat, p: Action -> bool)
    requires 1 <= attempt < cfg.retryMaxAttempts && |script| == cfg.retryMaxAttempts
    requires GoesOn(cfg, streaming, script[attempt - 1], attempt)
    requires Counted(cfg, streaming, script, attempt + 1, p)
    ensures Counted(cfg, streaming, script, attempt, p)
  {
    MoreCount(cfg, streaming, script, attempt, p, Tally(cfg, streaming, script, attempt + 1, p));
  }

  lemma MoreCount(cfg: Governance, streaming: bool, script: seq<Attempt>, attempt: nat, p: Action -> bool, rest: nat)
    requires 1 <= attempt < cfg.retryMaxAttempts && |script| == cfg.retryMaxAttempts
    requires GoesOn(cfg, streaming, script[attempt - 1], attempt)
    requires Count(Log(cfg, streaming, script, attempt + 1), p) == rest
    ensures Count(Log(cfg, streaming, script, attempt), p) == AttemptShare(cfg, streaming, script[attempt - 1], attempt, p) + rest
  {
    AttemptCount(cfg, streaming, script[attempt - 1], attempt, p);
    CountConcat(AttemptLog(cfg, streaming, script[attempt - 1], attempt), Log(cfg, streaming, script, attempt + 1), p);
  }

  /** An attempt calls the provider once it is ready, and not otherwise. */
  lemma ShareOfCalls(cfg: Governance, streaming: bool, a: Attempt, attempt: nat)
    requires attempt > 0
    ensures AttemptShare(cfg, streaming, a, attempt, IsCall()) == if a.acquired.Ready? then 1 else 0
  {
  }

  /** An attempt is traced exactly when the loop returns with it and its backoff was not cut short. */
  lemma ShareOfTraces(cfg: Governance, streaming: bool, a: Attempt, attempt: nat)
    requires attempt > 0
    ensures AttemptShare(cfg, streaming, a, attempt, IsTrace())
         == if !a.acquired.Ready? || Final(cfg, streaming, a, attempt) then 1 else 0
  {
  }

  lemma ShareOfVisible(cfg: Governance, streaming: bool, a: Attempt, attempt: nat)
    requires attempt > 0
    ensures AttemptShare(cfg, streaming, a, attempt, IsVisibleCall())
         == if a.acquired.Ready? && Visible(a.chunks) then 1 else 0
  {
  }

  lemma ShareOfAnswers(cfg: Governance, streaming: bool, a: Attempt, attempt: nat)
    requires attempt > 0
    ensures AttemptShare(cfg, streaming, a, attempt, IsAnsweredCall())
         == if a.acquired.Ready? && !ShouldRetry(a.error) then 1 else 0
  {
  }

  /** Acquiring and calling takes at most one reservation, and gives it back. */
  lemma AcquireIsDisciplined(a: Attempt)
    ensures Disciplined(Lead(a)) && Count(Lead(a), IsReserve()) <= 1
    ensures Count(Lead(a), IsCall()) == if a.acquired.Ready? then 1 else 0
  {
    AcquireParts(a, IsReserve());
    AcquireParts(a, IsCall());
    if a.acquired.Ready? {
      DisciplinedCall(a, []);
      assert CallLog(a) + [] == CallLog(a);
    } else {
      DisciplinedAbort(a.acquired, []);
      assert AcquireLog(a.acquired) + [] == AcquireLog(a.acquired);
    }
  }

  /** Every reservation a governed call takes is settled, on every path, and exactly once. */
  lemma {:induction false} EveryReservationSettles(cfg: Governance, streaming: bool, script: seq<Attempt>, attempt: nat)
    requires ValidScript(cfg, script) && 1 <= attempt <= cfg.retryMaxAttempts
    ensures Disciplined(Log(cfg, streaming, script, attempt))
    decreases cfg.retryMaxAttempts - attempt
  {
    var a := script[attempt - 1];
    var part := AttemptLog(cfg, streaming, a, attempt);
    if GoesOn(cfg, streaming, a, attempt) {
      EveryReservationSettles(cfg, streaming, script, attempt + 1);
      DisciplinedAttempt(cfg, streaming, a, attempt, Log(cfg, streaming, script, attempt + 1));
    } else {
      DisciplinedAttempt(cfg, streaming, a, attempt, []);
      assert part + [] == part;
    }
  }

  lemma DisciplinedAttempt(cfg: Governance, streaming: bool, a: Attempt, attempt: nat, rest: seq<Action>)
    requires attempt > 0 && Disciplined(rest)
    ensures Disciplined(AttemptLog(cfg, streaming, a, attempt) + rest)
  {
    var tail := [Conclusion(cfg, streaming, a, attempt)] + rest;
    assert tail[1..] == rest;
    if a.acquired.Ready? {
      DisciplinedCall(a, tail);
    } else {
      DisciplinedAbort(a.acquired, tail);
    }
    Regroup(Lead(a), Conclusion(cfg, streaming, a, attempt), rest);
  }

  lemma Regroup(lead: seq<Action>, last: Action, rest: seq<Action>)
    ensures (lead + [last]) + rest == lead + ([last] + rest)
  {
  }

  lemma DisciplinedAbort(acquired: Acquired, tail: seq<Action>)
    requires !acquired.Ready? && Disciplined(tail)
    ensures Disciplined(AcquireLog(acquired) + tail)
  {
    if acquired.WaitCut? && acquired.reserved {
      assert (AcquireLog(acquired) + tail)[2..] == tail;
    } else {
      assert [] + tail == tail;
    }
  }

  lemma DisciplinedCall(a: Attempt, tail: seq<Action>)
    requires a.acquired.Ready? && Disciplined(tail)
    ensures Disciplined(CallLog(a) + tail)
  {
    if a.acquired.reserved {
      assert (CallLog(a) + tail)[3..] == tail;
    } else {
      assert (CallLog(a) + tail)[1..] == tail;
    }
  }

  /** A governed call makes at most `retryMaxAttempts` provider calls. */
  lemma CallsAreBounded(cfg: Governance, streaming: bool, script: seq<Attempt>, attempt: nat)
    requires ValidScript(cfg, script) && 1 <= attempt <= cfg.retryMaxAttempts
    ensures Count(Log(cfg, streaming, script, attempt), IsCall()) <= cfg.retryMaxAttempts - attempt + 1
  {
    LogCount(cfg, streaming, script, attempt, IsCall());
    TallyOfCalls(cfg, streaming, script, attempt);
  }

  lemma {:induction false} TallyOfCalls(cfg: Governance, streaming: bool, script: seq<Attempt>, attempt: nat)
    requires ValidScript(cfg, script) && 1 <= attempt <= cfg.retryMaxAttempts
    ensures Tally(cfg, streaming, script, attempt, IsCall()) <= cfg.retryMaxAttempts - attempt + 1
    decreases cfg.retryMaxAttempts - attempt
  {
    ShareOfCalls(cfg, streaming, script[attempt - 1], attempt);
    if GoesOn(cfg, streaming, script[attempt - 1], attempt) {
      TallyOfCalls(cfg, streaming, script, attempt + 1);
    }
  }

  /** A governed call emits exactly one trace, and none when a backoff was cut short. */
  lemma OneTrace(cfg: Governance, streaming: bool, script: seq<Attempt>, attempt: nat)
    requires ValidScript(cfg, script) && 1 <= attempt <= cfg.retryMaxAttempts
    ensures Count(Log(cfg, streaming, script, attempt), IsTrace())
         == if OutcomeOf(cfg, streaming, script, attempt).BackoffCut? then 0 else 1
  {
    LogCount(cfg, streaming, script, attempt, IsTrace());
    TallyOfTraces(cfg, streaming, script, attempt);
  }

  lemma {:induction false} TallyOfTraces(cfg: Governance, streaming: bool, script: seq<Attempt>, attempt: nat)
    requires ValidScript(cfg, script) && 1 <= attempt <= cfg.retryMaxAttempts
    ensures Tally(cfg, streaming, script, attempt, IsTrace())
         == if OutcomeOf(cfg, streaming, script, attempt).BackoffCut? then 0 else 1
    decreases cfg.retryMaxAttempts - attempt
  {
    ShareOfTraces(cfg, streaming, script[attempt - 1], attempt);
    if GoesOn(cfg, streaming, script[attempt - 1], attempt) {
      TallyOfTraces(cfg, streaming, script, attempt + 1);
    }
  }

  lemma AcquireParts(a: Attempt, p: Action -> bool)
    ensures a.acquired.Ready? ==> Count(CallLog(a), p) == CallShare(a, p)
    ensures !a.acquired.Ready? ==> Count(AcquireLog(a.acquired), p) == AbortShare(a.acquired, p)
  {
    if a.acquired.Ready? {
      CallParts(a, p);
    } else if a.acquired.WaitCut? && a.acquired.reserved {
      CountOne(Reserved, p);
      CountAppend([Reserved], Aborted, p);
      assert [Reserved] + [Aborted] == [Reserved, Aborted];
    }
  }

  /** Every wait of the log lies between the doubled base delay, capped, and the maximum. */
  ghost predicate WaitsWithin(cfg: Governance, log: seq<Action>) {
    forall i :: 0 <= i < |log| ==> WaitWithin(cfg, log[i])
  }

  predicate WaitWithin(cfg: Governance, x: Action) {
    x.Slept? ==> 0 < x.attempt < cfg.retryMaxAttempts && LeastWait(cfg, x.attempt) <= x.wait <= cfg.retryMaxDelay
  }

  lemma {:induction false} WaitsAreBounded(cfg: Governance, streaming: bool, script: seq<Attempt>, attempt: nat)
    requires ValidScript(cfg, script) && 1 <= attempt <= cfg.retryMaxAttempts
    ensures WaitsWithin(cfg, Log(cfg, streaming, script, attempt))
    decreases cfg.retryMaxAttempts - attempt
  {
    var a := script[attempt - 1];
    OwnWait(cfg, streaming, a, attempt);
    if GoesOn(cfg, streaming, a, attempt) {
      WaitsAreBounded(cfg, streaming, script, attempt + 1);
      WaitsConcat(cfg, AttemptLog(cfg, streaming, a, attempt), Log(cfg, streaming, script, attempt + 1));
    }
  }

  lemma WaitsConcat(cfg: Governance, a: seq<Action>, b: seq<Action>)
    requires WaitsWithin(cfg, a) && WaitsWithin(cfg, b)
    ensures WaitsWithin(cfg, a + b)
  {
  }

  lemma OwnWait(cfg: Governance, streaming: bool, a: Attempt, attempt: nat)
    requires ValidGovernance(cfg) && 1 <= attempt <= cfg.retryMaxAttempts && a.jitter >= 0
    ensures WaitsWithin(cfg, AttemptLog(cfg, streaming, a, attempt))
  {
    var lead, last := Lead(a), Conclusion(cfg, streaming, a, attempt);
    assert forall i :: 0 <= i < |lead| ==> !lead[i].Slept?;
    assert WaitWithin(cfg, last) by { DoubledGrows(cfg.retryBaseDelay, 0, attempt - 1); }
  }

  /**
   * Of all the attempts of a stream, at most one lets a visible chunk out, so the caller never sees
   * the beginning of an answer twice.
   */
  lemma OneVisibleAttempt(cfg: Governance, script: seq<Attempt>, attempt: nat)
    requires ValidScript(cfg, script) && 1 <= attempt <= cfg.retryMaxAttempts
    ensures Count(Log(cfg, true, script, attempt), IsVisibleCall()) <= 1
  {
    LogCount(cfg, true, script, attempt, IsVisibleCall());
    TallyOfVisible(cfg, script, attempt);
  }

  lemma {:induction false} TallyOfVisible(cfg: Governance, script: seq<Attempt>, attempt: nat)
    requires ValidScript(cfg, script) && 1 <= attempt <= cfg.retryMaxAttempts
    ensures Tally(cfg, true, script, attempt, IsVisibleCall()) <= 1
    decreases cfg.retryMaxAttempts - attempt
  {
    ShareOfVisible(cfg, true, script[attempt - 1], attempt);
    if GoesOn(cfg, true, script[attempt - 1], attempt) {
      TallyOfVisible(cfg, script, attempt + 1);
    }
  }

  /** The loop ended with an answer that is not to be retried. */
  predicate AnsweredForGood(o: Outcome) {
    o.Answered? && !ShouldRetry(o.error)
  }

  /** Only failures that may be retried are: at most one call, the one that decides, has another class. */
  lemma OnlyRetryableIsRetried(cfg: Governance, streaming: bool, script: seq<Attempt>, attempt: nat)
    requires ValidScript(cfg, script) && 1 <= attempt <= cfg.retryMaxAttempts
    ensures Count(Log(cfg, streaming, script, attempt), IsAnsweredCall())
         == if AnsweredForGood(OutcomeOf(cfg, streaming, script, attempt)) then 1 else 0
  {
    LogCount(cfg, streaming, script, attempt, IsAnsweredCall());
    TallyOfAnswers(cfg, streaming, script, attempt);
  }

  lemma {:induction false} TallyOfAnswers(cfg: Governance, streaming: bool, script: seq<Attempt>, attempt: nat)
    requires ValidScript(cfg, script) && 1 <= attempt <= cfg.retryMaxAttempts
    ensures Tally(cfg, streaming, script, attempt, IsAnsweredCall())
         == if AnsweredForGood(OutcomeOf(cfg, streaming, script, attempt)) then 1 else 0
    decreases cfg.retryMaxAttempts - attempt
  {
    ShareOfAnswers(cfg, streaming, script[attempt - 1], attempt);
    if GoesOn(cfg, streaming, script[attempt - 1], attempt) {
      TallyOfAnswers(cfg, streaming, script, attempt + 1);
    }
  }
}
