/**
 * The provider circuit breaker. Reservations overlap: one taken while the breaker was closed may be
 * settled when it is open, half-open, or closed again. The breaker's critical sections are functions
 * on its value; the class performs them in place; the transition system composes them in any order.
 */
module Breaker {
  import opened Sequences

  datatype ErrorClass =
    NoError | Unknown | RateLimit | Auth | Transient | Permanent | CircuitOpen | Canceled

  predicate IsFailure(c: ErrorClass) {
    c.Transient? || c.RateLimit?
  }

  datatype State = Closed | Open | HalfOpen

  /** Times and durations are nanoseconds. */
  datatype Config = Config(failureThreshold: int, openTimeout: int, halfOpenMaxCalls: int)

  /** What the configuration check lets through for an enabled breaker, after its defaults. */
  predicate ValidConfig(cfg: Config) {
    cfg.failureThreshold > 0 && cfg.openTimeout > 0 && cfg.halfOpenMaxCalls > 0
  }

  datatype View = View(state: State, consecutiveFailure: int, openedAt: int, halfOpenInFlight: int)

  const FRESH := View(Closed, 0, 0, 0)

  /** Whether a reservation is granted, and whether it is a half-open probe. */
  datatype Grant = Refused | Granted(halfOpen: bool)

  function Reserve(cfg: Config, v: View, now: int): (View, Grant) {
    match v.state
    case Open =>
      if now - v.openedAt < cfg.openTimeout then (v, Refused)
      else (v.(state := HalfOpen, halfOpenInFlight := v.halfOpenInFlight + 1), Granted(true))
    case HalfOpen =>
      if v.halfOpenInFlight >= cfg.halfOpenMaxCalls then (v, Refused)
      else (v.(halfOpenInFlight := v.halfOpenInFlight + 1), Granted(true))
    case Closed => (v, Granted(false))
  }

  function Abort(v: View, halfOpen: bool): View {
    if halfOpen && v.halfOpenInFlight > 0 then v.(halfOpenInFlight := v.halfOpenInFlight - 1) else v
  }

  function Finish(cfg: Config, v: View, halfOpen: bool, c: ErrorClass, now: int): View {
    var w := Abort(v, halfOpen);
    if c.Canceled? then w
    else match w.state
      case Closed =>
        if !IsFailure(c) then w.(consecutiveFailure := 0)
        else if w.consecutiveFailure + 1 >= cfg.failureThreshold then
          w.(consecutiveFailure := 0, openedAt := now, state := Open)
        else w.(consecutiveFailure := w.consecutiveFailure + 1)
      case HalfOpen =>
        if IsFailure(c) then w.(openedAt := now, state := Open)
        else w.(consecutiveFailure := 0, state := Closed)
      case Open => w
  }

  class CircuitBreaker {
    const cfg: Config
    var state: State
    var consecutiveFailure: int
    var openedAt: int
    var halfOpenInFlight: int

    function Value(): View
      reads this
    {
      View(state, consecutiveFailure, openedAt, halfOpenInFlight)
    }

    constructor (cfg: Config)
      ensures Value() == FRESH && this.cfg == cfg
    {
      this.cfg := cfg;
      state, consecutiveFailure, openedAt, halfOpenInFlight := Closed, 0, 0, 0;
    }

    method TakeReservation(now: int) returns (grant: Grant)
      modifies this
      ensures (Value(), grant) == Reserve(cfg, old(Value()), now)
      ensures old(state).Closed? ==> grant == Granted(false) && Value() == old(Value())
      ensures old(state).Open? ==> grant == if now - openedAt < cfg.openTimeout then Refused else Granted(true)
      ensures old(state).HalfOpen? ==> grant == if old(halfOpenInFlight) >= cfg.halfOpenMaxCalls then Refused else Granted(true)
      ensures grant == Granted(true) ==> state.HalfOpen? && halfOpenInFlight == old(halfOpenInFlight) + 1
      ensures openedAt == old(openedAt) && consecutiveFailure == old(consecutiveFailure)
    {
      match state {
        case Open =>
          if now - openedAt < cfg.openTimeout {
            return Refused;
          }
          state := HalfOpen;
        case HalfOpen =>
          if halfOpenInFlight >= cfg.halfOpenMaxCalls {
            return Refused;
          }
        case Closed =>
      }
      var halfOpen := false;
      if state == HalfOpen {
        halfOpenInFlight := halfOpenInFlight + 1;
        halfOpen := true;
      }
      return Granted(halfOpen);
    }

    method AbortReservation(halfOpen: bool)
      modifies this
      ensures Value() == Abort(old(Value()), halfOpen)
    {
      if halfOpen && halfOpenInFlight > 0 {
        halfOpenInFlight := halfOpenInFlight - 1;
      }
    }

    method FinishReservation(halfOpen: bool, c: ErrorClass, now: int)
      modifies this
      ensures Value() == Finish(cfg, old(Value()), halfOpen, c, now)
      ensures c.Canceled? || old(state).Open? ==>
        state == old(state) && openedAt == old(openedAt) && consecutiveFailure == old(consecutiveFailure)
      ensures old(state).HalfOpen? && (c.Transient? || c.RateLimit?) ==> state.Open? && openedAt == now
      ensures old(state).HalfOpen? && !c.Canceled? && !c.Transient? && !c.RateLimit? ==>
        state.Closed? && consecutiveFailure == 0 && openedAt == old(openedAt)
      ensures old(state).Closed? && (c.Transient? || c.RateLimit?) ==>
        if old(consecutiveFailure) + 1 >= cfg.failureThreshold then state.Open? && openedAt == now
        else state.Closed? && consecutiveFailure == old(consecutiveFailure) + 1
      ensures old(state).Closed? && !c.Canceled? && !c.Transient? && !c.RateLimit? ==> state.Closed? && consecutiveFailure == 0
    {
      if halfOpen && halfOpenInFlight > 0 {
        halfOpenInFlight := halfOpenInFlight - 1;
      }
      if c.Canceled? {
        return;
      }
      match state {
        case Closed =>
          if IsFailure(c) {
            consecutiveFailure := consecutiveFailure + 1;
            if consecutiveFailure >= cfg.failureThreshold {
              consecutiveFailure := 0;
              openedAt := now;
              state := Open;
            }
            return;
          }
          consecutiveFailure := 0;
        case HalfOpen =>
          if IsFailure(c) {
            openedAt := now;
            state := Open;
            return;
          }
          consecutiveFailure := 0;
          state := Closed;
        case Open =>
      }
    }
  }

  // ---------------------------------------------------------------- all runs

  datatype Ticket = Ticket(halfOpen: bool, settled: bool)

  /**
   * The breaker and its reservations. `strays` counts how often a reservation taken while closed
   * moved the breaker out of half-open; `settlements` lists the classes settled since it last closed.
   */
  datatype System = System(cfg: Config, v: View, tickets: seq<Ticket>, strays: nat, settlements: seq<ErrorClass>)

  datatype Event =
    | DoReserve(now: int)
    | DoAbort(i: nat, now: int)
    | DoFinish(i: nat, c: ErrorClass, now: int)

  function Start(cfg: Config): System {
    System(cfg, FRESH, [], 0, [])
  }

  /** A reservation is settled at most once. */
  predicate Enabled(s: System, e: Event) {
    match e
    case DoReserve(_) => true
    case DoAbort(i, _) => i < |s.tickets| && !s.tickets[i].settled
    case DoFinish(i, _, _) => i < |s.tickets| && !s.tickets[i].settled
  }

  function Settle(s: System, i: nat): seq<Ticket>
    requires i < |s.tickets|
  {
    s.tickets[i := s.tickets[i].(settled := true)]
  }

  function Next(s: System, e: Event): System
    requires Enabled(s, e)
  {
    match e
    case DoReserve(now) =>
      var (v', grant) := Reserve(s.cfg, s.v, now);
      s.(v := v', tickets := if grant.Granted? then s.tickets + [Ticket(grant.halfOpen, false)] else s.tickets)
    case DoAbort(i, _) => s.(v := Abort(s.v, s.tickets[i].halfOpen), tickets := Settle(s, i))
    case DoFinish(i, c, now) =>
      var v' := Finish(s.cfg, s.v, s.tickets[i].halfOpen, c, now);
      s.(v := v', tickets := Settle(s, i),
         strays := if s.v.state.HalfOpen? && !v'.state.HalfOpen? && !s.tickets[i].halfOpen then s.strays + 1 else s.strays,
         settlements := if s.v.state.Closed? then s.settlements + [c]
                        else if v'.state.Closed? then [] else s.settlements)
  }

  ghost predicate IsRun(s: System, events: seq<Event>)
    decreases |events|, 0
  {
    events == [] || (IsRun(s, events[..|events| - 1]) && Enabled(Exec(s, events[..|events| - 1]), events[|events| - 1]))
  }

  ghost function Exec(s: System, events: seq<Event>): System
    requires IsRun(s, events)
    decreases |events|, 1
  {
    if events == [] then s else Next(Exec(s, events[..|events| - 1]), events[|events| - 1])
  }

  ghost predicate Reachable(s: System) {
    ValidConfig(s.cfg) && exists events :: IsRun(Start(s.cfg), events) && Exec(Start(s.cfg), events) == s
  }

  // ---------------------------------------------------------------- invariant

  function OpenProbe(): Ticket -> bool {
    (t: Ticket) => t.halfOpen && !t.settled
  }

  /** The trailing run of failures, cancelled settlements aside. */
  function TrailingFailures(cs: seq<ErrorClass>): nat {
    if cs == [] then 0
    else var c := cs[|cs| - 1];
      if c.Canceled? then TrailingFailures(cs[..|cs| - 1])
      else if IsFailure(c) then TrailingFailures(cs[..|cs| - 1]) + 1
      else 0
  }

  ghost predicate Inv(s: System) {
    && ValidConfig(s.cfg)
    && s.v.halfOpenInFlight == Count(s.tickets, OpenProbe())
    && s.v.halfOpenInFlight <= s.cfg.halfOpenMaxCalls + s.strays - (if s.v.state.HalfOpen? then 0 else 1)
    && s.v.consecutiveFailure == (if s.v.state.Closed? then TrailingFailures(s.settlements) else 0)
    && s.v.consecutiveFailure < s.cfg.failureThreshold
  }

  lemma InvNext(s: System, e: Event)
    requires Inv(s) && Enabled(s, e)
    ensures Inv(Next(s, e))
  {
    match e
    case DoReserve(now) => InvReserve(s, now);
    case DoAbort(i, now) => InvAbort(s, i, now);
    case DoFinish(i, c, now) => InvFinish(s, i, c, now);
  }

  lemma InvReserve(s: System, now: int)
    requires Inv(s)
    ensures Inv(Next(s, DoReserve(now)))
  {
    CountAppend(s.tickets, Ticket(true, false), OpenProbe());
    CountAppend(s.tickets, Ticket(false, false), OpenProbe());
  }

  lemma InvAbort(s: System, i: nat, now: int)
    requires Inv(s) && Enabled(s, DoAbort(i, now))
    ensures Inv(Next(s, DoAbort(i, now)))
  {
    SettleCounts(s, i);
    SomeProbe(s, i);
  }

  lemma InvFinish(s: System, i: nat, c: ErrorClass, now: int)
    requires Inv(s) && Enabled(s, DoFinish(i, c, now))
    ensures Inv(Next(s, DoFinish(i, c, now)))
  {
    SettleCounts(s, i);
    SomeProbe(s, i);
    assert (s.settlements + [c])[..|s.settlements|] == s.settlements;
  }

  /** An unsettled half-open reservation is counted. */
  lemma SomeProbe(s: System, i: nat)
    requires i < |s.tickets| && !s.tickets[i].settled
    ensures s.tickets[i].halfOpen ==> Count(s.tickets, OpenProbe()) > 0
  {
    if s.tickets[i].halfOpen {
      CountHas(s.tickets, OpenProbe(), i);
    }
  }

  lemma SettleCounts(s: System, i: nat)
    requires i < |s.tickets| && !s.tickets[i].settled
    ensures Count(Settle(s, i), OpenProbe()) == Count(s.tickets, OpenProbe()) - (if s.tickets[i].halfOpen then 1 else 0)
  {
    CountUpdate(s.tickets, i, s.tickets[i].(settled := true), OpenProbe());
  }

  lemma {:induction false} RunInv(s: System, events: seq<Event>)
    requires Inv(s) && IsRun(s, events)
    ensures Inv(Exec(s, events)) && Exec(s, events).cfg == s.cfg
    decreases |events|
  {
    if events != [] {
      RunInv(s, events[..|events| - 1]);
      InvNext(Exec(s, events[..|events| - 1]), events[|events| - 1]);
    }
  }

  lemma ReachableInv(s: System)
    requires Reachable(s)
    ensures Inv(s)
  {
    var events :| IsRun(Start(s.cfg), events) && Exec(Start(s.cfg), events) == s;
    RunInv(Start(s.cfg), events);
  }

  lemma RunSnoc(s: System, events: seq<Event>, e: Event)
    requires IsRun(s, events) && Enabled(Exec(s, events), e)
    ensures IsRun(s, events + [e]) && Exec(s, events + [e]) == Next(Exec(s, events), e)
  {
    assert (events + [e])[..|events|] == events;
  }

  // ---------------------------------------------------------------- results

  /** The probe counter is exactly the number of unsettled half-open reservations. */
  lemma ProbesAreExact(s: System)
    requires Reachable(s)
    ensures s.v.halfOpenInFlight == Count(s.tickets, OpenProbe())
  {
    ReachableInv(s);
  }

  /**
   * The probe counter exceeds its configured maximum by at most the number of strays, and when the
   * breaker is not half-open there is room for one more probe below that bound.
   */
  lemma ProbeBound(s: System)
    requires Reachable(s)
    ensures s.v.halfOpenInFlight <= s.cfg.halfOpenMaxCalls + s.strays
    ensures !s.v.state.HalfOpen? ==> s.v.halfOpenInFlight < s.cfg.halfOpenMaxCalls + s.strays
  {
    ReachableInv(s);
  }

  /** A reservation granted because the open window is over: the one that opens the half-open state. */
  predicate OpensHalf(s: System, e: Event) {
    e.DoReserve? && s.v.state.Open? && Reserve(s.cfg, s.v, e.now).1.Granted?
  }

  ghost predicate ProbesWithin(s: System) {
    s.v.halfOpenInFlight <= s.cfg.halfOpenMaxCalls
  }

  /** At every moment of the run the probes are within their maximum. */
  ghost predicate AlwaysWithin(s: System, events: seq<Event>)
    requires IsRun(s, events)
    decreases |events|
  {
    ProbesWithin(Exec(s, events)) && (events == [] || AlwaysWithin(s, events[..|events| - 1]))
  }

  /** Every reservation that opened the half-open state found room among the probes still unsettled. */
  ghost predicate OpenedWithRoom(s: System, events: seq<Event>)
    requires IsRun(s, events)
    decreases |events|
  {
    events == [] ||
    (var before, e := Exec(s, events[..|events| - 1]), events[|events| - 1];
      && (OpensHalf(before, e) ==> Count(before.tickets, OpenProbe()) < before.cfg.halfOpenMaxCalls)
      && OpenedWithRoom(s, events[..|events| - 1]))
  }

  /** The exact condition, run by run, for the configured maximum to hold. */
  lemma {:induction false} MaximumHoldsExactly(cfg: Config, events: seq<Event>)
    requires ValidConfig(cfg) && IsRun(Start(cfg), events)
    ensures AlwaysWithin(Start(cfg), events) <==> OpenedWithRoom(Start(cfg), events)
    decreases |events|
  {
    if events != [] {
      var front, e := events[..|events| - 1], events[|events| - 1];
      MaximumHoldsExactly(cfg, front);
      RunInv(Start(cfg), front);
      if AlwaysWithin(Start(cfg), front) {
        WithinStep(Exec(Start(cfg), front), e);
      }
    }
  }

  lemma WithinStep(s: System, e: Event)
    requires Inv(s) && Enabled(s, e) && ProbesWithin(s)
    ensures ProbesWithin(Next(s, e)) <==> (OpensHalf(s, e) ==> Count(s.tickets, OpenProbe()) < s.cfg.halfOpenMaxCalls)
  {
  }

  /**
   * The failure counter is the trailing run of failures settled since the breaker last closed; it is
   * zero outside the closed state and never reaches the threshold.
   */
  lemma FailuresAreTrailing(s: System)
    requires Reachable(s)
    ensures s.v.consecutiveFailure == if s.v.state.Closed? then TrailingFailures(s.settlements) else 0
    ensures 0 <= s.v.consecutiveFailure < s.cfg.failureThreshold
  {
    ReachableInv(s);
  }

  ghost predicate InsideWindow(events: seq<Event>, until: int) {
    forall e :: e in events && e.DoReserve? ==> e.now < until
  }

  /** Whatever is settled meanwhile, nothing is granted inside the open window, and the window does not move. */
  lemma {:induction false} OpenWindowHolds(s: System, events: seq<Event>)
    requires s.v.state.Open? && IsRun(s, events) && InsideWindow(events, s.v.openedAt + s.cfg.openTimeout)
    ensures var s' := Exec(s, events);
            s'.v.state.Open? && s'.v.openedAt == s.v.openedAt && |s'.tickets| == |s.tickets| && s'.cfg == s.cfg
    decreases |events|
  {
    if events != [] {
      var rest := events[..|events| - 1];
      forall e | e in rest ensures e in events { }
      OpenWindowHolds(s, rest);
      assert events[|events| - 1] in events;
    }
  }

  /** With every reservation settled and the open window over, the next reservation is granted. */
  lemma Recovers(s: System, now: int)
    requires Reachable(s)
    requires forall i :: 0 <= i < |s.tickets| ==> s.tickets[i].settled
    requires s.v.state.Open? ==> now - s.v.openedAt >= s.cfg.openTimeout
    ensures Reserve(s.cfg, s.v, now).1.Granted?
  {
    ReachableInv(s);
    if Count(s.tickets, OpenProbe()) > 0 { var i := CountWitness(s.tickets, OpenProbe()); }
  }

  // ---------------------------------------------------------------- which state a settlement leads to

  predicate Fails(c: ErrorClass) { c == Transient || c == RateLimit }

  /** No settlement among the events is a failure. */
  ghost predicate NothingFails(events: seq<Event>) {
    forall e :: e in events && e.DoFinish? ==> !Fails(e.c)
  }

  predicate Asks(e: Event) { e.DoReserve? }

  /** Every reservation asked for since `before` was granted, and none as a probe. */
  ghost predicate GrantsAll(before: System, events: seq<Event>, after: System) {
    && |after.tickets| == |before.tickets| + Count(events, Asks)
    && forall i :: |before.tickets| <= i < |after.tickets| ==> !after.tickets[i].halfOpen
  }

  /** A closed breaker stays closed and refuses nobody until something fails, whatever is still unsettled. */
  lemma {:induction false} ClosedGrantsAll(s: System, events: seq<Event>)
    requires s.v.state.Closed? && IsRun(s, events) && NothingFails(events)
    ensures Exec(s, events).v.state.Closed? && GrantsAll(s, events, Exec(s, events))
    decreases |events|
  {
    if events != [] {
      var front, e := events[..|events| - 1], events[|events| - 1];
      forall x | x in front ensures x in events { }
      ClosedGrantsAll(s, front);
      assert e in events;
    }
  }

  /**
   * One settlement in half-open that neither fails nor was cancelled closes the breaker, whichever
   * reservation it settles; from then on every reservation is granted until something fails.
   */
  lemma SuccessCloses(s: System, i: nat, c: ErrorClass, now: int, events: seq<Event>)
    requires s.v.state.HalfOpen? && Enabled(s, DoFinish(i, c, now)) && !Fails(c) && c != Canceled
    requires IsRun(Next(s, DoFinish(i, c, now)), events) && NothingFails(events)
    ensures var s1 := Next(s, DoFinish(i, c, now));
            s1.v.state.Closed? && s1.v.consecutiveFailure == 0
            && Exec(s1, events).v.state.Closed? && GrantsAll(s1, events, Exec(s1, events))
  {
    ClosedGrantsAll(Next(s, DoFinish(i, c, now)), events);
  }

  /** One failure in half-open, of a probe or of any other reservation, opens a new window at its time. */
  lemma FailureReopens(s: System, i: nat, c: ErrorClass, now: int, events: seq<Event>)
    requires s.v.state.HalfOpen? && Enabled(s, DoFinish(i, c, now)) && Fails(c)
    requires IsRun(Next(s, DoFinish(i, c, now)), events) && InsideWindow(events, now + s.cfg.openTimeout)
    ensures var s1 := Next(s, DoFinish(i, c, now));
            s1.v.state.Open? && s1.v.openedAt == now
            && Exec(s1, events).v.state.Open? && |Exec(s1, events).tickets| == |s.tickets|
  {
    OpenWindowHolds(Next(s, DoFinish(i, c, now)), events);
  }

  /** A failure on a closed breaker opens it, at its time, exactly when the failures in a row reach the threshold. */
  lemma FailureTripsExactly(s: System, i: nat, c: ErrorClass, now: int)
    requires Reachable(s) && s.v.state.Closed? && Enabled(s, DoFinish(i, c, now)) && Fails(c)
    ensures var s1 := Next(s, DoFinish(i, c, now));
            && TrailingFailures(s.settlements + [c]) == TrailingFailures(s.settlements) + 1
            && s1.v.state == (if TrailingFailures(s.settlements + [c]) >= s.cfg.failureThreshold then Open else Closed)
            && (s1.v.state.Open? ==> s1.v.openedAt == now)
  {
    ReachableInv(s);
    assert (s.settlements + [c])[..|s.settlements|] == s.settlements;
  }

  /** A cancelled settlement, an abort, and any settlement on an open breaker change neither state, window nor counter. */
  lemma NothingElseMoves(s: System, e: Event)
    requires Enabled(s, e) && !e.DoReserve? && (e.DoFinish? ==> e.c == Canceled || s.v.state.Open?)
    ensures var v := Next(s, e).v;
            v.state == s.v.state && v.openedAt == s.v.openedAt && v.consecutiveFailure == s.v.consecutiveFailure
  {
  }

  /** Once the window is over the next reservation is granted as a probe; further ones while the probes are below their maximum. */
  lemma ProbesAreGranted(s: System, now: int)
    requires Reachable(s) && !s.v.state.Closed?
    requires s.v.state.Open? ==> now - s.v.openedAt >= s.cfg.openTimeout
    ensures var s1 := Next(s, DoReserve(now));
            if s.v.state.Open? || Count(s.tickets, OpenProbe()) < s.cfg.halfOpenMaxCalls
            then s1.tickets == s.tickets + [Ticket(true, false)] && s1.v.state.HalfOpen?
            else s1.tickets == s.tickets && s1.v == s.v
  {
    ReachableInv(s);
  }

  // ---------------------------------------------------------------- the bound is attained

  /** The events come in the order of their times, and none is later than `now`. */
  ghost predicate Timely(events: seq<Event>, now: int) {
    forall i, j :: 0 <= i <= j < |events| ==> events[i].now <= events[j].now <= now
  }

  /** `k` reservations on a closed breaker. */
  lemma TakeClosed(cfg: Config, k: nat) returns (events: seq<Event>)
    requires ValidConfig(cfg)
    ensures IsRun(Start(cfg), events) && Timely(events, 0)
    ensures Exec(Start(cfg), events) == System(cfg, FRESH, seq(k, _ => Ticket(false, false)), 0, [])
  {
    events := [];
    for i := 0 to k
      invariant IsRun(Start(cfg), events) && Timely(events, 0)
      invariant Exec(Start(cfg), events) == System(cfg, FRESH, seq(i, _ => Ticket(false, false)), 0, [])
    {
      RunSnoc(Start(cfg), events, DoReserve(0));
      events := events + [DoReserve(0)];
      assert seq(i, _ => Ticket(false, false)) + [Ticket(false, false)] == seq(i + 1, _ => Ticket(false, false));
    }
  }

  /** Failing the last `failureThreshold` of the closed reservations opens the breaker at time 0. */
  lemma TripOpen(cfg: Config, n: nat) returns (events: seq<Event>)
    requires ValidConfig(cfg)
    ensures IsRun(Start(cfg), events) && Timely(events, 0)
    ensures var s := Exec(Start(cfg), events);
            && s.cfg == cfg && s.v == View(Open, 0, 0, 0) && s.strays == 0 && |s.tickets| >= n
            && forall i :: 0 <= i < n ==> s.tickets[i] == Ticket(false, false)
  {
    var t := cfg.failureThreshold;
    events := TakeClosed(cfg, n + t);
    for j := 0 to t
      invariant IsRun(Start(cfg), events) && Timely(events, 0)
      invariant Tripping(cfg, n, j, Exec(Start(cfg), events))
    {
      FailOne(cfg, n, j, Exec(Start(cfg), events));
      RunSnoc(Start(cfg), events, DoFinish(n + j, Transient, 0));
      events := events + [DoFinish(n + j, Transient, 0)];
    }
  }

  /** `j` of the last `failureThreshold` closed reservations have failed. */
  ghost predicate Tripping(cfg: Config, n: nat, j: nat, s: System) {
    var t := cfg.failureThreshold;
    && s.cfg == cfg && s.strays == 0 && j <= t && |s.tickets| == n + t
    && s.v == (if j < t then View(Closed, j, 0, 0) else View(Open, 0, 0, 0))
    && (forall i :: 0 <= i < n ==> s.tickets[i] == Ticket(false, false))
    && (forall i :: n + j <= i < n + t ==> s.tickets[i] == Ticket(false, false))
  }

  lemma FailOne(cfg: Config, n: nat, j: nat, s: System)
    requires ValidConfig(cfg) && Tripping(cfg, n, j, s) && j < cfg.failureThreshold
    ensures Enabled(s, DoFinish(n + j, Transient, 0)) && Tripping(cfg, n, j + 1, Next(s, DoFinish(n + j, Transient, 0)))
  {
  }

  /** A full set of probes, with `n` reservations from the closed days still unsettled. */
  lemma FillProbes(cfg: Config, n: nat) returns (events: seq<Event>)
    requires ValidConfig(cfg)
    ensures IsRun(Start(cfg), events) && Timely(events, cfg.openTimeout)
    ensures var s := Exec(Start(cfg), events);
            && s.cfg == cfg && s.v == View(HalfOpen, 0, 0, cfg.halfOpenMaxCalls) && s.strays == 0 && |s.tickets| >= n
            && forall i :: 0 <= i < n ==> s.tickets[i] == Ticket(false, false)
  {
    events := TripOpen(cfg, n);
    var now := cfg.openTimeout;
    for j := 0 to cfg.halfOpenMaxCalls
      invariant IsRun(Start(cfg), events) && Timely(events, cfg.openTimeout)
      invariant var s := Exec(Start(cfg), events);
        && s.cfg == cfg && s.strays == 0 && |s.tickets| >= n
        && s.v == View(if j == 0 then Open else HalfOpen, 0, 0, j)
        && (forall i :: 0 <= i < n ==> s.tickets[i] == Ticket(false, false))
    {
      RunSnoc(Start(cfg), events, DoReserve(now));
      events := events + [DoReserve(now)];
    }
  }

  /** Half-open with `k` strays so far, and the closed reservations from `k` to `n` still unsettled. */
  ghost predicate StrayState(s: System, cfg: Config, k: nat, n: nat) {
    && s.cfg == cfg && s.strays == k && |s.tickets| >= n
    && s.v.state == HalfOpen && s.v.halfOpenInFlight == cfg.halfOpenMaxCalls + k
    && (forall i :: k <= i < n ==> s.tickets[i] == Ticket(false, false))
  }

  /** One more stray: its failure opens the breaker, and after the window a new probe gets in. */
  lemma StrayRound(cfg: Config, events: seq<Event>, now: int, k: nat, n: nat) returns (longer: seq<Event>)
    requires ValidConfig(cfg) && k < n && IsRun(Start(cfg), events) && Timely(events, now)
    requires StrayState(Exec(Start(cfg), events), cfg, k, n)
    ensures IsRun(Start(cfg), longer) && Timely(longer, now + cfg.openTimeout)
    ensures StrayState(Exec(Start(cfg), longer), cfg, k + 1, n)
  {
    var fail, reserve := DoFinish(k, Transient, now), DoReserve(now + cfg.openTimeout);
    RunSnoc(Start(cfg), events, fail);
    RunSnoc(Start(cfg), events + [fail], reserve);
    longer := events + [fail] + [reserve];
  }

  /**
   * The bound of ProbeBound is attained for every configuration and every number of strays: each late
   * failure of a reservation taken while closed opens the breaker and lets one more probe in.
   */
  lemma ProbeBoundIsTight(cfg: Config, n: nat) returns (events: seq<Event>, now: int)
    requires ValidConfig(cfg)
    ensures IsRun(Start(cfg), events) && Timely(events, now)
    ensures Exec(Start(cfg), events).strays == n
    ensures Exec(Start(cfg), events).v.halfOpenInFlight == cfg.halfOpenMaxCalls + n
  {
    events := FillProbes(cfg, n);
    now := cfg.openTimeout;
    for k := 0 to n
      invariant IsRun(Start(cfg), events) && Timely(events, now)
      invariant StrayState(Exec(Start(cfg), events), cfg, k, n)
    {
      events := StrayRound(cfg, events, now, k, n);
      now := now + cfg.openTimeout;
    }
  }
}
