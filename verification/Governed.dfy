/**
 * Many governed calls over one circuit breaker, interleaved in any way. Each caller performs the actions
 * of its own retry loop; its reservations and settlements are events of the breaker. A caller's script
 * says in advance what the breaker will answer it: a run in which that is wrong does not go on.
 */
module Governed {
  import opened Sequences
  import Breaker
  import opened Resilience

  /** What a caller still has to do, and the reservation it holds. */
  datatype Caller = Caller(rest: seq<Action>, ticket: Option<nat>)

  datatype World = World(breaker: Breaker.System, callers: seq<Caller>)

  datatype Step =
    | Arrive(cfg: Governance, streaming: bool, script: seq<Attempt>)
    | Advance(t: nat, now: int)

  predicate Grants(s: Breaker.System, now: int) {
    Breaker.Reserve(s.cfg, s.v, now).1.Granted?
  }

  /** A caller's next action is possible: it can only note a reservation that the breaker grants. */
  ghost predicate Enabled(w: World, step: Step) {
    match step
    case Arrive(cfg, streaming, script) => ValidScript(cfg, script)
    case Advance(t, now) =>
      && t < |w.callers| && w.callers[t].rest != []
      && (w.callers[t].rest[0].Reserved? ==> Grants(w.breaker, now))
      && (Settles(w.callers[t].rest[0]) ==> w.callers[t].ticket.Some?)
      && (Settles(w.callers[t].rest[0]) ==> Breaker.Enabled(w.breaker, SettleEvent(w.callers[t], now)))
  }

  predicate Settles(x: Action) {
    x.Aborted? || x.Settled?
  }

  function SettleEvent(c: Caller, now: int): Breaker.Event
    requires c.rest != [] && Settles(c.rest[0]) && c.ticket.Some?
  {
    if c.rest[0].Aborted? then Breaker.DoAbort(c.ticket.value, now) else Breaker.DoFinish(c.ticket.value, c.rest[0].error, now)
  }

  ghost function Next(w: World, step: Step): World
    requires Enabled(w, step)
  {
    match step
    case Arrive(cfg, streaming, script) =>
      w.(callers := w.callers + [Caller(Log(cfg, streaming, script, 1), None)])
    case Advance(t, now) => Advanced(w, t, now)
  }

  ghost function Advanced(w: World, t: nat, now: int): World
    requires Enabled(w, Advance(t, now))
  {
    var c := w.callers[t];
    if c.rest[0].Reserved? then
      World(Breaker.Next(w.breaker, Breaker.DoReserve(now)), w.callers[t := Caller(c.rest[1..], Some(|w.breaker.tickets|))])
    else if Settles(c.rest[0]) then
      World(Breaker.Next(w.breaker, SettleEvent(c, now)), w.callers[t := Caller(c.rest[1..], None)])
    else w.(callers := w.callers[t := c.(rest := c.rest[1..])])
  }

  ghost predicate IsRun(w: World, steps: seq<Step>)
    decreases |steps|
  {
    steps == [] || (Enabled(w, steps[0]) && IsRun(Next(w, steps[0]), steps[1..]))
  }

  ghost function Exec(w: World, steps: seq<Step>): World
    requires IsRun(w, steps)
    decreases |steps|
  {
    if steps == [] then w else Exec(Next(w, steps[0]), steps[1..])
  }

  function Start(cfg: Breaker.Config): World {
    World(Breaker.Start(cfg), [])
  }

  // ---------------------------------------------------------------- invariant

  /** What a caller that holds a reservation still has to do begins with giving it back. */
  ghost predicate Owes(rest: seq<Action>) {
    || (rest != [] && Settles(rest[0]) && Disciplined(rest[1..]))
    || (|rest| >= 2 && rest[0].Called? && rest[1] == Settled(rest[0].error) && Disciplined(rest[2..]))
  }

  ghost predicate Orderly(c: Caller) {
    if c.ticket.Some? then Owes(c.rest) else Disciplined(c.rest)
  }

  /** The unsettled reservations are exactly the held ones, and each has one holder. */
  ghost predicate Held(w: World) {
    && (forall t :: 0 <= t < |w.callers| && w.callers[t].ticket.Some? ==> Unsettled(w.breaker, w.callers[t].ticket.value))
    && (forall t, u :: 0 <= t < u < |w.callers| && w.callers[t].ticket.Some? ==> w.callers[t].ticket != w.callers[u].ticket)
    && (forall i: nat :: Unsettled(w.breaker, i) ==> exists t :: 0 <= t < |w.callers| && w.callers[t].ticket == Some(i))
  }

  predicate Unsettled(s: Breaker.System, i: nat) {
    i < |s.tickets| && !s.tickets[i].settled
  }

  ghost predicate Inv(w: World) {
    && Breaker.Reachable(w.breaker) && Held(w)
    && forall t :: 0 <= t < |w.callers| ==> Orderly(w.callers[t])
  }

  lemma StillReachable(s: Breaker.System, e: Breaker.Event)
    requires Breaker.Reachable(s) && Breaker.Enabled(s, e)
    ensures Breaker.Reachable(Breaker.Next(s, e))
  {
    var events :| Breaker.IsRun(Breaker.Start(s.cfg), events) && Breaker.Exec(Breaker.Start(s.cfg), events) == s;
    Breaker.RunSnoc(Breaker.Start(s.cfg), events, e);
  }

  lemma ArriveKeeps(w: World, step: Step)
    requires Inv(w) && Enabled(w, step) && step.Arrive?
    ensures Inv(Next(w, step))
  {
    EveryReservationSettles(step.cfg, step.streaming, step.script, 1);
    var v := Next(w, step);
    forall i: nat | Unsettled(v.breaker, i) ensures exists t :: 0 <= t < |v.callers| && v.callers[t].ticket == Some(i) {
      var t :| 0 <= t < |w.callers| && w.callers[t].ticket == Some(i);
      assert v.callers[t] == w.callers[t];
    }
  }

  /** The caller's own part: what is left to do stays in order. */
  lemma AdvanceKeepsOrder(c: Caller)
    requires Orderly(c) && c.rest != []
    ensures c.rest[0].Reserved? ==> c.ticket.None? && Owes(c.rest[1..])
    ensures Settles(c.rest[0]) ==> c.ticket.Some? && Disciplined(c.rest[1..])
    ensures !c.rest[0].Reserved? && !Settles(c.rest[0]) ==> Orderly(c.(rest := c.rest[1..]))
  {
    var rest := c.rest;
    if c.ticket.None? && rest[0].Reserved? {
      if |rest| >= 2 && rest[1].Aborted? {
        assert rest[1..][1..] == rest[2..];
      } else {
        assert rest[1..][2..] == rest[3..];
      }
    }
    if c.ticket.Some? && rest[0].Called? {
      assert rest[1..][1..] == rest[2..];
    }
  }

  /** The breaker's part: a reservation gets its one holder, a settlement takes it away. */
  lemma ReserveKeepsHeld(w: World, t: nat, now: int)
    requires Inv(w) && Enabled(w, Advance(t, now)) && w.callers[t].rest[0].Reserved? && w.callers[t].ticket.None?
    ensures Held(Advanced(w, t, now))
  {
    var v, n := Advanced(w, t, now), |w.breaker.tickets|;
    assert v.breaker.tickets == w.breaker.tickets + [Breaker.Ticket(Breaker.Reserve(w.breaker.cfg, w.breaker.v, now).1.halfOpen, false)];
    forall i: nat | Unsettled(v.breaker, i) ensures exists u :: 0 <= u < |v.callers| && v.callers[u].ticket == Some(i) {
      if i == n {
        assert v.callers[t].ticket == Some(n);
      } else {
        assert Unsettled(w.breaker, i);
        var u :| 0 <= u < |w.callers| && w.callers[u].ticket == Some(i);
        assert v.callers[u] == w.callers[u];
      }
    }
  }

  lemma SettleKeepsHeld(w: World, t: nat, now: int)
    requires Inv(w) && Enabled(w, Advance(t, now)) && Settles(w.callers[t].rest[0])
    ensures Held(Advanced(w, t, now))
  {
    var v, n := Advanced(w, t, now), w.callers[t].ticket.value;
    assert v.breaker.tickets == w.breaker.tickets[n := w.breaker.tickets[n].(settled := true)];
    forall i: nat | Unsettled(v.breaker, i) ensures exists u :: 0 <= u < |v.callers| && v.callers[u].ticket == Some(i) {
      assert i != n && Unsettled(w.breaker, i);
      var u :| 0 <= u < |w.callers| && w.callers[u].ticket == Some(i);
      assert v.callers[u] == w.callers[u];
    }
  }

  lemma QuietKeepsHeld(w: World, t: nat, now: int)
    requires Inv(w) && Enabled(w, Advance(t, now)) && !w.callers[t].rest[0].Reserved? && !Settles(w.callers[t].rest[0])
    ensures Held(Advanced(w, t, now))
  {
    var v := Advanced(w, t, now);
    forall i: nat | Unsettled(v.breaker, i) ensures exists u :: 0 <= u < |v.callers| && v.callers[u].ticket == Some(i) {
      var u :| 0 <= u < |w.callers| && w.callers[u].ticket == Some(i);
      assert v.callers[u].ticket == w.callers[u].ticket;
    }
  }

  lemma AdvanceKeeps(w: World, t: nat, now: int)
    requires Inv(w) && Enabled(w, Advance(t, now))
    ensures Inv(Advanced(w, t, now))
  {
    AdvanceKeepsOrder(w.callers[t]);
    if w.callers[t].rest[0].Reserved? {
      StillReachable(w.breaker, Breaker.DoReserve(now));
      ReserveKeepsHeld(w, t, now);
    } else if Settles(w.callers[t].rest[0]) {
      StillReachable(w.breaker, SettleEvent(w.callers[t], now));
      SettleKeepsHeld(w, t, now);
    } else {
      QuietKeepsHeld(w, t, now);
    }
  }

  lemma {:induction false} RunKeeps(w: World, steps: seq<Step>)
    requires Inv(w) && IsRun(w, steps)
    ensures Inv(Exec(w, steps))
    decreases |steps|
  {
    if steps != [] {
      if steps[0].Arrive? {
        ArriveKeeps(w, steps[0]);
      } else {
        AdvanceKeeps(w, steps[0].t, steps[0].now);
      }
      RunKeeps(Next(w, steps[0]), steps[1..]);
    }
  }

  lemma StartKeeps(cfg: Breaker.Config)
    requires Breaker.ValidConfig(cfg)
    ensures Inv(Start(cfg))
  {
    assert Breaker.IsRun(Breaker.Start(cfg), []);
    assert Breaker.Exec(Breaker.Start(cfg), []) == Breaker.Start(cfg);
  }

  // ---------------------------------------------------------------- results

  /** A caller that has to give a reservation back can always do so: nobody settles it for it. */
  lemma SettlementIsAlwaysPossible(cfg: Breaker.Config, steps: seq<Step>, t: nat, now: int)
    requires Breaker.ValidConfig(cfg) && IsRun(Start(cfg), steps)
    requires t < |Exec(Start(cfg), steps).callers|
    requires var rest := Exec(Start(cfg), steps).callers[t].rest; rest != [] && !rest[0].Reserved?
    ensures Enabled(Exec(Start(cfg), steps), Advance(t, now))
  {
    StartKeeps(cfg);
    RunKeeps(Start(cfg), steps);
    var w := Exec(Start(cfg), steps);
    assert Orderly(w.callers[t]);
    AdvanceKeepsOrder(w.callers[t]);
    if w.callers[t].ticket.Some? {
      assert Unsettled(w.breaker, w.callers[t].ticket.value);
    }
  }

  /** No call is under way. */
  ghost predicate AtRest(w: World) {
    forall t :: 0 <= t < |w.callers| ==> w.callers[t].rest == []
  }

  /**
   * Whenever no governed call is under way, however many there were and however they were interleaved,
   * every reservation is settled and no probe is counted. So the breaker never wedges: once a window
   * that may be open has passed, the next reservation is granted.
   */
  lemma BreakerNeverWedges(cfg: Breaker.Config, steps: seq<Step>, now: int)
    requires Breaker.ValidConfig(cfg) && IsRun(Start(cfg), steps) && AtRest(Exec(Start(cfg), steps))
    ensures var s := Exec(Start(cfg), steps).breaker;
            && (forall i :: 0 <= i < |s.tickets| ==> s.tickets[i].settled)
            && s.v.halfOpenInFlight == 0
            && ((s.v.state.Open? ==> now - s.v.openedAt >= s.cfg.openTimeout) ==> Grants(s, now))
  {
    StartKeeps(cfg);
    RunKeeps(Start(cfg), steps);
    var w := Exec(Start(cfg), steps);
    forall t | 0 <= t < |w.callers| ensures w.callers[t].ticket.None? {
      assert Orderly(w.callers[t]);
    }
    forall i | 0 <= i < |w.breaker.tickets| ensures w.breaker.tickets[i].settled {
      assert !Unsettled(w.breaker, i);
    }
    NoProbeIsOpen(w.breaker);
    if w.breaker.v.state.Open? ==> now - w.breaker.v.openedAt >= w.breaker.cfg.openTimeout {
      Breaker.Recovers(w.breaker, now);
    }
  }

  lemma NoProbeIsOpen(s: Breaker.System)
    requires Breaker.Reachable(s) && forall i :: 0 <= i < |s.tickets| ==> s.tickets[i].settled
    ensures s.v.halfOpenInFlight == 0
  {
    Breaker.ProbesAreExact(s);
    if Count(s.tickets, Breaker.OpenProbe()) > 0 {
      var i := CountWitness(s.tickets, Breaker.OpenProbe());
    }
  }
}
