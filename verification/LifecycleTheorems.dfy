/** What the lifecycle invariant gives over whole runs. */
module LifecycleTheorems {
  import opened Sequences
  import opened SessionCore
  import opened Lifecycle
  import opened LifecycleSafety

  ghost predicate IsRun(s: System, steps: seq<Step>)
    decreases |steps|
  {
    steps == [] || (Enabled(s, steps[0]) && IsRun(Apply(s, steps[0]), steps[1..]))
  }

  ghost function Exec(s: System, steps: seq<Step>): System
    requires IsRun(s, steps)
    decreases |steps|
  {
    if steps == [] then s else Exec(Apply(s, steps[0]), steps[1..])
  }

  /** The state is one that some interleaving of calls on a new agent can reach. */
  ghost predicate Reachable(s: System) {
    exists maxRounds: int, steps: seq<Step> :: IsRun(Start(maxRounds), steps) && Exec(Start(maxRounds), steps) == s
  }

  lemma {:induction false} RunInv(s: System, steps: seq<Step>)
    requires Inv(s) && IsRun(s, steps)
    ensures Inv(Exec(s, steps))
    decreases |steps|
  {
    if steps != [] {
      InvApply(s, steps[0]);
      RunInv(Apply(s, steps[0]), steps[1..]);
    }
  }

  lemma ReachableInv(s: System)
    requires Reachable(s)
    ensures Inv(s)
  {
    var maxRounds: int, steps: seq<Step> :|
      IsRun(Start(maxRounds), steps) && Exec(Start(maxRounds), steps) == s;
    StartInv(maxRounds);
    RunInv(Start(maxRounds), steps);
  }

  // ---------------------------------------------------------------- admission and drain

  /** `inFlight` counts exactly the operations that were admitted and have not ended. */
  lemma InFlightIsExact(s: System)
    requires Reachable(s)
    ensures s.inFlight == Count(s.threads, Admitted)
  {
    ReachableInv(s);
  }

  /** No lost wake-up: a parked Close always has an admitted operation left to wake it. */
  lemma ParkedHasWork(s: System, t: nat) returns (u: nat)
    requires Reachable(s) && t < |s.threads| && s.threads[t].CloseParked?
    ensures s.inFlight > 0 && u < |s.threads| && Admitted(s.threads[u])
  {
    ReachableInv(s);
    u := CountWitness(s.threads, Admitted);
  }

  lemma DrainedStep(s: System, step: Step)
    requires Inv(s) && Drained(WinnerPc(s)) && Enabled(s, step)
    ensures Drained(WinnerPc(Apply(s, step)))
  {
    InvApply(s, step);
    match step
    case Spawn(_) =>
    case Advance(t) => DrainedMove(s, t);
    case CancelWait(_) =>
    case FinishBody(_, _) =>
    case CloseOne(_, _) =>
    case UserClear(_) =>
    case UserClose(_) =>
  }

  lemma DrainedMove(s: System, t: nat)
    requires Inv(s) && Drained(WinnerPc(s)) && CanAdvance(s, t)
    ensures Drained(WinnerPc(Move(s, t)))
  {
    if s.threads[t].Ending? {
      GateEndingPositive(s, t);
    } else if s.winner == Some(t) {
      DrainedOwnMove(s, t);
    } else {
      OthersKeepWinner(s, t);
    }
  }

  lemma DrainedOwnMove(s: System, t: nat)
    requires Inv(s) && Drained(WinnerPc(s)) && CanAdvance(s, t) && s.winner == Some(t)
    ensures Drained(WinnerPc(Move(s, t)))
  {
    var pc := s.threads[t];
    assert pc.CloseSnapshot? || pc.CloseEach? || pc.CloseStore?;
  }

  lemma OthersKeepWinner(s: System, t: nat)
    requires GateInv(s) && s.winner.Some? && CanAdvance(s, t) && s.winner != Some(t) && !s.threads[t].Ending?
    ensures WinnerPc(Move(s, t)) == WinnerPc(s)
  {
    var pc := s.threads[t];
    if pc.Holding? { assert BeginBody(s, t, pc.ref).winner == s.winner; }
  }

  /**
   * Once the winning Close has left its drain loop, no operation runs, and none is ever admitted
   * again: in every later state of every run there is no admitted operation and no caller that
   * has passed both looks at `closed`.
   */
  lemma DrainIsFinal(s: System, steps: seq<Step>)
    requires Reachable(s) && Drained(WinnerPc(s)) && IsRun(s, steps)
    ensures var s' := Exec(s, steps);
            && Drained(WinnerPc(s')) && s'.inFlight == 0
            && forall t :: 0 <= t < |s'.threads| ==> !Admitted(s'.threads[t]) && !s'.threads[t].OpCount?
  {
    ReachableInv(s);
    DrainedRun(s, steps);
    CountZero(Exec(s, steps).threads, Admitted);
  }

  lemma {:induction false} DrainedRun(s: System, steps: seq<Step>)
    requires Inv(s) && Drained(WinnerPc(s)) && IsRun(s, steps)
    ensures Inv(Exec(s, steps)) && Drained(WinnerPc(Exec(s, steps)))
    decreases |steps|
  {
    if steps != [] {
      DrainedStep(s, steps[0]);
      InvApply(s, steps[0]);
      DrainedRun(Apply(s, steps[0]), steps[1..]);
    }
  }

  /** The store is only ever closed with nothing running on it, and nothing executing in any session. */
  lemma StoreClosedQuietly(s: System)
    requires Reachable(s) && s.storeClosed
    ensures s.closed && s.inFlight == 0
    ensures forall t :: 0 <= t < |s.threads| ==> !Admitted(s.threads[t])
    ensures forall r :: 0 <= r < |s.heap| ==> !s.heap[r].session.executing && s.heap[r].slot == 1
  {
    ReachableInv(s);
    CountZero(s.threads, Admitted);
    forall r | 0 <= r < |s.heap| ensures !s.heap[r].session.executing && s.heap[r].slot == 1 {
      NothingExecutes(s, r);
      if Count(s.threads, SlotHolder(r)) > 0 { var t := CountWitness(s.threads, SlotHolder(r)); }
    }
  }

  // ---------------------------------------------------------------- sessions

  /** At most one ask body runs in a session, it runs with the slot's token, and only while admitted. */
  lemma OneBodyPerSession(s: System, r: nat)
    requires Reachable(s) && r < |s.heap|
    ensures s.heap[r].slot + Count(s.threads, SlotHolder(r)) == 1
    ensures s.heap[r].session.executing <==> exists t :: 0 <= t < |s.threads| && BodyOf(r)(s.threads[t])
    ensures forall t, u :: 0 <= t < |s.threads| && 0 <= u < |s.threads| && t != u ==>
              !(SlotHolder(r)(s.threads[t]) && SlotHolder(r)(s.threads[u]))
    ensures s.heap[r].session.executing ==> s.inFlight > 0 && !s.heap[r].session.closed && !s.storeClosed
  {
    ReachableInv(s);
    if s.heap[r].session.executing {
      var t := CountWitness(s.threads, BodyOf(r));
      CountHas(s.threads, Admitted, t);
    }
    forall t | 0 <= t < |s.threads| && BodyOf(r)(s.threads[t]) ensures s.heap[r].session.executing {
      CountHas(s.threads, BodyOf(r), t);
    }
    forall t, u | 0 <= t < |s.threads| && 0 <= u < |s.threads| && t != u && SlotHolder(r)(s.threads[t])
      ensures !SlotHolder(r)(s.threads[u])
    {
      CountHas(s.threads, SlotHolder(r), t);
    }
  }

  lemma {:induction false} NamedGrows(s: System, steps: seq<Step>)
    requires Inv(s) && IsRun(s, steps)
    ensures forall id :: id in s.named ==> id in Exec(s, steps).named && Exec(s, steps).named[id] == s.named[id]
    decreases |steps|
  {
    if steps != [] {
      InvApply(s, steps[0]);
      NamedStep(s, steps[0]);
      NamedGrows(Apply(s, steps[0]), steps[1..]);
    }
  }

  lemma NamedStep(s: System, step: Step)
    requires Inv(s) && Enabled(s, step)
    ensures forall id :: id in s.named ==> id in Apply(s, step).named && Apply(s, step).named[id] == s.named[id]
  {
    if step.Advance? {
      var t := step.t;
      assert Move(s, t).named == s.named
          || (s.threads[t].GetInsert? && s.registry.Some? && s.threads[t].id !in s.registry.value);
    }
  }

  /**
   * When the winning Close has returned, every session that was in the registry at any earlier
   * moment of the run is closed; the registry is gone and no caller ever wrote into it afterwards.
   */
  lemma CloseReachesEverySession(s: System, steps: seq<Step>, id: string)
    requires Reachable(s) && IsRun(s, steps)
    requires WinnerPc(Exec(s, steps)) == CloseReturned(true)
    ensures s.registry.Some? && id in s.registry.value ==> IsClosed(Exec(s, steps), s.registry.value[id])
    ensures Exec(s, steps).registry.None? && Exec(s, steps).storeClosed
    ensures forall t :: 0 <= t < |Exec(s, steps).threads| ==> !Exec(s, steps).threads[t].Panicked?
  {
    ReachableInv(s);
    RunInv(s, steps);
    NamedGrows(s, steps);
  }

  /** One call of Close does the closing: no other gets past the first decision, and none before the agent is closed. */
  lemma OneCloseWins(s: System, t: nat, u: nat)
    requires Reachable(s) && t < |s.threads| && u < |s.threads| && Closing(s.threads[t])
    ensures s.closed && (t != u ==> !Closing(s.threads[u]))
  {
    ReachableInv(s);
  }

  /**
   * GetSession hands out one session per name: two calls that were given registered sessions for one name
   * were given the same, closed or not. While the agent is open, every session given out is registered.
   */
  lemma OneSessionPerName(s: System, t: nat, u: nat)
    requires Reachable(s) && t < |s.threads| && u < |s.threads|
    requires s.threads[t].Got? && s.threads[u].Got? && s.threads[t].id == s.threads[u].id
    ensures s.threads[t].ref in s.named.Values && s.threads[u].ref in s.named.Values ==> s.threads[t].ref == s.threads[u].ref
    ensures !s.closed || !IsClosed(s, s.threads[t].ref) ==> s.threads[t].ref in s.named.Values
  {
    ReachableInv(s);
    assert Handed(s, s.threads[t].id, s.threads[t].ref) && Handed(s, s.threads[u].id, s.threads[u].ref);
  }

  /**
   * In every interleaving, a session without a running execution remembers exactly the last
   * `maxRounds` turns of the successful executions that began after its latest clear request; and a
   * running execution sees, until its end, the history that was there when it began.
   */
  lemma HistoryIsTheLog(s: System, r: nat)
    requires Reachable(s) && r < |s.heap|
    ensures !s.heap[r].session.executing ==> s.heap[r].session.turns == Expected(s.heap[r].log, s.maxRounds)
    ensures forall t :: 0 <= t < |s.threads| && BodyOf(r)(s.threads[t]) ==>
              s.threads[t].read == s.heap[r].session.turns
  {
    ReachableInv(s);
  }

  // ---------------------------------------------------------------- every call returns

  /** Steps of the calls themselves; spawning and user calls come from outside. */
  predicate Internal(step: Step) {
    step.Advance? || step.CancelWait? || step.FinishBody? || step.CloseOne?
  }

  /** How far a call still has to go; an ending operation pays for the wake-up it may cause. */
  function Weight(pc: Pc): nat {
    match pc
    case OpCheck(_) => 11
    case OpLock(_) => 10
    case OpRecheck(_) => 9
    case OpCount(_) => 8
    case Waiting(_) => 7
    case Holding(_) => 6
    case Body(_, _) => 5
    case Leaving(_) => 4
    case Working => 4
    case Ending => 3
    case GetCheck(_) => 8
    case GetLock(_) => 7
    case GetRecheck(_) => 6
    case GetInsert(_) => 5
    case CloseCas => 8
    case CloseDrain => 5
    case CloseParked => 4
    case CloseSnapshot => 3
    case CloseEach(left) => 2 + |left|
    case CloseStore => 1
    case _ => 0
  }

  ghost function Measure(s: System): nat {
    Sum(s.threads, Weight) + (if s.registry.Some? then |s.registry.value.Values| else 0)
  }

  /** One thread came closer to its end and the registry stayed. */
  ghost predicate Closer(s: System, s': System, t: nat) {
    Moved(s, s', t) && s'.registry == s.registry && Weight(s'.threads[t]) < Weight(s.threads[t])
  }

  lemma DescendOneThread(s: System, s': System, t: nat)
    requires Closer(s, s', t)
    ensures Measure(s') < Measure(s)
  {
    SumUpdate(s.threads, t, s'.threads[t], Weight);
  }

  lemma OpMoveCloser(s: System, t: nat)
    requires CanAdvance(s, t)
    requires var pc := s.threads[t]; pc.OpCheck? || pc.OpLock? || pc.OpRecheck? || pc.OpCount?
    ensures Closer(s, Move(s, t), t)
  {
  }

  lemma SlotMoveCloser(s: System, t: nat)
    requires CanAdvance(s, t) && AtSlot(s.threads[t])
    ensures Closer(s, Move(s, t), t)
  {
  }

  lemma GetMoveCloser(s: System, t: nat)
    requires CanAdvance(s, t)
    requires var pc := s.threads[t]; pc.GetCheck? || pc.GetLock? || pc.GetRecheck?
    ensures Closer(s, Move(s, t), t)
  {
  }

  lemma CloseMoveCloser(s: System, t: nat)
    requires CanAdvance(s, t)
    requires var pc := s.threads[t]; pc.CloseCas? || pc.CloseDrain? || pc.CloseEach? || pc.CloseStore?
    ensures Closer(s, Move(s, t), t)
  {
  }

  /** The last ending operation wakes Close, which then has to look again. */
  lemma DescendLastEnding(s: System, t: nat)
    requires GateInv(s) && t < |s.threads| && s.threads[t].Ending?
    ensures Sum(Wake(s.threads)[t := OpReturned], Weight) < Sum(s.threads, Weight)
  {
    var woken := Wake(s.threads);
    assert woken[t] == s.threads[t];
    SumUpdate(woken, t, OpReturned, Weight);
    assert Sum(woken, Weight) <= Sum(s.threads, Weight) + 1 by { WakeAddsLittle(s); }
  }

  lemma WakeAddsLittle(s: System)
    requires GateInv(s)
    ensures Sum(Wake(s.threads), Weight) <= Sum(s.threads, Weight) + 1
  {
    WakeWinner(s);
    if WinnerPc(s).CloseParked? {
      SumUpdate(s.threads, s.winner.value, CloseDrain, Weight);
    }
  }

  lemma DescendEnding(s: System, t: nat)
    requires GateInv(s) && t < |s.threads| && s.threads[t].Ending?
    ensures Measure(EndOperation(s, t)) < Measure(s)
  {
    GateEndingPositive(s, t);
    if s.inFlight == 1 {
      DescendLastEnding(s, t);
    } else {
      DescendOneThread(s, EndOperation(s, t), t);
    }
  }

  /** A new registry entry is one more session for Close to reach, and one call nearer its end. */
  lemma DescendInsert(s: System, t: nat, id: string)
    requires t < |s.threads| && s.threads[t] == GetInsert(id) && s.registry.Some?
    ensures Measure(GetRegistered(s, t, id)) < Measure(s)
  {
    if id in s.registry.value {
      SumUpdate(s.threads, t, Got(id, s.registry.value[id]), Weight);
    } else {
      SumUpdate(s.threads, t, Got(id, |s.heap|), Weight);
      OneMoreValue(s.registry.value, id, |s.heap|);
    }
  }

  lemma OneMoreValue(m: map<string, nat>, id: string, ref: nat)
    ensures |m[id := ref].Values| <= |m.Values| + 1
  {
    var a, b := m[id := ref].Values, m.Values + {ref};
    assert a <= b;
    assert b == a + (b - a);
  }

  lemma DescendSnapshot(s: System, t: nat)
    requires CanAdvance(s, t) && s.threads[t].CloseSnapshot?
    ensures Measure(Move(s, t)) < Measure(s)
  {
    SumUpdate(s.threads, t, Move(s, t).threads[t], Weight);
  }

  lemma DescendMove(s: System, t: nat)
    requires GateInv(s) && RegistryInv(s) && CanAdvance(s, t)
    ensures Measure(Move(s, t)) < Measure(s)
  {
    var pc := s.threads[t];
    if pc.Ending? {
      DescendEnding(s, t);
    } else if pc.GetInsert? {
      DescendInsert(s, t, pc.id);
    } else if pc.CloseSnapshot? {
      DescendSnapshot(s, t);
    } else {
      if AtSlot(pc) { SlotMoveCloser(s, t); }
      else if AtRegistry(pc) { GetMoveCloser(s, t); }
      else if pc.CloseCas? || pc.CloseDrain? || pc.CloseEach? || pc.CloseStore? { CloseMoveCloser(s, t); }
      else { OpMoveCloser(s, t); }
      DescendOneThread(s, Move(s, t), t);
    }
  }

  lemma CloseOneCloser(s: System, t: nat, ref: nat)
    requires Enabled(s, CloseOne(t, ref))
    ensures Closer(s, Apply(s, CloseOne(t, ref)), t)
  {
    assert s.threads[t].left == (s.threads[t].left - {ref}) + {ref};
  }

  lemma Descend(s: System, step: Step)
    requires GateInv(s) && RegistryInv(s) && Enabled(s, step) && Internal(step)
    ensures Measure(Apply(s, step)) < Measure(s)
  {
    match step
    case Advance(t) => DescendMove(s, t);
    case CancelWait(t) => DescendAside(s, step);
    case FinishBody(t, _) => DescendAside(s, step);
    case CloseOne(t, ref) => DescendCloseOne(s, t, ref);
  }

  lemma DescendAside(s: System, step: Step)
    requires Enabled(s, step) && (step.CancelWait? || step.FinishBody?)
    ensures Measure(Apply(s, step)) < Measure(s)
  {
    DescendOneThread(s, Apply(s, step), step.t);
  }

  lemma DescendCloseOne(s: System, t: nat, ref: nat)
    requires Enabled(s, CloseOne(t, ref))
    ensures Measure(Apply(s, CloseOne(t, ref))) < Measure(s)
  {
    CloseOneCloser(s, t, ref);
    DescendOneThread(s, Apply(s, CloseOne(t, ref)), t);
  }

  /** The calls that are under way can take only so many steps, whatever the interleaving. */
  lemma {:induction false} CallsAreBounded(s: System, steps: seq<Step>)
    requires Inv(s) && IsRun(s, steps) && forall step :: step in steps ==> Internal(step)
    ensures |steps| <= Measure(s)
    decreases |steps|
  {
    if steps != [] {
      Descend(s, steps[0]);
      InvApply(s, steps[0]);
      CallsAreBounded(Apply(s, steps[0]), steps[1..]);
    }
  }

  /** An operation inside a session's slot protocol can always go on, or the token's holder can. */
  lemma SlotProgress(s: System, t: nat) returns (step: Step)
    requires Inv(s) && t < |s.threads| && s.opMu.None?
    requires Admitted(s.threads[t])
    ensures Internal(step) && Enabled(s, step)
  {
    var pc := s.threads[t];
    if pc.Waiting? && s.heap[pc.ref].slot == 0 {
      var u := CountWitness(s.threads, SlotHolder(pc.ref));
      step := HolderProgress(s, u, pc.ref);
    } else if pc.Holding? || pc.Body? || pc.Leaving? {
      step := HolderProgress(s, t, pc.ref);
    } else {
      step := Advance(t);
    }
  }

  lemma HolderProgress(s: System, t: nat, ref: nat) returns (step: Step)
    requires Inv(s) && t < |s.threads| && ref < |s.heap| && SlotHolder(ref)(s.threads[t])
    ensures Internal(step) && Enabled(s, step)
  {
    CountHas(s.threads, SlotHolder(ref), t);
    if s.threads[t].Body? { step := FinishBody(t, None); } else { step := Advance(t); }
  }

  /** No deadlock: as long as some call has not returned, some call can take a step. */
  lemma Progress(s: System, t: nat) returns (step: Step)
    requires Inv(s) && t < |s.threads| && !Finished(s.threads[t])
    ensures Internal(step) && Enabled(s, step)
  {
    if s.opMu.Some? {
      step := Advance(s.opMu.value);
    } else if s.sessionsMu.Some? {
      step := Advance(s.sessionsMu.value);
    } else if Admitted(s.threads[t]) {
      step := SlotProgress(s, t);
    } else if s.threads[t].CloseParked? {
      var u := CountWitness(s.threads, Admitted);
      step := SlotProgress(s, u);
    } else if s.threads[t].CloseEach? && s.threads[t].left != {} {
      var ref :| ref in s.threads[t].left;
      step := CloseOne(t, ref);
    } else {
      step := Advance(t);
    }
  }

  /**
   * A run of the calls under way that cannot be extended has returned every one of them: Close
   * returns, and so does every ask and every other operation whose body ends.
   */
  lemma MaximalRunsReturn(s: System, steps: seq<Step>)
    requires Reachable(s) && IsRun(s, steps) && forall step :: step in steps ==> Internal(step)
    ensures |steps| <= Measure(s)
    ensures (forall step :: Internal(step) ==> !Enabled(Exec(s, steps), step)) ==>
              forall t :: 0 <= t < |Exec(s, steps).threads| ==> Finished(Exec(s, steps).threads[t])
  {
    ReachableInv(s);
    CallsAreBounded(s, steps);
    RunInv(s, steps);
    var s' := Exec(s, steps);
    if forall step :: Internal(step) ==> !Enabled(s', step) {
      forall t | 0 <= t < |s'.threads| ensures Finished(s'.threads[t]) {
        if !Finished(s'.threads[t]) { var step := Progress(s', t); }
      }
    }
  }
}
