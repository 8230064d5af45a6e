/** What closing a session means over whole runs, and what an operation on an open agent may count on. */
module SessionClose {
  import opened Sequences
  import opened SessionCore
  import opened Lifecycle
  import opened LifecycleSafety
  import opened LifecycleTheorems

  predicate BegunHere(e: Event) { e.Began? }

  /** The session is closed, or it executes and will be closed by the end of that execution. */
  ghost predicate Shut(s: System, ref: nat) {
    ref < |s.heap| && (s.heap[ref].session.closed || (s.heap[ref].session.executing && s.heap[ref].session.pendingClose))
  }

  /** Nobody has asked for a close of this session. */
  ghost predicate Unasked(s: System, ref: nat) {
    ref < |s.heap| && !s.heap[ref].session.closed && !s.heap[ref].session.pendingClose
  }

  /** Every body of the session in `s'` was already there in `s`. */
  ghost predicate NoNewBody(s: System, s': System, ref: nat) {
    forall t :: 0 <= t < |s'.threads| && BodyOf(ref)(s'.threads[t]) ==> t < |s.threads| && s.threads[t] == s'.threads[t]
  }

  /** Nobody but `t` moved, apart from a parked Close that was woken. */
  ghost predicate OthersStay(s: System, s': System, t: nat) {
    |s'.threads| == |s.threads| &&
    forall u :: 0 <= u < |s.threads| && u != t ==>
      s'.threads[u] == s.threads[u] || (s.threads[u].CloseParked? && s'.threads[u].CloseDrain?)
  }

  ghost predicate StaysShut(s: System, s': System, ref: nat) {
    && ref < |s.heap| && Shut(s', ref) && NoNewBody(s, s', ref)
    && (IsClosed(s, ref) ==> IsClosed(s', ref))
    && Count(s'.heap[ref].log, BegunHere) == Count(s.heap[ref].log, BegunHere)
  }

  // ---------------------------------------------------------------- steps

  lemma MoveOthersStay(s: System, t: nat)
    requires CanAdvance(s, t)
    ensures OthersStay(s, Move(s, t), t)
  {
    if AtRegistry(s.threads[t]) { RegistryOthersStay(s, t); }
  }

  lemma RegistryOthersStay(s: System, t: nat)
    requires CanAdvance(s, t) && AtRegistry(s.threads[t])
    ensures OthersStay(s, Move(s, t), t)
  {
  }

  /** Where a thread can be after its own step: a body follows a taken slot, a return an admitted end or a closed agent. */
  ghost predicate GoesFrom(s: System, s': System, t: nat) {
    && t < |s.threads| && t < |s'.threads|
    && (s'.threads[t].Body? ==> s.threads[t].Holding?)
    && (s'.threads[t].OpReturned? ==> s.threads[t].Ending? || s.closed)
  }

  lemma MoveGoes(s: System, t: nat)
    requires CanAdvance(s, t)
    ensures GoesFrom(s, Move(s, t), t)
  {
    if AtRegistry(s.threads[t]) { RegistryGoes(s, t); }
  }

  lemma RegistryGoes(s: System, t: nat)
    requires CanAdvance(s, t) && AtRegistry(s.threads[t])
    ensures GoesFrom(s, Move(s, t), t)
  {
  }

  lemma MoveStaysShut(s: System, t: nat, ref: nat)
    requires SlotInv(s) && CanAdvance(s, t) && Shut(s, ref)
    ensures StaysShut(s, Move(s, t), ref)
  {
    if s.threads[t].Holding? {
      NotYetExecuting(s, t, s.threads[t].ref);
    } else {
      if AtRegistry(s.threads[t]) { RegistryMoveKeeps(s, t); } else { OtherMoveKeeps(s, t); }
      MoveOthersStay(s, t);
      MoveGoes(s, t);
    }
  }

  lemma ShutStep(s: System, step: Step, ref: nat)
    requires SlotInv(s) && Enabled(s, step) && Shut(s, ref)
    ensures StaysShut(s, Apply(s, step), ref)
  {
    match step
    case Spawn(_) =>
    case Advance(t) => MoveStaysShut(s, t, ref);
    case CancelWait(_) =>
    case FinishBody(_, _) => FinishStaysShut(s, step, ref);
    case CloseOne(_, _) =>
    case UserClear(_) => ClearStaysShut(s, step, ref);
    case UserClose(_) =>
  }

  /** The end of the running body is what closes the session. */
  lemma FinishStaysShut(s: System, step: Step, ref: nat)
    requires Enabled(s, step) && step.FinishBody? && Shut(s, ref)
    ensures StaysShut(s, Apply(s, step), ref)
  {
    CountAppend(s.heap[s.threads[step.t].ref].log, Ended(step.turn), BegunHere);
  }

  lemma ClearStaysShut(s: System, step: Step, ref: nat)
    requires Enabled(s, step) && step.UserClear? && Shut(s, ref)
    ensures StaysShut(s, Apply(s, step), ref)
  {
    CountAppend(s.heap[step.ref].log, ClearAsked, BegunHere);
  }

  lemma {:induction false} ShutRun(s: System, steps: seq<Step>, ref: nat)
    requires Inv(s) && IsRun(s, steps) && Shut(s, ref)
    ensures StaysShut(s, Exec(s, steps), ref)
    decreases |steps|
  {
    if steps != [] {
      ShutStep(s, steps[0], ref);
      InvApply(s, steps[0]);
      ShutRun(Apply(s, steps[0]), steps[1..], ref);
    }
  }

  /** A step that is a close of this session, by its user or by the agent's Close. */
  predicate Closes(step: Step, ref: nat) {
    (step.UserClose? || step.CloseOne?) && step.ref == ref
  }

  /**
   * A close is never lost. Whenever a session is closed, while an ask runs in it or not, it is from
   * then on executing or closed, and once closed it stays closed; no execution of it begins any more,
   * so that the only body it can still run is the one that was running when it was closed.
   */
  lemma CloseIsFinal(s: System, close: Step, before: seq<Step>, after: seq<Step>, ref: nat)
    requires Reachable(s) && Enabled(s, close) && Closes(close, ref)
    requires IsRun(Apply(s, close), before) && IsRun(Exec(Apply(s, close), before), after)
    ensures var s1 := Exec(Apply(s, close), before); var s2 := Exec(s1, after);
            && ref < |s1.heap| && (s1.heap[ref].session.executing || s1.heap[ref].session.closed)
            && ref < |s2.heap| && (s1.heap[ref].session.closed ==> s2.heap[ref].session.closed)
            && Count(s1.heap[ref].log, BegunHere) == Count(s.heap[ref].log, BegunHere)
            && forall t :: 0 <= t < |s1.threads| && BodyOf(ref)(s1.threads[t]) ==>
                 t < |s.threads| && s.threads[t] == s1.threads[t]
  {
    ReachableInv(s);
    CloseShuts(s, close, ref);
    CloseRun(s, Apply(s, close), before, after, ref);
  }

  lemma CloseRun(s: System, s0: System, before: seq<Step>, after: seq<Step>, ref: nat)
    requires Inv(s0) && StaysShut(s, s0, ref) && IsRun(s0, before) && IsRun(Exec(s0, before), after)
    ensures StaysShut(s, Exec(s0, before), ref) && StaysShut(Exec(s0, before), Exec(Exec(s0, before), after), ref)
  {
    RunInv(s0, before);
    ShutRun(s0, before, ref);
    ShutRun(Exec(s0, before), after, ref);
  }

  lemma CloseShuts(s: System, close: Step, ref: nat)
    requires Inv(s) && Enabled(s, close) && Closes(close, ref)
    ensures Inv(Apply(s, close)) && StaysShut(s, Apply(s, close), ref)
  {
    InvApply(s, close);
  }

  lemma UnaskedStep(s: System, step: Step, ref: nat)
    requires Enabled(s, step) && Unasked(s, ref) && !Closes(step, ref)
    ensures Unasked(Apply(s, step), ref)
  {
    if step.Advance? { UnaskedMove(s, step.t, ref); }
  }

  lemma UnaskedMove(s: System, t: nat, ref: nat)
    requires CanAdvance(s, t) && Unasked(s, ref)
    ensures Unasked(Move(s, t), ref)
  {
    if !s.threads[t].Holding? {
      if AtRegistry(s.threads[t]) { RegistryMoveKeeps(s, t); } else { OtherMoveKeeps(s, t); }
    }
  }

  /** And nothing else closes a session: an open one that nobody closes is open in every later state. */
  lemma {:induction false} OnlyACloseCloses(s: System, steps: seq<Step>, ref: nat)
    requires Inv(s) && IsRun(s, steps) && Unasked(s, ref)
    requires forall step :: step in steps ==> !Closes(step, ref)
    ensures Unasked(Exec(s, steps), ref)
    decreases |steps|
  {
    if steps != [] {
      UnaskedStep(s, steps[0], ref);
      InvApply(s, steps[0]);
      OnlyACloseCloses(Apply(s, steps[0]), steps[1..], ref);
    }
  }

  // ---------------------------------------------------------------- who is served

  lemma ClosedStep(s: System, step: Step)
    requires Enabled(s, step) && s.closed
    ensures Apply(s, step).closed
  {
    if step.Advance? { ClosedMove(s, step.t); }
  }

  lemma ClosedMove(s: System, t: nat)
    requires CanAdvance(s, t) && s.closed
    ensures Move(s, t).closed
  {
  }

  lemma {:induction false} ClosedRun(s: System, steps: seq<Step>)
    requires IsRun(s, steps) && s.closed
    ensures Exec(s, steps).closed
    decreases |steps|
  {
    if steps != [] {
      ClosedStep(s, steps[0]);
      ClosedRun(Apply(s, steps[0]), steps[1..]);
    }
  }

  predicate IsAt(s: System, t: nat, pc: Pc) {
    t < |s.threads| && s.threads[t] == pc
  }

  /** An operation returns without having been admitted only when the agent is closed. */
  lemma RefusedOnlyWhenClosed(s: System, step: Step, t: nat)
    requires Enabled(s, step) && t < |s.threads|
    requires !Admitted(s.threads[t]) && s.threads[t] != OpReturned && IsAt(Apply(s, step), t, OpReturned)
    ensures s.closed
  {
    if step.Advance? {
      MoveOthersStay(s, step.t);
      if step.t == t { MoveGoes(s, t); }
    }
  }

  /** The ask has not yet run its body to the end. */
  predicate AskBefore(pc: Pc, ref: nat) {
    match pc
    case OpCheck(target) => target == Some(ref)
    case OpLock(target) => target == Some(ref)
    case OpRecheck(target) => target == Some(ref)
    case OpCount(target) => target == Some(ref)
    case Waiting(r) => r == ref
    case Holding(r) => r == ref
    case Body(r, _) => r == ref
    case _ => false
  }

  predicate AskAfter(pc: Pc) { pc.Leaving? || pc.Ending? || pc.OpReturned? }

  function FinishOf(t: nat): Step -> bool {
    (step: Step) => step.FinishBody? && step.t == t
  }

  /** The agent and the session are open. */
  ghost predicate OpenFor(s: System, ref: nat) {
    !s.closed && ref < |s.heap| && !s.heap[ref].session.closed
  }

  ghost predicate AskOf(s: System, t: nat, ref: nat) {
    t < |s.threads| && ref < |s.heap| && (AskBefore(s.threads[t], ref) || AskAfter(s.threads[t]))
  }

  /** A step of the ask itself: only the end of its body takes it from before to after. */
  lemma AskMove(s: System, t: nat, ref: nat)
    requires CanAdvance(s, t) && OpenFor(s, ref) && AskOf(s, t, ref)
    ensures AskOf(Move(s, t), t, ref) && (AskAfter(Move(s, t).threads[t]) <==> AskAfter(s.threads[t]))
  {
    if s.threads[t].Ending? { AskEnds(s, t, ref); }
  }

  lemma AskEnds(s: System, t: nat, ref: nat)
    requires t < |s.threads| && ref < |s.heap|
    ensures AskOf(EndOperation(s, t), t, ref) && EndOperation(s, t).threads[t] == OpReturned
  {
  }

  lemma HeapGrows(s: System, step: Step)
    requires Enabled(s, step)
    ensures |s.heap| <= |Apply(s, step).heap|
  {
    if step.Advance? && AtRegistry(s.threads[step.t]) { RegistryMoveKeeps(s, step.t); }
  }

  ghost predicate AskGoesOn(s: System, s': System, t: nat, ref: nat, finished: bool) {
    AskOf(s, t, ref) && AskOf(s', t, ref) && (AskAfter(s'.threads[t]) <==> (AskAfter(s.threads[t]) || finished))
  }

  lemma AskStep(s: System, step: Step, t: nat, ref: nat)
    requires Enabled(s, step) && OpenFor(s, ref) && AskOf(s, t, ref) && step != CancelWait(t)
    ensures AskGoesOn(s, Apply(s, step), t, ref, FinishOf(t)(step))
    ensures AskAfter(s.threads[t]) ==> !FinishOf(t)(step)
  {
    HeapGrows(s, step);
    if step == Advance(t) {
      AskMove(s, t, ref);
    } else if step.Advance? {
      MoveOthersStay(s, step.t);
    }
  }

  lemma AskClosedBefore(s: System, steps: seq<Step>, ref: nat)
    requires Inv(s) && IsRun(s, steps) && ref < |s.heap| && OpenFor(Exec(s, steps), ref)
    ensures OpenFor(s, ref)
  {
    if s.closed { ClosedRun(s, steps); }
    if s.heap[ref].session.closed { ShutRun(s, steps, ref); }
  }

  lemma {:induction false} AskRun(s: System, steps: seq<Step>, t: nat, ref: nat)
    requires Inv(s) && IsRun(s, steps) && AskOf(s, t, ref) && CancelWait(t) !in steps
    requires OpenFor(Exec(s, steps), ref)
    ensures AskOf(Exec(s, steps), t, ref)
    ensures Count(steps, FinishOf(t)) ==
            (if AskAfter(Exec(s, steps).threads[t]) then 1 else 0) - (if AskAfter(s.threads[t]) then 1 else 0)
    decreases |steps|
  {
    if steps != [] {
      AskClosedBefore(s, steps, ref);
      AskStep(s, steps[0], t, ref);
      InvApply(s, steps[0]);
      AskRun(Apply(s, steps[0]), steps[1..], t, ref);
      CountFirst(steps, FinishOf(t));
    }
  }

  lemma CountFirst(steps: seq<Step>, p: Step -> bool)
    requires steps != []
    ensures Count(steps, p) == (if p(steps[0]) then 1 else 0) + Count(steps[1..], p)
  {
    CountConcat([steps[0]], steps[1..], p);
    CountOne(steps[0], p);
    assert [steps[0]] + steps[1..] == steps;
  }

  /**
   * Every ask is served: when an ask has returned whose context did not end while it waited, and the agent
   * and its session are still open, then it ran its body to the end, and that exactly once.
   */
  lemma AskIsServedOnce(s: System, steps: seq<Step>, t: nat, ref: nat)
    requires Reachable(s) && IsRun(s, steps) && CancelWait(t) !in steps
    requires t < |s.threads| && s.threads[t] == OpCheck(Some(ref))
    requires var s' := Exec(s, steps); t < |s'.threads| && s'.threads[t] == OpReturned && OpenFor(s', ref)
    ensures Count(steps, FinishOf(t)) == 1
  {
    ReachableInv(s);
    AskRun(s, steps, t, ref);
  }
}
