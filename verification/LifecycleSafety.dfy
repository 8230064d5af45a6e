/** The lifecycle invariant is inductive: every step of every interleaving keeps it. */
module LifecycleSafety {
  import opened Sequences
  import opened SessionCore
  import opened Lifecycle

  // ---------------------------------------------------------------- preservation: the gate

  lemma StartInv(maxRounds: int)
    ensures Inv(Start(maxRounds))
  {
  }

  /** The parts of the state the gate speaks about. */
  ghost predicate SameGate(s: System, s': System) {
    && s'.inFlight == s.inFlight && s'.opMu == s.opMu && s'.closed == s.closed
    && s'.winner == s.winner && s'.storeClosed == s.storeClosed
  }

  /** Thread `t`, and no other, is at a new program point. */
  ghost predicate Moved(s: System, s': System, t: nat) {
    t < |s.threads| && |s'.threads| == |s.threads| && s'.threads == s.threads[t := s'.threads[t]]
  }

  lemma GateFrame(s: System, s': System, t: nat)
    requires GateInv(s) && Moved(s, s', t) && SameGate(s, s')
    requires Admitted(s.threads[t]) == Admitted(s'.threads[t])
    requires !HoldsOpMu(s.threads[t]) && !HoldsOpMu(s'.threads[t])
    requires !Closing(s.threads[t]) && !Closing(s'.threads[t])
    ensures GateInv(s')
  {
    CountUpdate(s.threads, t, s'.threads[t], Admitted);
  }

  lemma GateLock(s: System, t: nat, target: Option<nat>)
    requires GateInv(s) && t < |s.threads| && s.threads[t] == OpLock(target) && (s.opMu.None?)
    ensures GateInv(Goto(s, t, OpRecheck(target)).(opMu := Some(t)))
  {
    CountUpdate(s.threads, t, OpRecheck(target), Admitted);
  }

  lemma GateRefuse(s: System, t: nat, target: Option<nat>)
    requires GateInv(s) && t < |s.threads| && s.threads[t] == OpRecheck(target) && (s.closed)
    ensures GateInv(Goto(s, t, OpReturned).(opMu := None))
  {
    CountUpdate(s.threads, t, OpReturned, Admitted);
  }

  lemma GateAdmit(s: System, t: nat, target: Option<nat>)
    requires GateInv(s) && t < |s.threads| && s.threads[t] == OpRecheck(target) && (!s.closed)
    ensures GateInv(Goto(s, t, OpCount(target)))
  {
    CountUpdate(s.threads, t, OpCount(target), Admitted);
  }

  lemma GateCount(s: System, t: nat, target: Option<nat>, pc: Pc)
    requires GateInv(s) && t < |s.threads| && s.threads[t] == OpCount(target) && (pc.Waiting? || pc.Working?)
    ensures GateInv(Goto(s, t, pc).(opMu := None, inFlight := s.inFlight + 1))
  {
    CountUpdate(s.threads, t, pc, Admitted);
  }

  lemma GateWin(s: System, t: nat)
    requires GateInv(s) && t < |s.threads| && s.threads[t] == CloseCas && (!s.closed)
    ensures GateInv(Goto(s, t, CloseDrain).(closed := true, winner := Some(t)))
  {
    CountUpdate(s.threads, t, CloseDrain, Admitted);
  }

  lemma GateLose(s: System, t: nat)
    requires GateInv(s) && t < |s.threads| && s.threads[t] == CloseCas && (s.closed)
    ensures GateInv(Goto(s, t, CloseReturned(false)))
  {
    CountUpdate(s.threads, t, CloseReturned(false), Admitted);
  }

  lemma GateDrain(s: System, t: nat)
    requires GateInv(s) && t < |s.threads| && s.threads[t] == CloseDrain && (s.opMu.None?)
    ensures GateInv(Goto(s, t, if s.inFlight > 0 then CloseParked else CloseSnapshot))
  {
    CountUpdate(s.threads, t, if s.inFlight > 0 then CloseParked else CloseSnapshot, Admitted);
  }

  /** The winning Close goes on once the agent is drained. */
  lemma GateAfterDrain(s: System, s': System, t: nat)
    requires GateInv(s) && Moved(s, s', t) && s'.inFlight == s.inFlight && s'.opMu == s.opMu
    requires s'.closed == s.closed && s'.winner == s.winner
    requires Drained(s.threads[t]) && Drained(s'.threads[t]) && s.threads[t] != CloseReturned(true)
    requires s'.storeClosed == (s'.threads[t] == CloseReturned(true))
    ensures GateInv(s')
  {
    CountUpdate(s.threads, t, s'.threads[t], Admitted);
  }

  /** Waking the condition variable's waiters wakes the winning Close, if it waits. */
  lemma WakeWinner(s: System)
    requires GateInv(s)
    ensures Wake(s.threads) ==
            if WinnerPc(s).CloseParked? then s.threads[s.winner.value := CloseDrain] else s.threads
  {
    forall t | 0 <= t < |s.threads| && s.threads[t].CloseParked? ensures s.winner == Some(t) { }
  }

  lemma GateEnding(s: System, t: nat)
    requires GateInv(s) && t < |s.threads| && s.threads[t].Ending? && s.opMu.None? && s.inFlight != 1
    ensures s.inFlight > 1
    ensures GateInv(EndOperation(s, t))
  {
    CountHas(s.threads, Admitted, t);
    CountUpdate(s.threads, t, OpReturned, Admitted);
  }

  lemma GateWoken(s: System)
    requires GateInv(s)
    ensures GateInv(s.(threads := Wake(s.threads)))
  {
    WakeWinner(s);
    if WinnerPc(s).CloseParked? {
      CountUpdate(s.threads, s.winner.value, CloseDrain, Admitted);
    }
  }

  lemma GateLastEnding(s: System, t: nat)
    requires GateInv(s) && t < |s.threads| && s.threads[t].Ending? && s.opMu.None? && s.inFlight == 1
    requires !WinnerPc(s).CloseParked?
    ensures GateInv(Goto(s, t, OpReturned).(inFlight := 0))
  {
    CountUpdate(s.threads, t, OpReturned, Admitted);
  }

  lemma GateMoveOp(s: System, t: nat)
    requires GateInv(s) && CanAdvance(s, t)
    requires var pc := s.threads[t]; pc.OpLock? || pc.OpRecheck? || pc.OpCount? || pc.Ending?
    ensures GateInv(Move(s, t))
  {
    match s.threads[t]
    case OpLock(target) => GateLock(s, t, target);
    case OpRecheck(target) =>
      if s.closed { GateRefuse(s, t, target); } else { GateAdmit(s, t, target); }
    case OpCount(target) => GateCount(s, t, target, Move(s, t).threads[t]);
    case Ending =>
      if s.inFlight == 1 {
        GateWoken(s);
        GateLastEnding(s.(threads := Wake(s.threads)), t);
      } else {
        GateEnding(s, t);
      }
  }

  lemma GateMoveClose(s: System, t: nat)
    requires GateInv(s) && CanAdvance(s, t)
    requires var pc := s.threads[t]; pc.CloseCas? || pc.CloseDrain? || pc.CloseSnapshot? || pc.CloseEach? || pc.CloseStore?
    ensures GateInv(Move(s, t))
  {
    match s.threads[t]
    case CloseCas => if s.closed { GateLose(s, t); } else { GateWin(s, t); }
    case CloseDrain => GateDrain(s, t);
    case CloseSnapshot => GateAfterDrain(s, Move(s, t), t);
    case CloseEach(_) => GateAfterDrain(s, Move(s, t), t);
    case CloseStore => GateAfterDrain(s, Move(s, t), t);
  }

  /** The points whose steps the gate does not see. */
  predicate AtSlot(pc: Pc) { pc.Waiting? || pc.Holding? || pc.Leaving? || pc.Working? }

  predicate AtRegistry(pc: Pc) { pc.GetCheck? || pc.GetLock? || pc.GetRecheck? || pc.GetInsert? }

  ghost predicate UnseenByGate(s: System, s': System, t: nat) {
    && Moved(s, s', t) && SameGate(s, s')
    && Admitted(s.threads[t]) == Admitted(s'.threads[t])
    && !HoldsOpMu(s'.threads[t]) && !Closing(s'.threads[t])
  }

  lemma SlotMoveUnseen(s: System, t: nat)
    requires CanAdvance(s, t) && (AtSlot(s.threads[t]) || s.threads[t].OpCheck?)
    ensures UnseenByGate(s, Move(s, t), t)
  {
  }

  lemma RegistryMoveUnseen(s: System, t: nat)
    requires CanAdvance(s, t) && AtRegistry(s.threads[t])
    ensures UnseenByGate(s, Move(s, t), t)
  {
  }

  /** Every step of a call keeps the gate. */
  lemma GateMove(s: System, t: nat)
    requires GateInv(s) && CanAdvance(s, t)
    ensures GateInv(Move(s, t))
  {
    var pc := s.threads[t];
    if pc.OpLock? || pc.OpRecheck? || pc.OpCount? || pc.Ending? {
      GateMoveOp(s, t);
    } else if pc.CloseCas? || pc.CloseDrain? || pc.CloseSnapshot? || pc.CloseEach? || pc.CloseStore? {
      GateMoveClose(s, t);
    } else {
      if AtRegistry(pc) { RegistryMoveUnseen(s, t); } else { SlotMoveUnseen(s, t); }
      GateFrame(s, Move(s, t), t);
    }
  }

  lemma GateSpawn(s: System, pc: Pc)
    requires GateInv(s) && CanSpawn(s, pc)
    ensures GateInv(s.(threads := s.threads + [pc]))
  {
    CountAppend(s.threads, pc, Admitted);
    var v := s.(threads := s.threads + [pc]);
    assert WinnerPc(v) == WinnerPc(s);
    assert !HoldsOpMu(pc) && !Closing(pc) && !Admitted(pc) && !pc.OpCount?;
  }

  lemma GateApply(s: System, step: Step)
    requires GateInv(s) && Enabled(s, step)
    ensures GateInv(Apply(s, step))
  {
    match step
    case Spawn(pc) => GateSpawn(s, pc);
    case Advance(t) => GateMove(s, t);
    case CancelWait(t) => GateFrame(s, Apply(s, step), t);
    case FinishBody(t, _) => GateFrame(s, Apply(s, step), t);
    case CloseOne(t, _) => GateAfterDrain(s, Apply(s, step), t);
    case UserClear(_) =>
    case UserClose(_) =>
  }

  // ---------------------------------------------------------------- preservation: the registry

  /** Sessions never reopen and never disappear. */
  ghost predicate ClosedGrows(s: System, s': System) {
    |s.heap| <= |s'.heap| &&
    forall r :: 0 <= r < |s.heap| && s.heap[r].session.closed ==> s'.heap[r].session.closed
  }

  ghost predicate SameRegistry(s: System, s': System) {
    && s'.sessionsMu == s.sessionsMu && s'.registry == s.registry && s'.named == s.named && s'.winner == s.winner
    && (s.closed ==> s'.closed)
  }

  /** `Got` is not among the points this frame covers. */
  lemma RegistryFrame(s: System, s': System, t: nat)
    requires GateInv(s) && RegistryInv(s) && Moved(s, s', t) && SameRegistry(s, s') && ClosedGrows(s, s')
    requires !HoldsSessionsMu(s.threads[t]) && !HoldsSessionsMu(s'.threads[t])
    requires !s'.threads[t].Got? && !s'.threads[t].Panicked?
    requires PastSnapshot(s.threads[t]) == PastSnapshot(s'.threads[t]) == false
    requires Closing(s.threads[t]) == Closing(s'.threads[t])
    ensures RegistryInv(s')
  {
  }

  lemma RegistryHeap(s: System, s': System)
    requires GateInv(s) && RegistryInv(s) && SameRegistry(s, s') && ClosedGrows(s, s') && s'.threads == s.threads
    ensures RegistryInv(s')
  {
  }

  /** A thread enters or leaves the registry's critical section. */
  lemma RegistryLock(s: System, t: nat, id: string)
    requires GateInv(s) && RegistryInv(s) && t < |s.threads| && s.threads[t] == GetLock(id) && s.sessionsMu.None?
    ensures RegistryInv(Goto(s, t, GetRecheck(id)).(sessionsMu := Some(t)))
  {
  }

  lemma RegistryAdmit(s: System, t: nat, id: string)
    requires GateInv(s) && RegistryInv(s) && t < |s.threads| && s.threads[t] == GetRecheck(id) && !s.closed
    ensures RegistryInv(Goto(s, t, GetInsert(id)))
  {
    assert s.winner.None?;
  }

  lemma RegistryOrphan(s: System, t: nat, id: string)
    requires GateInv(s) && RegistryInv(s) && t < |s.threads|
    requires s.threads[t] == GetCheck(id)
    requires s.closed
    ensures RegistryInv(GetOrphan(s, t, id))
  {
  }

  lemma RegistryOrphanUnlock(s: System, t: nat, id: string)
    requires GateInv(s) && RegistryInv(s) && t < |s.threads|
    requires s.threads[t] == GetRecheck(id)
    requires s.closed
    ensures RegistryInv(GetOrphan(s, t, id).(sessionsMu := None))
  {
  }

  lemma RegistryInsert(s: System, t: nat, id: string)
    requires GateInv(s) && RegistryInv(s) && t < |s.threads| && s.threads[t] == GetInsert(id)
    ensures RegistryInv(GetRegistered(s, t, id).(sessionsMu := None))
  {
    assert !PastSnapshot(WinnerPc(s));
    if id in s.registry.value {
      RegistryFound(s, t, id);
    } else {
      RegistryAdded(s, t, id);
    }
  }

  lemma RegistryFound(s: System, t: nat, id: string)
    requires GateInv(s) && RegistryInv(s) && t < |s.threads| && s.threads[t] == GetInsert(id)
    requires s.registry.Some? && id in s.registry.value && !PastSnapshot(WinnerPc(s))
    ensures RegistryInv(GetRegistered(s, t, id).(sessionsMu := None))
  {
  }

  lemma RegistryAdded(s: System, t: nat, id: string)
    requires GateInv(s) && RegistryInv(s) && t < |s.threads| && s.threads[t] == GetInsert(id)
    requires s.registry.Some? && id !in s.registry.value && !PastSnapshot(WinnerPc(s))
    ensures RegistryInv(GetRegistered(s, t, id).(sessionsMu := None))
  {
  }

  lemma RegistrySnapshot(s: System, t: nat)
    requires GateInv(s) && RegistryInv(s) && CanAdvance(s, t) && s.threads[t].CloseSnapshot?
    ensures RegistryInv(Move(s, t))
  {
    assert s.winner == Some(t);
  }

  /** Close reaches one session of its snapshot: nothing executes any more, so it closes at once. */
  lemma RegistryCloseOne(s: System, t: nat, ref: nat)
    requires GateInv(s) && RegistryInv(s) && SlotInv(s) && Enabled(s, CloseOne(t, ref))
    ensures RegistryInv(Apply(s, CloseOne(t, ref)))
  {
    assert s.winner == Some(t);
    assert !s.heap[ref].session.executing by { NothingExecutes(s, ref); }
    RegistryClosed(s, t, ref);
  }

  lemma RegistryClosed(s: System, t: nat, ref: nat)
    requires GateInv(s) && RegistryInv(s) && Enabled(s, CloseOne(t, ref))
    requires s.winner == Some(t) && ref < |s.heap| && !s.heap[ref].session.executing
    ensures RegistryInv(Apply(s, CloseOne(t, ref)))
  {
  }

  lemma NothingExecutes(s: System, ref: nat)
    requires GateInv(s) && SlotInv(s) && Drained(WinnerPc(s)) && ref < |s.heap|
    ensures !s.heap[ref].session.executing
  {
    CountZero(s.threads, Admitted);
    if s.heap[ref].session.executing {
      var t := CountWitness(s.threads, BodyOf(ref));
    }
  }

  lemma RegistryStore(s: System, t: nat)
    requires GateInv(s) && RegistryInv(s) && CanAdvance(s, t) && (s.threads[t].CloseEach? || s.threads[t].CloseStore?)
    ensures RegistryInv(Move(s, t))
  {
    assert s.winner == Some(t);
  }

  lemma RegistryEnding(s: System, t: nat)
    requires GateInv(s) && RegistryInv(s) && CanAdvance(s, t) && s.threads[t].Ending?
    ensures RegistryInv(Move(s, t))
  {
    GateEndingPositive(s, t);
    if s.inFlight == 1 {
      RegistryWoken(s);
      RegistryFrame(s.(threads := Wake(s.threads)), Move(s, t), t) by { GateWoken(s); }
    } else {
      RegistryFrame(s, Move(s, t), t);
    }
  }

  lemma GateEndingPositive(s: System, t: nat)
    requires GateInv(s) && t < |s.threads| && s.threads[t].Ending?
    ensures s.inFlight > 0
  {
    CountHas(s.threads, Admitted, t);
  }

  lemma RegistryWoken(s: System)
    requires GateInv(s) && RegistryInv(s)
    ensures RegistryInv(s.(threads := Wake(s.threads)))
  {
    WakeWinner(s);
  }

  lemma RegistryMoveGet(s: System, t: nat)
    requires GateInv(s) && RegistryInv(s) && CanAdvance(s, t)
    requires var pc := s.threads[t]; pc.GetCheck? || pc.GetLock? || pc.GetRecheck? || pc.GetInsert?
    ensures RegistryInv(Move(s, t))
  {
    match s.threads[t]
    case GetCheck(id) => if s.closed { RegistryOrphan(s, t, id); } else { RegistryFrame(s, Move(s, t), t); }
    case GetLock(id) => RegistryLock(s, t, id);
    case GetRecheck(id) => if s.closed { RegistryOrphanUnlock(s, t, id); } else { RegistryAdmit(s, t, id); }
    case GetInsert(id) => RegistryInsert(s, t, id);
  }

  /** The points whose steps leave the registry and its lock alone. */
  predicate RegistryNeutral(pc: Pc) {
    pc.OpCheck? || pc.OpLock? || pc.OpRecheck? || pc.OpCount? || pc.Waiting? || pc.Holding? || pc.Leaving? || pc.Working?
    || pc.CloseDrain?
  }

  lemma RegistryNeutralMove(s: System, t: nat)
    requires CanAdvance(s, t) && RegistryNeutral(s.threads[t])
    ensures var s' := Move(s, t);
            && Moved(s, s', t) && SameRegistry(s, s') && ClosedGrows(s, s')
            && !HoldsSessionsMu(s'.threads[t]) && !s'.threads[t].Got? && !s'.threads[t].Panicked?
            && !PastSnapshot(s.threads[t]) && !PastSnapshot(s'.threads[t])
            && Closing(s.threads[t]) == Closing(s'.threads[t])
  {
  }

  lemma RegistryCas(s: System, t: nat)
    requires GateInv(s) && RegistryInv(s) && CanAdvance(s, t) && s.threads[t].CloseCas?
    ensures RegistryInv(Move(s, t))
  {
  }

  /** Every step of a call keeps the registry. */
  lemma RegistryMove(s: System, t: nat)
    requires GateInv(s) && RegistryInv(s) && CanAdvance(s, t)
    ensures RegistryInv(Move(s, t))
  {
    var pc := s.threads[t];
    if pc.GetCheck? || pc.GetLock? || pc.GetRecheck? || pc.GetInsert? {
      RegistryMoveGet(s, t);
    } else if pc.CloseSnapshot? {
      RegistrySnapshot(s, t);
    } else if pc.CloseEach? || pc.CloseStore? {
      RegistryStore(s, t);
    } else if pc.CloseCas? {
      RegistryCas(s, t);
    } else if pc.Ending? {
      RegistryEnding(s, t);
    } else {
      assert RegistryNeutral(pc);
      RegistryNeutralMove(s, t);
      RegistryFrame(s, Move(s, t), t);
    }
  }

  lemma RegistrySpawn(s: System, pc: Pc)
    requires GateInv(s) && RegistryInv(s) && CanSpawn(s, pc)
    ensures RegistryInv(s.(threads := s.threads + [pc]))
  {
  }

  lemma RegistryApply(s: System, step: Step)
    requires GateInv(s) && RegistryInv(s) && SlotInv(s) && Enabled(s, step)
    ensures RegistryInv(Apply(s, step))
  {
    match step
    case Spawn(pc) => RegistrySpawn(s, pc);
    case Advance(t) => RegistryMove(s, t);
    case CancelWait(t) => RegistryFrame(s, Apply(s, step), t);
    case FinishBody(t, _) => RegistryFinish(s, step);
    case CloseOne(t, ref) => RegistryCloseOne(s, t, ref);
    case UserClear(_) => RegistryUser(s, step);
    case UserClose(_) => RegistryUser(s, step);
  }

  lemma RegistryFinish(s: System, step: Step)
    requires GateInv(s) && RegistryInv(s) && Enabled(s, step) && step.FinishBody?
    ensures RegistryInv(Apply(s, step))
  {
    RegistryFrame(s, Apply(s, step), step.t);
  }

  lemma RegistryUser(s: System, step: Step)
    requires GateInv(s) && RegistryInv(s) && Enabled(s, step) && (step.UserClear? || step.UserClose?)
    ensures RegistryInv(Apply(s, step))
  {
    RegistryHeap(s, Apply(s, step));
  }

  // ---------------------------------------------------------------- preservation: the slots

  /** The thread's step has nothing to do with any slot; at most fresh sessions appear. */
  lemma SlotFrame(s: System, s': System, t: nat)
    requires SlotInv(s) && Moved(s, s', t)
    requires |s.heap| <= |s'.heap| && s'.heap[..|s.heap|] == s.heap
    requires forall r :: |s.heap| <= r < |s'.heap| ==> s'.heap[r].slot == 1 && !s'.heap[r].session.executing
    requires RefsIn(s'.threads[t], |s'.heap|)
    requires var pc := s.threads[t]; !pc.Holding? && !pc.Body? && !pc.Leaving?
    requires var pc := s'.threads[t]; !pc.Holding? && !pc.Body? && !pc.Leaving?
    ensures SlotInv(s')
  {
    forall r | 0 <= r < |s'.heap|
      ensures s'.heap[r].slot + Count(s'.threads, SlotHolder(r)) == 1
      ensures Count(s'.threads, BodyOf(r)) == if s'.heap[r].session.executing then 1 else 0
    {
      CountUpdate(s.threads, t, s'.threads[t], SlotHolder(r));
      CountUpdate(s.threads, t, s'.threads[t], BodyOf(r));
      if r >= |s.heap| {
        NobodyAt(s, r);
      } else {
        assert s'.heap[..|s.heap|][r] == s.heap[r];
      }
    }
    assert forall r :: 0 <= r < |s.heap| ==> s'.heap[..|s.heap|][r] == s'.heap[r];
  }

  lemma NobodyAt(s: System, r: nat)
    requires SlotInv(s) && r >= |s.heap|
    ensures Count(s.threads, SlotHolder(r)) == 0 && Count(s.threads, BodyOf(r)) == 0
  {
    if Count(s.threads, SlotHolder(r)) > 0 { var t := CountWitness(s.threads, SlotHolder(r)); }
    if Count(s.threads, BodyOf(r)) > 0 { var t := CountWitness(s.threads, BodyOf(r)); }
  }

  /** Thread `t` moves between points of session `ref`'s slot protocol, and only that session changes. */
  lemma SlotStep(s: System, s': System, t: nat, ref: nat)
    requires SlotInv(s) && Moved(s, s', t) && ref < |s.heap| && |s'.heap| == |s.heap|
    requires s'.heap == s.heap[ref := s'.heap[ref]]
    requires RefsIn(s'.threads[t], |s'.heap|)
    requires forall r :: 0 <= r < |s.heap| && r != ref ==>
               !SlotHolder(r)(s.threads[t]) && !SlotHolder(r)(s'.threads[t])
    requires s'.heap[ref].slot + (if SlotHolder(ref)(s'.threads[t]) then 1 else 0)
          == s.heap[ref].slot + (if SlotHolder(ref)(s.threads[t]) then 1 else 0)
    requires BodyOf(ref)(s.threads[t]) == true ==> s.heap[ref].session.executing
    requires (if s'.heap[ref].session.executing then 1 else 0) - (if s.heap[ref].session.executing then 1 else 0)
          == (if BodyOf(ref)(s'.threads[t]) then 1 else 0) - (if BodyOf(ref)(s.threads[t]) then 1 else 0)
    requires SlotHolder(ref)(s.threads[t]) || s'.heap[ref].session.turns == s.heap[ref].session.turns
    requires s'.threads[t].Body? ==> s'.threads[t].ref == ref && s'.threads[t].read == s'.heap[ref].session.turns
    ensures SlotInv(s')
  {
    forall r | 0 <= r < |s'.heap|
      ensures s'.heap[r].slot + Count(s'.threads, SlotHolder(r)) == 1
      ensures Count(s'.threads, BodyOf(r)) == if s'.heap[r].session.executing then 1 else 0
    {
      CountUpdate(s.threads, t, s'.threads[t], SlotHolder(r));
      CountUpdate(s.threads, t, s'.threads[t], BodyOf(r));
    }
    forall u | 0 <= u < |s'.threads| && s'.threads[u].Body?
      ensures s'.heap[s'.threads[u].ref].session.turns == s'.threads[u].read
    {
      if u != t && s'.threads[u].ref == ref && SlotHolder(ref)(s.threads[t]) {
        CountHas(s.threads, SlotHolder(ref), t);
        assert false;
      }
    }
  }

  /** A user call changes one session while every thread stays where it is. */
  lemma SlotUser(s: System, s': System, ref: nat)
    requires SlotInv(s) && s'.threads == s.threads && ref < |s.heap| && |s'.heap| == |s.heap|
    requires s'.heap == s.heap[ref := s'.heap[ref]] && s'.heap[ref].slot == s.heap[ref].slot
    requires s'.heap[ref].session.executing == s.heap[ref].session.executing
    requires s.heap[ref].session.executing ==> s'.heap[ref].session.turns == s.heap[ref].session.turns
    ensures SlotInv(s')
  {
    forall u | 0 <= u < |s'.threads| && s'.threads[u].Body? && s'.threads[u].ref == ref
      ensures s'.heap[ref].session.turns == s'.threads[u].read
    {
      CountHas(s.threads, BodyOf(ref), u);
    }
  }

  lemma SlotMoveAtSlot(s: System, t: nat)
    requires SlotInv(s) && CanAdvance(s, t) && AtSlot(s.threads[t])
    requires HistoryInv(s)
    ensures SlotInv(Move(s, t))
  {
    match s.threads[t]
    case Waiting(ref) => SlotStep(s, Move(s, t), t, ref);
    case Holding(ref) => SlotHolding(s, t, ref);
    case Leaving(ref) => SlotStep(s, Move(s, t), t, ref);
    case Working => SlotFrame(s, Move(s, t), t);
  }

  lemma SlotHolding(s: System, t: nat, ref: nat)
    requires SlotInv(s) && CanAdvance(s, t) && HistoryInv(s) && s.threads[t] == Holding(ref)
    ensures SlotInv(Move(s, t))
  {
    if !s.heap[ref].session.closed {
      NotYetExecuting(s, t, ref);
    }
    SlotStep(s, Move(s, t), t, ref);
  }

  /** Whoever holds the token and has not begun knows that nobody else is executing. */
  lemma NotYetExecuting(s: System, t: nat, ref: nat)
    requires SlotInv(s) && t < |s.threads| && s.threads[t] == Holding(ref) && ref < |s.heap|
    ensures !s.heap[ref].session.executing
  {
    if s.heap[ref].session.executing {
      var u := CountWitness(s.threads, BodyOf(ref));
      CountHas(s.threads, SlotHolder(ref), t);
    }
  }

  lemma SlotWoken(s: System)
    requires GateInv(s) && SlotInv(s)
    ensures SlotInv(s.(threads := Wake(s.threads)))
  {
    WakeWinner(s);
    if WinnerPc(s).CloseParked? {
      SlotFrame(s, s.(threads := Wake(s.threads)), s.winner.value);
    }
  }

  lemma SlotMoveEnding(s: System, t: nat)
    requires GateInv(s) && SlotInv(s) && CanAdvance(s, t) && s.threads[t].Ending?
    ensures SlotInv(Move(s, t))
  {
    GateEndingPositive(s, t);
    if s.inFlight == 1 {
      SlotWoken(s);
      SlotFrame(s.(threads := Wake(s.threads)), Move(s, t), t);
    } else {
      SlotFrame(s, Move(s, t), t);
    }
  }

  lemma SlotOrphan(s: System, t: nat, id: string)
    requires SlotInv(s) && t < |s.threads| && AtRegistry(s.threads[t])
    ensures SlotInv(GetOrphan(s, t, id))
  {
    SlotFrame(s, GetOrphan(s, t, id), t);
  }

  lemma SlotRegistered(s: System, t: nat, id: string)
    requires SlotInv(s) && t < |s.threads| && AtRegistry(s.threads[t])
    ensures SlotInv(GetRegistered(s, t, id))
  {
    SlotFrame(s, GetRegistered(s, t, id), t);
  }

  lemma SlotMoveGet(s: System, t: nat)
    requires SlotInv(s) && CanAdvance(s, t) && AtRegistry(s.threads[t])
    ensures SlotInv(Move(s, t))
  {
    var pc := s.threads[t];
    if pc.GetInsert? { SlotRegistered(s, t, pc.id); }
    else if s.closed && !pc.GetLock? { SlotOrphan(s, t, pc.id); }
    else { SlotFrame(s, Move(s, t), t); }
  }

  lemma SlotMove(s: System, t: nat)
    requires GateInv(s) && SlotInv(s) && HistoryInv(s) && CanAdvance(s, t)
    ensures SlotInv(Move(s, t))
  {
    var pc := s.threads[t];
    if AtSlot(pc) { SlotMoveAtSlot(s, t); }
    else if pc.Ending? { SlotMoveEnding(s, t); }
    else if AtRegistry(pc) { SlotMoveGet(s, t); }
    else { SlotFrame(s, Move(s, t), t); }
  }

  lemma SlotSpawn(s: System, pc: Pc)
    requires SlotInv(s) && CanSpawn(s, pc)
    ensures SlotInv(s.(threads := s.threads + [pc]))
  {
    forall r | 0 <= r < |s.heap|
      ensures Count(s.threads + [pc], SlotHolder(r)) == Count(s.threads, SlotHolder(r))
      ensures Count(s.threads + [pc], BodyOf(r)) == Count(s.threads, BodyOf(r))
    {
      CountAppend(s.threads, pc, SlotHolder(r));
      CountAppend(s.threads, pc, BodyOf(r));
    }
  }

  lemma SlotApply(s: System, step: Step)
    requires GateInv(s) && SlotInv(s) && HistoryInv(s) && Enabled(s, step)
    ensures SlotInv(Apply(s, step))
  {
    match step
    case Spawn(pc) => SlotSpawn(s, pc);
    case Advance(t) => SlotMove(s, t);
    case CancelWait(t) => SlotFrame(s, Apply(s, step), t);
    case FinishBody(t, _) => SlotFinish(s, step);
    case CloseOne(t, ref) => SlotStep(s, Apply(s, step), t, ref);
    case UserClear(ref) => SlotUserStep(s, step);
    case UserClose(ref) => SlotUserStep(s, step);
  }

  lemma SlotFinish(s: System, step: Step)
    requires SlotInv(s) && Enabled(s, step) && step.FinishBody?
    ensures SlotInv(Apply(s, step))
  {
    var ref := s.threads[step.t].ref;
    CountHas(s.threads, BodyOf(ref), step.t);
    SlotStep(s, Apply(s, step), step.t, ref);
  }

  lemma SlotUserStep(s: System, step: Step)
    requires SlotInv(s) && Enabled(s, step) && (step.UserClear? || step.UserClose?)
    ensures SlotInv(Apply(s, step))
  {
    SlotUser(s, Apply(s, step), step.ref);
  }

  // ---------------------------------------------------------------- preservation: the histories

  /** Every session and log of `s` is still there, and sessions that appear are new. */
  ghost predicate SessionsKept(s: System, s': System) {
    && s'.maxRounds == s.maxRounds && |s.heap| <= |s'.heap|
    && (forall r :: 0 <= r < |s.heap| ==> s'.heap[r].session == s.heap[r].session && s'.heap[r].log == s.heap[r].log)
    && (forall r :: |s.heap| <= r < |s'.heap| ==>
          s'.heap[r].log == [] && s'.heap[r].session == NewSession(s.maxRounds, s'.heap[r].session.closed))
  }

  lemma HistoryKept(s: System, s': System)
    requires HistoryInv(s) && SessionsKept(s, s')
    ensures HistoryInv(s')
  {
    FreshMatches(s.maxRounds);
  }

  lemma RegistryMoveKeeps(s: System, t: nat)
    requires CanAdvance(s, t) && AtRegistry(s.threads[t])
    ensures SessionsKept(s, Move(s, t))
  {
  }

  lemma OtherMoveKeeps(s: System, t: nat)
    requires CanAdvance(s, t) && !AtRegistry(s.threads[t]) && !s.threads[t].Holding?
    ensures SessionsKept(s, Move(s, t))
  {
  }

  lemma HistoryMove(s: System, t: nat)
    requires SlotInv(s) && HistoryInv(s) && CanAdvance(s, t)
    ensures HistoryInv(Move(s, t))
  {
    if s.threads[t].Holding? {
      var ref := s.threads[t].ref;
      NotYetExecuting(s, t, ref);
      if !s.heap[ref].session.closed { BeganMatches(s.heap[ref].session, s.heap[ref].log); }
    } else {
      if AtRegistry(s.threads[t]) { RegistryMoveKeeps(s, t); } else { OtherMoveKeeps(s, t); }
      HistoryKept(s, Move(s, t));
    }
  }

  lemma FreshMatches(maxRounds: int)
    ensures forall closed: bool :: HistoryMatches(NewSession(maxRounds, closed), [])
  {
    forall closed: bool ensures HistoryMatches(NewSession(maxRounds, closed), []) {
      assert NewSession(maxRounds, closed).turns == Expected([], maxRounds);
    }
  }

  lemma HistoryApply(s: System, step: Step)
    requires SlotInv(s) && HistoryInv(s) && Enabled(s, step)
    ensures HistoryInv(Apply(s, step))
  {
    match step
    case Spawn(_) =>
    case Advance(t) => HistoryMove(s, t);
    case CancelWait(_) =>
    case FinishBody(t, turn) =>
      var cell := s.heap[s.threads[t].ref];
      CountHas(s.threads, BodyOf(s.threads[t].ref), t);
      EndedMatches(cell.session, cell.log, turn);
    case CloseOne(_, ref) => CloseMatches(s.heap[ref].session, s.heap[ref].log);
    case UserClear(ref) => ClearMatches(s.heap[ref].session, s.heap[ref].log);
    case UserClose(ref) => CloseMatches(s.heap[ref].session, s.heap[ref].log);
  }

  /** The invariant is inductive over every interleaving. */
  lemma InvApply(s: System, step: Step)
    requires Inv(s) && Enabled(s, step)
    ensures Inv(Apply(s, step))
  {
    GateApply(s, step);
    RegistryApply(s, step);
    SlotApply(s, step);
    HistoryApply(s, step);
  }
}
