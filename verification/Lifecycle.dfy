/**
 * The agent's lifecycle as a transition system: operation admission and drain, the per-session
 * execution slot, the session registry, and Close.
 *
 * Threads interleave at the points where they can observe one another. A critical section whose
 * accesses are all guarded by its own mutex is one step; a section that also reads the atomic
 * `closed` flag is cut at that read, because Close sets the flag without holding any mutex. The
 * mutexes, the condition variable and the one-token slot channel are explicit state.
 */
module Lifecycle {
  import opened Sequences
  import opened SessionCore

  /** Where a call stands. `target` is the session of an ask; other operations have none. */
  datatype Pc =
    | OpCheck(target: Option<nat>)    // beginOperation, before the unlocked look at `closed`
    | OpLock(target: Option<nat>)     // wants opMu
    | OpRecheck(target: Option<nat>)  // holds opMu, about to look at `closed` again
    | OpCount(target: Option<nat>)    // holds opMu, saw an open agent, about to count itself
    | Waiting(ref: nat)               // admitted, waiting for the session's slot
    | Holding(ref: nat)               // took the token, about to begin the execution
    | Body(ref: nat, read: seq<Turn>) // executing; `read` is the history at its beginning
    | Leaving(ref: nat)               // about to give the token back
    | Working                         // an admitted operation without a session
    | Ending                          // about to end the operation
    | OpReturned
    | GetCheck(id: string)            // GetSession, before the unlocked look at `closed`
    | GetLock(id: string)             // wants sessionsMu
    | GetRecheck(id: string)          // holds sessionsMu, about to look at `closed` again
    | GetInsert(id: string)           // holds sessionsMu, saw an open agent
    | Got(id: string, ref: nat)
    | Panicked                        // wrote into the registry after it was set to nil
    | CloseCas
    | CloseDrain                      // won; wants opMu to look at inFlight
    | CloseParked                     // waiting on the condition variable
    | CloseSnapshot                   // drained; wants sessionsMu
    | CloseEach(left: set<nat>)       // closing the sessions of the snapshot
    | CloseStore
    | CloseReturned(won: bool)

  datatype Cell = Cell(session: SessionView, slot: nat, log: seq<Event>)

  /** `winner` and `named` are history variables: who won the close, and every name ever registered. */
  datatype System = System(
    maxRounds: int,
    closed: bool,
    inFlight: int,
    opMu: Option<nat>,
    sessionsMu: Option<nat>,
    registry: Option<map<string, nat>>,
    heap: seq<Cell>,
    threads: seq<Pc>,
    storeClosed: bool,
    winner: Option<nat>,
    named: map<string, nat>)

  datatype Step =
    | Spawn(pc: Pc)
    | Advance(t: nat)
    | CancelWait(t: nat)                        // the context ends while waiting for the slot
    | FinishBody(t: nat, turn: Option<Turn>)    // endExecution
    | CloseOne(t: nat, ref: nat)                // Close reaches one session of its snapshot
    | UserClear(ref: nat)
    | UserClose(ref: nat)

  function Start(maxRounds: int): System {
    System(maxRounds, false, 0, None, None, Some(map[]), [], [], false, None, map[])
  }

  // ---------------------------------------------------------------- steps

  predicate TargetIn(target: Option<nat>, n: nat) {
    target.Some? ==> target.value < n
  }

  predicate CanSpawn(s: System, pc: Pc) {
    match pc
    case OpCheck(target) => TargetIn(target, |s.heap|)
    case GetCheck(_) => true
    case CloseCas => true
    case _ => false
  }

  predicate CanAdvance(s: System, t: nat) {
    t < |s.threads| &&
    match s.threads[t]
    case OpCheck(_) => true
    case OpLock(_) => s.opMu.None?
    case OpRecheck(_) => true
    case OpCount(_) => true
    case Waiting(ref) => ref < |s.heap| && s.heap[ref].slot > 0
    case Holding(ref) => ref < |s.heap|
    case Leaving(ref) => ref < |s.heap| && s.heap[ref].slot < 1
    case Working => true
    case Ending => s.opMu.None?
    case GetCheck(_) => true
    case GetLock(_) => s.sessionsMu.None?
    case GetRecheck(_) => true
    case GetInsert(_) => true
    case CloseCas => true
    case CloseDrain => s.opMu.None?
    case CloseSnapshot => s.sessionsMu.None?
    case CloseEach(left) => left == {}
    case CloseStore => true
    case _ => false
  }

  predicate Enabled(s: System, step: Step) {
    match step
    case Spawn(pc) => CanSpawn(s, pc)
    case Advance(t) => CanAdvance(s, t)
    case CancelWait(t) => t < |s.threads| && s.threads[t].Waiting?
    case FinishBody(t, _) => t < |s.threads| && s.threads[t].Body? && s.threads[t].ref < |s.heap|
    case CloseOne(t, ref) => t < |s.threads| && s.threads[t].CloseEach? && ref in s.threads[t].left && ref < |s.heap|
    case UserClear(ref) => ref < |s.heap| && !s.heap[ref].session.closed
    case UserClose(ref) => ref < |s.heap|
  }

  function Goto(s: System, t: nat, pc: Pc): System
    requires t < |s.threads|
  {
    s.(threads := s.threads[t := pc])
  }

  function SetSession(s: System, ref: nat, session: SessionView, log: seq<Event>): System
    requires ref < |s.heap|
  {
    s.(heap := s.heap[ref := s.heap[ref].(session := session, log := log)])
  }

  function SetSlot(s: System, ref: nat, slot: nat): System
    requires ref < |s.heap|
  {
    s.(heap := s.heap[ref := s.heap[ref].(slot := slot)])
  }

  /** Broadcast: every thread parked on the condition variable looks again. */
  function Wake(threads: seq<Pc>): (woken: seq<Pc>)
    ensures |woken| == |threads|
    ensures forall t :: 0 <= t < |threads| ==>
              woken[t] == if threads[t].CloseParked? then CloseDrain else threads[t]
  {
    seq(|threads|, t requires 0 <= t < |threads| => if threads[t].CloseParked? then CloseDrain else threads[t])
  }

  function EndOperation(s: System, t: nat): System
    requires t < |s.threads|
  {
    if s.inFlight <= 0 then Goto(s, t, OpReturned)
    else if s.inFlight == 1 then s.(inFlight := 0, threads := Wake(s.threads)[t := OpReturned])
    else Goto(s, t, OpReturned).(inFlight := s.inFlight - 1)
  }

  /** GetSession on a closed agent hands out a closed session of its own. */
  function GetOrphan(s: System, t: nat, id: string): System
    requires t < |s.threads|
  {
    Goto(s, t, Got(id, |s.heap|)).(heap := s.heap + [Cell(NewSession(s.maxRounds, true), 1, [])])
  }

  function GetRegistered(s: System, t: nat, id: string): System
    requires t < |s.threads|
  {
    if s.registry.None? then Goto(s, t, Panicked)
    else if id in s.registry.value then Goto(s, t, Got(id, s.registry.value[id]))
    else
      Goto(s, t, Got(id, |s.heap|)).(
        heap := s.heap + [Cell(NewSession(s.maxRounds, false), 1, [])],
        registry := Some(s.registry.value[id := |s.heap|]),
        named := s.named[id := |s.heap|])
  }

  function BeginBody(s: System, t: nat, ref: nat): System
    requires t < |s.threads| && ref < |s.heap|
  {
    var session := s.heap[ref].session;
    if session.closed then Goto(s, t, Leaving(ref))
    else Goto(SetSession(s, ref, BeginExecution(session), s.heap[ref].log + [Began]), t, Body(ref, session.turns))
  }

  function Move(s: System, t: nat): System
    requires CanAdvance(s, t)
  {
    match s.threads[t]
    case OpCheck(target) => Goto(s, t, if s.closed then OpReturned else OpLock(target))
    case OpLock(target) => Goto(s, t, OpRecheck(target)).(opMu := Some(t))
    case OpRecheck(target) =>
      if s.closed then Goto(s, t, OpReturned).(opMu := None) else Goto(s, t, OpCount(target))
    case OpCount(target) =>
      Goto(s, t, if target.Some? then Waiting(target.value) else Working).(opMu := None, inFlight := s.inFlight + 1)
    case Waiting(ref) => Goto(SetSlot(s, ref, s.heap[ref].slot - 1), t, Holding(ref))
    case Holding(ref) => BeginBody(s, t, ref)
    case Leaving(ref) => Goto(SetSlot(s, ref, s.heap[ref].slot + 1), t, Ending)
    case Working => Goto(s, t, Ending)
    case Ending => EndOperation(s, t)
    case GetCheck(id) => if s.closed then GetOrphan(s, t, id) else Goto(s, t, GetLock(id))
    case GetLock(id) => Goto(s, t, GetRecheck(id)).(sessionsMu := Some(t))
    case GetRecheck(id) =>
      if s.closed then GetOrphan(s, t, id).(sessionsMu := None) else Goto(s, t, GetInsert(id))
    case GetInsert(id) => GetRegistered(s, t, id).(sessionsMu := None)
    case CloseCas =>
      if s.closed then Goto(s, t, CloseReturned(false)) else Goto(s, t, CloseDrain).(closed := true, winner := Some(t))
    case CloseDrain => Goto(s, t, if s.inFlight > 0 then CloseParked else CloseSnapshot)
    case CloseSnapshot =>
      Goto(s, t, CloseEach(if s.registry.Some? then s.registry.value.Values else {})).(registry := None)
    case CloseEach(_) => Goto(s, t, CloseStore)
    case CloseStore => Goto(s, t, CloseReturned(true)).(storeClosed := true)
  }

  function Apply(s: System, step: Step): System
    requires Enabled(s, step)
  {
    match step
    case Spawn(pc) => s.(threads := s.threads + [pc])
    case Advance(t) => Move(s, t)
    case CancelWait(t) => Goto(s, t, Ending)
    case FinishBody(t, turn) =>
      var ref := s.threads[t].ref;
      var cell := s.heap[ref];
      Goto(SetSession(s, ref, EndExecution(cell.session, turn), cell.log + [Ended(turn)]), t, Leaving(ref))
    case CloseOne(t, ref) =>
      Goto(SetSession(s, ref, CloseSession(s.heap[ref].session), s.heap[ref].log), t,
           CloseEach(s.threads[t].left - {ref}))
    case UserClear(ref) =>
      SetSession(s, ref, ClearHistory(s.heap[ref].session), s.heap[ref].log + [ClearAsked])
    case UserClose(ref) => SetSession(s, ref, CloseSession(s.heap[ref].session), s.heap[ref].log)
  }

  // ---------------------------------------------------------------- what each program point means

  predicate Admitted(pc: Pc) {
    pc.Waiting? || pc.Holding? || pc.Body? || pc.Leaving? || pc.Working? || pc.Ending?
  }

  predicate HoldsOpMu(pc: Pc) { pc.OpRecheck? || pc.OpCount? }

  predicate HoldsSessionsMu(pc: Pc) { pc.GetRecheck? || pc.GetInsert? }

  predicate Finished(pc: Pc) { pc.OpReturned? || pc.Got? || pc.CloseReturned? || pc.Panicked? }

  /** The call that won the close is here or further on. */
  predicate Closing(pc: Pc) {
    pc.CloseDrain? || pc.CloseParked? || pc.CloseSnapshot? || pc.CloseEach? || pc.CloseStore? || pc == CloseReturned(true)
  }

  predicate Drained(pc: Pc) { Closing(pc) && !pc.CloseDrain? && !pc.CloseParked? }

  predicate PastSnapshot(pc: Pc) { Drained(pc) && !pc.CloseSnapshot? }

  function SlotHolder(ref: nat): Pc -> bool {
    (pc: Pc) => (pc.Holding? || pc.Body? || pc.Leaving?) && pc.ref == ref
  }

  function BodyOf(ref: nat): Pc -> bool {
    (pc: Pc) => pc.Body? && pc.ref == ref
  }

  /** A session reference in a program point is a session that exists. */
  predicate RefsIn(pc: Pc, n: nat) {
    match pc
    case OpCheck(target) => TargetIn(target, n)
    case OpLock(target) => TargetIn(target, n)
    case OpRecheck(target) => TargetIn(target, n)
    case OpCount(target) => TargetIn(target, n)
    case Waiting(ref) => ref < n
    case Holding(ref) => ref < n
    case Body(ref, _) => ref < n
    case Leaving(ref) => ref < n
    case _ => true
  }

  // ---------------------------------------------------------------- the inductive invariant

  /** Where the winning Close stands; before there is a winner, nowhere. */
  function WinnerPc(s: System): Pc {
    if s.winner.Some? && s.winner.value < |s.threads| then s.threads[s.winner.value] else CloseCas
  }

  /** Admission and drain. */
  ghost predicate GateInv(s: System) {
    && s.inFlight == Count(s.threads, Admitted)
    && (s.opMu.Some? ==> s.opMu.value < |s.threads|)
    && (forall t :: 0 <= t < |s.threads| ==> (HoldsOpMu(s.threads[t]) <==> s.opMu == Some(t)))
    && (s.winner.Some? <==> s.closed)
    && (s.winner.Some? ==> s.winner.value < |s.threads|)
    && (forall t :: 0 <= t < |s.threads| ==> (Closing(s.threads[t]) <==> s.winner == Some(t)))
    && (Drained(WinnerPc(s)) ==> s.inFlight == 0 && forall t :: 0 <= t < |s.threads| ==> !s.threads[t].OpCount?)
    && (WinnerPc(s).CloseParked? ==> s.inFlight > 0)
    && (s.storeClosed <==> WinnerPc(s) == CloseReturned(true))
  }

  ghost predicate IsClosed(s: System, ref: nat) {
    ref < |s.heap| && s.heap[ref].session.closed
  }

  /** A session given out for a name is the registered one, or one made closed because the agent is closed. */
  ghost predicate Handed(s: System, id: string, ref: nat) {
    (id in s.named && s.named[id] == ref) || (s.closed && IsClosed(s, ref) && ref !in s.named.Values)
  }

  /** The registry. */
  ghost predicate RegistryInv(s: System) {
    && (s.sessionsMu.Some? ==> s.sessionsMu.value < |s.threads|)
    && (forall t :: 0 <= t < |s.threads| ==> (HoldsSessionsMu(s.threads[t]) <==> s.sessionsMu == Some(t)))
    && (s.registry.None? <==> PastSnapshot(WinnerPc(s)))
    && (forall t :: 0 <= t < |s.threads| && s.threads[t].GetInsert? ==> s.registry.Some?)
    && (forall t :: 0 <= t < |s.threads| ==> !s.threads[t].Panicked?)
    && (s.registry.Some? ==> s.registry.value == s.named)
    && (forall id :: id in s.named ==> s.named[id] < |s.heap|)
    && (forall t :: 0 <= t < |s.threads| && s.threads[t].Got? ==>
          Handed(s, s.threads[t].id, s.threads[t].ref))
    && (PastSnapshot(WinnerPc(s)) ==> SnapshotClosed(s, if WinnerPc(s).CloseEach? then WinnerPc(s).left else {}))
  }

  /** Every registered session is closed, apart from those Close has still to reach. */
  ghost predicate SnapshotClosed(s: System, left: set<nat>) {
    && left <= s.named.Values
    && forall id :: id in s.named && s.named[id] !in left ==> IsClosed(s, s.named[id])
  }

  /** The execution slot of every session. */
  ghost predicate SlotInv(s: System) {
    && (forall t :: 0 <= t < |s.threads| ==> RefsIn(s.threads[t], |s.heap|))
    && (forall r :: 0 <= r < |s.heap| ==>
          && s.heap[r].slot + Count(s.threads, SlotHolder(r)) == 1
          && Count(s.threads, BodyOf(r)) == if s.heap[r].session.executing then 1 else 0)
    && (forall t :: 0 <= t < |s.threads| && s.threads[t].Body? ==>
          s.heap[s.threads[t].ref].session.turns == s.threads[t].read)
  }

  ghost predicate HistoryInv(s: System) {
    forall r :: 0 <= r < |s.heap| ==>
      s.heap[r].session.maxRounds == s.maxRounds && HistoryMatches(s.heap[r].session, s.heap[r].log)
  }

  ghost predicate Inv(s: System) {
    GateInv(s) && RegistryInv(s) && SlotInv(s) && HistoryInv(s)
  }
}
