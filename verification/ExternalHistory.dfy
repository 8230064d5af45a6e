/**
 * A session whose history lives in an external store. The store is called outside the session's
 * mutex, so the decision to clear or append and the call itself are separate steps, and clear
 * requests from other goroutines fall between them. At most one execution is under way: that is the
 * slot's guarantee, proved for every interleaving in LifecycleTheorems.OneBodyPerSession.
 */
module ExternalHistory {
  import opened Sequences
  import opened SessionCore

  /**
   * A call the store received. A clear that was deferred carries the number of its deferral; an
   * append carries how many deferrals had been accepted when its commit was decided.
   */
  datatype StoreOp =
    | Append(turn: Turn, after: nat)
    | DeferredClear(id: nat)
    | DirectClear

  datatype Phase =
    | Free                  // nobody holds the slot
    | InBody                // executing, before the commit decision
    | Issuing(op: StoreOp)  // the commit is decided, the store not yet called
    | Committed             // the store was called, still executing
    | Over(ok: bool)        // endExecution done, the slot still held
    | Flushing(id: nat)     // the failed execution took the pending clear

  /** `calls`, `raised` and `completed` are history variables. */
  datatype State = State(
    phase: Phase,
    pendingClear: bool,
    directs: nat,           // direct clears decided and not yet issued
    calls: seq<StoreOp>,    // what the store received, in order
    raised: seq<nat>,       // per deferral, the number of the execution that was under way
    completed: nat)         // executions that gave the slot back

  datatype Event =
    | Begin
    | RequestClear
    | IssueDirect
    | Commit(turn: Turn)
    | Issue
    | Fail                  // the body fails before its commit
    | End(ok: bool)         // endExecution after the commit
    | Leave                 // flush decision, if the execution failed, and release
    | IssueFlush

  const START := State(Free, false, 0, [], [], 0)

  predicate Executing(phase: Phase) {
    phase.InBody? || phase.Issuing? || phase.Committed?
  }

  predicate Enabled(s: State, e: Event) {
    match e
    case Begin => s.phase.Free?
    case RequestClear => true
    case IssueDirect => s.directs > 0
    case Commit(_) => s.phase.InBody?
    case Issue => s.phase.Issuing?
    case Fail => s.phase.InBody?
    case End(_) => s.phase.Committed?
    case Leave => s.phase.Over?
    case IssueFlush => s.phase.Flushing?
  }

  /** The number of the latest deferral. */
  function LastId(s: State): nat {
    if |s.raised| > 0 then |s.raised| - 1 else 0
  }

  function Next(s: State, e: Event): State
    requires Enabled(s, e)
  {
    match e
    case Begin => s.(phase := InBody)
    case RequestClear =>
      if !Executing(s.phase) then s.(directs := s.directs + 1)
      else if s.pendingClear then s
      else s.(pendingClear := true, raised := s.raised + [s.completed])
    case IssueDirect => s.(directs := s.directs - 1, calls := s.calls + [DirectClear])
    case Commit(turn) =>
      s.(phase := Issuing(if s.pendingClear then DeferredClear(LastId(s)) else Append(turn, |s.raised|)),
         pendingClear := false)
    case Issue => s.(phase := Committed, calls := s.calls + [s.phase.op])
    case Fail => s.(phase := Over(false))
    case End(ok) => s.(phase := Over(ok))
    case Leave =>
      if !s.phase.ok && s.pendingClear then s.(phase := Flushing(LastId(s)), pendingClear := false)
      else s.(phase := Free, completed := s.completed + 1)
    case IssueFlush =>
      s.(phase := Free, completed := s.completed + 1, calls := s.calls + [DeferredClear(s.phase.id)])
  }

  ghost predicate IsRun(s: State, events: seq<Event>)
    decreases |events|
  {
    events == [] || (Enabled(s, events[0]) && IsRun(Next(s, events[0]), events[1..]))
  }

  ghost function Exec(s: State, events: seq<Event>): State
    requires IsRun(s, events)
    decreases |events|
  {
    if events == [] then s else Exec(Next(s, events[0]), events[1..])
  }

  ghost predicate Reachable(s: State) {
    exists events :: IsRun(START, events) && Exec(START, events) == s
  }

  // ---------------------------------------------------------------- invariant

  function IsDeferred(): StoreOp -> bool {
    (op: StoreOp) => op.DeferredClear?
  }

  /** How many deferred clears the store has received. */
  function Cleared(s: State): nat {
    Count(s.calls, IsDeferred())
  }

  /** The pending clear was taken and its store call is still to come. */
  predicate ClearDecided(s: State) {
    s.phase.Flushing? || (s.phase.Issuing? && s.phase.op.DeferredClear?)
  }

  /**
   * The k-th deferred clear is the one of the k-th deferral, and an append was decided when all deferrals
   * before it had been cleared.
   */
  predicate Placed(before: seq<StoreOp>, op: StoreOp) {
    && (op.DeferredClear? ==> op.id == Count(before, IsDeferred()))
    && (op.Append? ==> op.after <= Count(before, IsDeferred()))
  }

  predicate InOrder(calls: seq<StoreOp>) {
    calls == [] || (InOrder(calls[..|calls| - 1]) && Placed(calls[..|calls| - 1], calls[|calls| - 1]))
  }

  ghost predicate Inv(s: State) {
    InOrder(s.calls) && Balanced(s, Cleared(s))
  }

  /** How the deferrals, the flag and the decisions belong together once `cleared` deferred clears were received. */
  ghost predicate Balanced(s: State, cleared: nat) {
    && |s.raised| == cleared + (if ClearDecided(s) then 1 else 0) + (if s.pendingClear then 1 else 0)
    && (s.phase.Flushing? ==> s.phase.id == cleared && !s.pendingClear)
    && (s.phase.Issuing? ==>
          && !s.phase.op.DirectClear?
          && (s.phase.op.DeferredClear? ==> s.phase.op.id == cleared)
          && (s.phase.op.Append? ==> s.phase.op.after <= cleared))
    && (forall i :: cleared <= i < |s.raised| ==> s.raised[i] <= s.completed <= s.raised[i] + 1)
    && (s.pendingClear && (s.phase.Issuing? || s.phase.Committed? || s.phase == Over(true)) ==>
          s.raised[|s.raised| - 1] == s.completed)
  }

  lemma CallAdded(calls: seq<StoreOp>, op: StoreOp)
    requires InOrder(calls) && Placed(calls, op)
    ensures InOrder(calls + [op])
    ensures Count(calls + [op], IsDeferred()) == Count(calls, IsDeferred()) + (if op.DeferredClear? then 1 else 0)
  {
    assert (calls + [op])[..|calls|] == calls;
    CountAppend(calls, op, IsDeferred());
  }

  lemma {:induction false} InOrderAt(calls: seq<StoreOp>, p: nat)
    requires InOrder(calls) && p < |calls|
    ensures InOrder(calls[..p]) && Placed(calls[..p], calls[p])
    decreases |calls|
  {
    var front := calls[..|calls| - 1];
    if p < |front| {
      InOrderAt(front, p);
      assert front[..p] == calls[..p];
    }
  }

  lemma InvRequest(s: State)
    requires Inv(s)
    ensures Inv(Next(s, RequestClear))
  {
  }

  lemma InvDirect(s: State)
    requires Inv(s) && s.directs > 0
    ensures Inv(Next(s, IssueDirect))
  {
    CallAdded(s.calls, DirectClear);
    assert Balanced(Next(s, IssueDirect), Cleared(s));
  }

  lemma InvIssue(s: State)
    requires Inv(s) && s.phase.Issuing?
    ensures Inv(Next(s, Issue))
  {
    CallAdded(s.calls, s.phase.op);
    BalancedIssue(s, Cleared(s));
  }

  lemma BalancedIssue(s: State, cleared: nat)
    requires Balanced(s, cleared) && s.phase.Issuing?
    ensures Balanced(Next(s, Issue), cleared + if s.phase.op.DeferredClear? then 1 else 0)
  {
  }

  lemma InvFlush(s: State)
    requires Inv(s) && s.phase.Flushing?
    ensures Inv(Next(s, IssueFlush))
  {
    CallAdded(s.calls, DeferredClear(s.phase.id));
    BalancedFlush(s, Cleared(s));
  }

  lemma BalancedFlush(s: State, cleared: nat)
    requires Balanced(s, cleared) && s.phase.Flushing?
    ensures Balanced(Next(s, IssueFlush), cleared + 1)
  {
  }

  lemma InvCommit(s: State, turn: Turn)
    requires Inv(s) && s.phase.InBody?
    ensures Inv(Next(s, Commit(turn)))
  {
  }

  lemma InvLeave(s: State)
    requires Inv(s) && s.phase.Over?
    ensures Inv(Next(s, Leave))
  {
  }

  lemma InvNext(s: State, e: Event)
    requires Inv(s) && Enabled(s, e)
    ensures Inv(Next(s, e))
  {
    match e
    case Begin =>
    case RequestClear => InvRequest(s);
    case IssueDirect => InvDirect(s);
    case Commit(turn) => InvCommit(s, turn);
    case Issue => InvIssue(s);
    case Fail =>
    case End(_) =>
    case Leave => InvLeave(s);
    case IssueFlush => InvFlush(s);
  }

  lemma {:induction false} RunInv(s: State, events: seq<Event>)
    requires Inv(s) && IsRun(s, events)
    ensures Inv(Exec(s, events))
    decreases |events|
  {
    if events != [] {
      InvNext(s, events[0]);
      RunInv(Next(s, events[0]), events[1..]);
    }
  }

  lemma ReachableInv(s: State)
    requires Reachable(s)
    ensures Inv(s)
  {
    var events :| IsRun(START, events) && Exec(START, events) == s;
    RunInv(START, events);
  }

  // ---------------------------------------------------------------- results

  lemma {:induction false} CountPrefix(calls: seq<StoreOp>, p: nat)
    requires p <= |calls|
    ensures Count(calls[..p], IsDeferred()) <= Count(calls, IsDeferred())
    decreases |calls|
  {
    if p < |calls| {
      var rest := calls[..|calls| - 1];
      assert rest[..p] == calls[..p];
      CountPrefix(rest, p);
    } else {
      assert calls[..p] == calls;
    }
  }

  /** The call that clears the `id`-th deferral, when at least `id + 1` deferred clears were issued. */
  lemma {:induction false} FindClear(calls: seq<StoreOp>, id: nat) returns (p: nat)
    requires InOrder(calls) && id < Count(calls, IsDeferred())
    ensures p < |calls| && calls[p] == DeferredClear(id)
    decreases |calls|
  {
    var n := |calls| - 1;
    var rest := calls[..n];
    if calls[n].DeferredClear? && id == Count(rest, IsDeferred()) {
      p := n;
    } else {
      p := FindClear(rest, id);
    }
  }

  /**
   * A deferral is never cleared twice, and its one clear has been issued as soon as the execution
   * that follows the deferral's own has completed.
   */
  lemma DeferredClearIsIssuedOnce(s: State, id: nat)
    requires Reachable(s) && id < |s.raised|
    ensures forall p, q :: 0 <= p < q < |s.calls| && s.calls[p] == DeferredClear(id) ==> s.calls[q] != DeferredClear(id)
    ensures s.completed > s.raised[id] + 1 ==> DeferredClear(id) in s.calls
    ensures s.phase.Free? && !s.pendingClear ==> DeferredClear(id) in s.calls
  {
    ReachableInv(s);
    forall p, q | 0 <= p < q < |s.calls| && s.calls[p].DeferredClear? && s.calls[q].DeferredClear?
      ensures s.calls[p].id < s.calls[q].id
    {
      LaterClearsAreLater(s.calls, p, q);
    }
    if id < Cleared(s) {
      var p := FindClear(s.calls, id);
    }
  }

  lemma LaterClearsAreLater(calls: seq<StoreOp>, p: nat, q: nat)
    requires InOrder(calls) && p < q < |calls| && calls[p].DeferredClear? && calls[q].DeferredClear?
    ensures calls[p].id < calls[q].id
  {
    InOrderAt(calls, p);
    InOrderAt(calls, q);
    CountAppend(calls[..p], calls[p], IsDeferred());
    assert calls[..p] + [calls[p]] == calls[..p + 1] == calls[..q][..p + 1];
    CountPrefix(calls[..q], p + 1);
  }

  /** A turn whose commit was decided after a deferral reaches the store after that deferral's clear. */
  lemma NoAppendOvertakesClear(s: State, p: nat, id: nat)
    requires Reachable(s) && p < |s.calls| && s.calls[p].Append? && id < s.calls[p].after
    ensures exists q :: 0 <= q < p && s.calls[q] == DeferredClear(id)
  {
    ReachableInv(s);
    InOrderAt(s.calls, p);
    var q := FindClear(s.calls[..p], id);
    assert s.calls[q] == DeferredClear(id);
  }

  predicate IsClear(op: StoreOp) { op.DirectClear? || op.DeferredClear? }

  /** A clear reached the store after its first `n` calls, or is decided, pending, or about to be issued. */
  ghost predicate ClearAhead(s: State, n: nat) {
    s.directs > 0 || s.pendingClear || ClearDecided(s) || exists p :: n <= p < |s.calls| && IsClear(s.calls[p])
  }

  lemma ClearAheadStep(s: State, e: Event, n: nat)
    requires Enabled(s, e) && ClearAhead(s, n) && n <= |s.calls|
    ensures ClearAhead(Next(s, e), n) && n <= |Next(s, e).calls|
  {
    var t := Next(s, e);
    assert forall p :: 0 <= p < |s.calls| ==> t.calls[p] == s.calls[p];
    if |t.calls| > |s.calls| && IsClear(t.calls[|s.calls|]) { assert ClearAhead(t, n); }
  }

  lemma {:induction false} ClearAheadRun(s: State, events: seq<Event>, n: nat)
    requires IsRun(s, events) && ClearAhead(s, n) && n <= |s.calls|
    ensures ClearAhead(Exec(s, events), n)
    decreases |events|
  {
    if events != [] {
      ClearAheadStep(s, events[0], n);
      ClearAheadRun(Next(s, events[0]), events[1..], n);
    }
  }

  /**
   * No accepted clear is lost: once no clear is pending and every decided call was issued, the store has received
   * a clear after everything it had received when the clear was asked for.
   */
  lemma AcceptedClearIsIssued(s: State, events: seq<Event>)
    requires IsRun(Next(s, RequestClear), events)
    requires var t := Exec(Next(s, RequestClear), events); t.directs == 0 && !t.pendingClear && !ClearDecided(t)
    ensures var t := Exec(Next(s, RequestClear), events); exists p :: |s.calls| <= p < |t.calls| && IsClear(t.calls[p])
  {
    ClearAheadRun(Next(s, RequestClear), events, |s.calls|);
  }

  /** The turn is about to reach the store, or has reached it after its first `n` calls. */
  ghost predicate AppendAhead(s: State, turn: Turn, n: nat) {
    || (s.phase.Issuing? && s.phase.op.Append? && s.phase.op.turn == turn)
    || exists p :: n <= p < |s.calls| && s.calls[p].Append? && s.calls[p].turn == turn
  }

  lemma AppendAheadStep(s: State, e: Event, turn: Turn, n: nat)
    requires Enabled(s, e) && AppendAhead(s, turn, n) && n <= |s.calls|
    ensures AppendAhead(Next(s, e), turn, n) && n <= |Next(s, e).calls|
  {
    var t := Next(s, e);
    assert forall p :: 0 <= p < |s.calls| ==> t.calls[p] == s.calls[p];
    if e.Issue? { assert t.calls[|s.calls|] == s.phase.op; }
  }

  lemma {:induction false} AppendAheadRun(s: State, events: seq<Event>, turn: Turn, n: nat)
    requires IsRun(s, events) && AppendAhead(s, turn, n) && n <= |s.calls|
    ensures AppendAhead(Exec(s, events), turn, n)
    decreases |events|
  {
    if events != [] {
      AppendAheadStep(s, events[0], turn, n);
      AppendAheadRun(Next(s, events[0]), events[1..], turn, n);
    }
  }

  /** No committed turn is lost: with no clear pending at its commit, it is in the store once the commit was issued. */
  lemma CommittedTurnIsAppended(s: State, turn: Turn, events: seq<Event>)
    requires s.phase.InBody? && !s.pendingClear && IsRun(Next(s, Commit(turn)), events)
    requires !Exec(Next(s, Commit(turn)), events).phase.Issuing?
    ensures var t := Exec(Next(s, Commit(turn)), events);
            exists p :: |s.calls| <= p < |t.calls| && t.calls[p].Append? && t.calls[p].turn == turn
  {
    AppendAheadRun(Next(s, Commit(turn)), events, turn, |s.calls|);
  }
}
