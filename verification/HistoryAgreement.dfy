/**
 * When a history in an external store and an in-process history agree. The same events drive both: the
 * store's calls on one side, the event log an in-process history refines on the other.
 */
module HistoryAgreement {
  import opened Sequences
  import Session = SessionCore
  import opened ExternalHistory

  type Turn = Session.Turn

  /** What the store holds after these calls: an append adds its turn, a clear leaves nothing. */
  function Content(calls: seq<StoreOp>): seq<Turn> {
    if calls == [] then [] else After(Content(calls[..|calls| - 1]), calls[|calls| - 1])
  }

  function After(content: seq<Turn>, op: StoreOp): seq<Turn> {
    if op.Append? then content + [op.turn] else []
  }

  lemma ContentAppend(calls: seq<StoreOp>, op: StoreOp)
    ensures Content(calls + [op]) == After(Content(calls), op)
  {
    assert (calls + [op])[..|calls|] == calls;
  }

  // ---------------------------------------------------------------- one execution

  /** A step that may be left out. */
  function Optionally(s: State, b: bool): State {
    if b then Next(s, RequestClear) else s
  }

  /** An execution up to its store call, with or without a clear asked for before the commit. */
  function CommittedWith(s: State, turn: Turn, early: bool): State
    requires s.phase.Free?
  {
    Next(Next(Optionally(Next(s, Begin), early), Commit(turn)), Issue)
  }

  /** The rest of it, with or without a clear in between, and with or without a failure after the commit. */
  function ReleasedWith(s: State, late: bool, ok: bool): State
    requires s.phase.Committed?
  {
    var left := Next(Next(Optionally(s, late), End(ok)), Leave);
    if left.phase.Flushing? then Next(left, IssueFlush) else left
  }

  /** What an in-process history makes of the same execution. */
  function InProcess(before: seq<Turn>, turn: Turn, early: bool, late: bool, ok: bool): seq<Turn> {
    if early || late then [] else if ok then before + [turn] else before
  }

  lemma CommittedContent(s: State, turn: Turn, early: bool)
    requires s.phase.Free? && !s.pendingClear
    ensures var t := CommittedWith(s, turn, early);
            && t.phase.Committed? && !t.pendingClear && t.directs == s.directs
            && Content(t.calls) == if early then [] else Content(s.calls) + [turn]
  {
    var t := CommittedWith(s, turn, early);
    ContentAppend(s.calls, t.calls[|s.calls|]);
  }

  lemma ReleasedContent(s: State, late: bool, ok: bool)
    requires s.phase.Committed? && !s.pendingClear
    ensures var t := ReleasedWith(s, late, ok);
            && t.phase.Free? && (t.pendingClear <==> late && ok) && t.directs == s.directs
            && Content(t.calls) == if late && !ok then [] else Content(s.calls)
  {
    ContentAppend(s.calls, DeferredClear(LastId(Optionally(s, late))));
  }

  /**
   * After one execution both histories agree, with nothing left pending, exactly when a success had no
   * clear between its commit and its end, or a failure after the commit had some clear at all.
   */
  lemma OneExecutionAgreesExactly(s: State, turn: Turn, early: bool, late: bool, ok: bool)
    requires s.phase.Free? && !s.pendingClear
    ensures CommittedWith(s, turn, early).phase.Committed?
    ensures var t := ReleasedWith(CommittedWith(s, turn, early), late, ok);
            t.phase.Free? && (Content(t.calls) == InProcess(Content(s.calls), turn, early, late, ok) && !t.pendingClear
                              <==> if ok then !late else early || late)
  {
    CommittedContent(s, turn, early);
    ReleasedContent(CommittedWith(s, turn, early), late, ok);
    assert |Content(s.calls) + [turn]| == |Content(s.calls)| + 1;
  }

  // ---------------------------------------------------------------- whole runs

  /** What a caller of the session can see: the event log, and how the latest execution went. */
  datatype Watch = Watch(
    log: seq<Session.Event>,
    since: nat,               // where the latest execution began
    committed: Option<Turn>,
    early: bool,              // a clear was asked for before its commit, or before its failure
    late: bool,               // between its commit and its end
    after: bool,              // after its end
    ended: bool,
    ok: bool,
    slow: nat,                // clears accepted outside executions that have not reached the store
    overtaken: bool)          // the latest execution's commit reached the store before such a clear

  const WATCH_START := Watch([], 0, None, false, false, false, true, true, 0, false)

  function See(w: Watch, e: Event): Watch {
    match e
    case Begin => Watch(w.log + [Session.Began], |w.log|, None, false, false, false, false, false, w.slow, false)
    case RequestClear =>
      w.(log := w.log + [Session.ClearAsked],
         early := w.early || (!w.ended && w.committed.None?),
         late := w.late || (!w.ended && w.committed.Some?),
         after := w.after || w.ended,
         slow := if w.ended then w.slow + 1 else w.slow)
    case Commit(turn) => w.(committed := Some(turn))
    case Fail => w.(log := w.log + [Session.Ended(None)], ended := true, ok := false)
    case End(ok) => w.(log := w.log + [Session.Ended(if ok then w.committed else None)], ended := true, ok := ok)
    case IssueDirect => w.(slow := if w.slow > 0 then w.slow - 1 else 0)
    case Issue => w.(overtaken := w.slow > 0)
    case Leave => w
    case IssueFlush => w
  }

  /**
   * The execution leaves both histories alike: it failed before its commit; or it succeeded, no clear was
   * asked for between its commit and its end, and none that is older overtook it, unless some other clear
   * takes its turn anyway; or it failed after its commit, and some clear takes the turn it left.
   */
  predicate Harmless(w: Watch) {
    w.committed.None?
    || (if w.ok then !w.late && (w.overtaken ==> w.early || w.after) else w.early || w.late || w.after || w.overtaken)
  }

  /** What the log calls for, before the bound on rounds. */
  ghost function Wanted(log: seq<Session.Event>): seq<Turn> {
    Session.Survivors(log, |log|)
  }

  /** What the store holds once the direct clears already accepted have been issued. */
  function Settled(s: State): seq<Turn> {
    if s.directs > 0 then [] else Content(s.calls)
  }

  ghost predicate Agree(s: State, w: Watch) {
    !s.pendingClear && Settled(s) == Wanted(w.log)
  }

  /** The event gives the slot back. */
  predicate Releases(s: State, e: Event)
    requires Enabled(s, e)
  {
    !s.phase.Free? && Next(s, e).phase.Free?
  }

  /** Both histories agree whenever an execution gives the slot back. */
  ghost predicate AlwaysAgree(s: State, w: Watch, events: seq<Event>)
    requires IsRun(s, events)
    decreases |events|
  {
    events == [] ||
    (var t, v := Next(s, events[0]), See(w, events[0]);
      && (Releases(s, events[0]) ==> Agree(t, v))
      && AlwaysAgree(t, v, events[1..]))
  }

  /** Every execution that gave the slot back was harmless. */
  ghost predicate AlwaysHarmless(s: State, w: Watch, events: seq<Event>)
    requires IsRun(s, events)
    decreases |events|
  {
    events == [] ||
    (var t, v := Next(s, events[0]), See(w, events[0]);
      && (Releases(s, events[0]) ==> Harmless(v))
      && AlwaysHarmless(t, v, events[1..]))
  }

  /** What was wanted when the latest execution began. */
  ghost function Base(w: Watch): seq<Turn> {
    if w.since <= |w.log| then Wanted(w.log[..w.since]) else []
  }

  /** The latest execution is still running. */
  ghost predicate Running(s: State, w: Watch) {
    && Session.RunningSince(w.log, w.since)
    && (w.early || w.late <==> w.since + 1 < |w.log|)
    && !w.ended && !w.after
  }

  /** What the store holds of a committed execution, clears after its end aside. */
  ghost function Written(w: Watch): seq<Turn> {
    if w.committed.None? then Base(w) else if w.early || w.overtaken then [] else Base(w) + [w.committed.value]
  }

  /** The clear that is still pending when the execution ends. */
  predicate Pending(w: Watch) {
    if w.committed.None? then w.early else w.late
  }

  /** How store and log belong together while everything agreed so far. */
  ghost predicate Follows(s: State, w: Watch) {
    && w.since <= |w.log| && w.slow == s.directs
    && (w.overtaken ==> Base(w) == [] && w.committed.Some?)
    && FollowsIn(s, w)
  }

  ghost predicate FollowsIn(s: State, w: Watch) {
    match s.phase
    case Free => w.ended && Agree(s, w)
    case InBody =>
      Running(s, w) && w.committed.None? && !w.late && !w.overtaken && Settled(s) == Base(w) && (s.pendingClear <==> w.early)
    case Issuing(op) =>
      && Running(s, w) && w.committed.Some? && !w.overtaken && Settled(s) == Base(w) && (s.pendingClear <==> w.late)
      && !op.DirectClear? && (w.early <==> op.DeferredClear?) && (op.Append? ==> op.turn == w.committed.value)
    case Committed => Running(s, w) && w.committed.Some? && Settled(s) == Written(w) && (s.pendingClear <==> w.late)
    case Over(ok) => Finished(s, w) && w.ok == ok && (s.pendingClear <==> Pending(w))
    case Flushing(_) => w.ended && !w.ok && !s.pendingClear && Wanted(w.log) == [] && Harmless(w)
  }

  /** The latest execution has ended; clears may have been accepted and issued since. */
  ghost predicate Finished(s: State, w: Watch) {
    && w.ended && (w.ok ==> w.committed.Some?) && (w.committed.None? ==> !w.late)
    && Wanted(w.log) == (if w.early || w.late || w.after then [] else if w.ok then Base(w) + [w.committed.value] else Base(w))
    && Settled(s) == if w.after then [] else Written(w)
  }

  lemma WantedAfterClear(log: seq<Session.Event>)
    ensures Wanted(log + [Session.ClearAsked]) == []
  {
    Session.SurvivorsCleared(log + [Session.ClearAsked], |log| + 1, |log|);
  }

  lemma WantedAfterEnd(w: Watch, turn: Option<Turn>)
    requires Session.RunningSince(w.log, w.since)
    ensures Wanted(w.log + [Session.Ended(turn)])
         == if w.since + 1 < |w.log| then [] else Base(w) + (if turn.Some? then [turn.value] else [])
  {
    Session.SurvivorsAfterEnd(w.log, w.since, turn);
  }

  lemma BaseKept(w: Watch, x: Session.Event)
    requires w.since <= |w.log|
    ensures Base(w.(log := w.log + [x])) == Base(w)
  {
    assert (w.log + [x])[..w.since] == w.log[..w.since];
  }

  lemma FollowsBegin(s: State, w: Watch)
    requires Follows(s, w) && s.phase.Free?
    ensures Follows(Next(s, Begin), See(w, Begin))
  {
    var v := See(w, Begin);
    assert v.log[..|w.log|] == w.log;
  }

  lemma FollowsClear(s: State, w: Watch)
    requires Follows(s, w)
    ensures Follows(Next(s, RequestClear), See(w, RequestClear))
  {
    if Executing(s.phase) {
      FollowsDeferral(s, w);
    } else {
      FollowsDirect(s, w);
    }
  }

  lemma SeeClearKeepsBase(w: Watch)
    requires w.since <= |w.log|
    ensures Base(See(w, RequestClear)) == Base(w)
  {
    BaseKept(w, Session.ClearAsked);
  }

  lemma FollowsDeferral(s: State, w: Watch)
    requires Follows(s, w) && Executing(s.phase)
    ensures Follows(Next(s, RequestClear), See(w, RequestClear))
  {
    SeeClearKeepsBase(w);
  }

  lemma FollowsDirect(s: State, w: Watch)
    requires Follows(s, w) && !Executing(s.phase)
    ensures Follows(Next(s, RequestClear), See(w, RequestClear))
  {
    SeeClearKeepsBase(w);
    WantedAfterClear(w.log);
  }

  lemma FollowsEnd(s: State, w: Watch, e: Event)
    requires Follows(s, w) && Enabled(s, e) && (e.Fail? || e.End?)
    ensures Follows(Next(s, e), See(w, e))
  {
    var v, turn := See(w, e), if e.End? && e.ok then w.committed else None;
    assert v.log == w.log + [Session.Ended(turn)];
    assert Base(v) == Base(w) by { BaseKept(w, Session.Ended(turn)); }
    assert Wanted(v.log) == (if w.early || w.late then [] else if e.End? && e.ok then Base(w) + [w.committed.value] else Base(w)) by {
      WantedAfterEnd(w, turn);
      assert Base(w) + [] == Base(w);
    }
    EndFollows(s, w, e, v);
  }

  lemma EndFollows(s: State, w: Watch, e: Event, v: Watch)
    requires Follows(s, w) && Enabled(s, e) && (e.Fail? || e.End?)
    requires v == See(w, e) && Base(v) == Base(w)
    requires Wanted(v.log) == if w.early || w.late then [] else if e.End? && e.ok then Base(w) + [w.committed.value] else Base(w)
    ensures Follows(Next(s, e), v)
  {
  }

  lemma FollowsCall(s: State, w: Watch, e: Event)
    requires Follows(s, w) && Enabled(s, e) && (e.Issue? || e.IssueDirect?)
    ensures Follows(Next(s, e), See(w, e))
  {
    ContentAppend(s.calls, if e.Issue? then s.phase.op else DirectClear);
  }

  /** The moment of release: agreement there is exactly harmlessness. */
  lemma ReleaseAgreesExactly(s: State, w: Watch, e: Event)
    requires Follows(s, w) && Enabled(s, e) && (e.Leave? || e.IssueFlush?)
    ensures Next(s, e).phase.Free? ==> (Agree(Next(s, e), See(w, e)) <==> Harmless(w))
    ensures (Next(s, e).phase.Free? && Harmless(w)) || Next(s, e).phase.Flushing? ==> Follows(Next(s, e), See(w, e))
  {
    if e.IssueFlush? {
      ContentAppend(s.calls, DeferredClear(s.phase.id));
    } else if w.committed.Some? {
      assert |Base(w) + [w.committed.value]| == |Base(w)| + 1;
    }
  }

  lemma FollowsStep(s: State, w: Watch, e: Event)
    requires Follows(s, w) && Enabled(s, e)
    requires !e.Leave? && !e.IssueFlush?
    ensures Follows(Next(s, e), See(w, e)) && !Releases(s, e)
  {
    if e.Begin? {
      FollowsBegin(s, w);
    } else if e.RequestClear? {
      FollowsClear(s, w);
    } else if e.Fail? || e.End? {
      FollowsEnd(s, w, e);
    } else if e.Issue? || e.IssueDirect? {
      FollowsCall(s, w, e);
    }
  }

  lemma {:induction false} HistoriesAgreeFrom(s: State, w: Watch, events: seq<Event>)
    requires Follows(s, w) && IsRun(s, events)
    ensures AlwaysAgree(s, w, events) <==> AlwaysHarmless(s, w, events)
    decreases |events|
  {
    if events != [] {
      var e := events[0];
      if e.Leave? || e.IssueFlush? {
        ReleaseAgreesExactly(s, w, e);
      } else {
        FollowsStep(s, w, e);
      }
      if !Releases(s, e) || Harmless(See(w, e)) {
        HistoriesAgreeFrom(Next(s, e), See(w, e), events[1..]);
      }
    }
  }

  /**
   * Over every run, however slowly clears reach the store: both histories agree at every release of the
   * slot exactly when every execution was harmless.
   */
  lemma HistoriesAgreeExactly(events: seq<Event>)
    requires IsRun(START, events)
    ensures AlwaysAgree(START, WATCH_START, events) <==> AlwaysHarmless(START, WATCH_START, events)
  {
    StartFollows();
    HistoriesAgreeFrom(START, WATCH_START, events);
  }

  lemma StartFollows()
    ensures Follows(START, WATCH_START)
  {
  }

  /** The turns an execution loads from the store. */
  function Loaded(calls: seq<StoreOp>, maxRounds: int): seq<Turn> {
    if maxRounds > 0 then LastN(Content(calls), maxRounds) else Content(calls)
  }

  function SeeAll(w: Watch, events: seq<Event>): Watch
    decreases |events|
  {
    if events == [] then w else SeeAll(See(w, events[0]), events[1..])
  }

  /**
   * So whenever the slot is free after harmless executions, the store would load exactly the turns that an
   * in-process history holds, if and only if no accepted clear is still on its way, or it has nothing to take.
   */
  lemma HarmlessRunsLoadAlike(events: seq<Event>, maxRounds: int)
    requires IsRun(START, events) && AlwaysHarmless(START, WATCH_START, events) && maxRounds > 0
    requires Exec(START, events).phase.Free?
    ensures var s := Exec(START, events);
            Loaded(s.calls, maxRounds) == Session.Expected(SeeAll(WATCH_START, events).log, maxRounds)
            <==> s.directs == 0 || Content(s.calls) == []
  {
    StartFollows();
    HarmlessFollows(START, WATCH_START, events);
  }

  lemma {:induction false} HarmlessFollows(s: State, w: Watch, events: seq<Event>)
    requires Follows(s, w) && IsRun(s, events) && AlwaysHarmless(s, w, events)
    ensures Follows(Exec(s, events), SeeAll(w, events))
    decreases |events|
  {
    if events != [] {
      var e := events[0];
      if e.Leave? || e.IssueFlush? {
        ReleaseAgreesExactly(s, w, e);
      } else {
        FollowsStep(s, w, e);
      }
      HarmlessFollows(Next(s, e), See(w, e), events[1..]);
    }
  }

  // ---------------------------------------------------------------- an execution that is not harmless

  /**
   * A clear asked for between an execution's commit and its end is consumed by the next execution, whose
   * own turn is then lost. An in-process history keeps that turn.
   */
  lemma LateClearTakesTheNextTurn(first: Turn, second: Turn)
    ensures var s := ReleasedWith(CommittedWith(START, first, false), true, true);
            s.phase.Free? && Content(ReleasedWith(CommittedWith(s, second, false), false, true).calls) == []
    ensures Wanted([Session.Began, Session.ClearAsked, Session.Ended(Some(first)), Session.Began, Session.Ended(Some(second))]) == [second]
  {
    CommittedContent(START, first, false);
    ReleasedContent(CommittedWith(START, first, false), true, true);
    var s := ReleasedWith(CommittedWith(START, first, false), true, true);
    var t := CommittedWith(s, second, false);
    ContentAppend(s.calls, DeferredClear(LastId(s)));
    ReleasedContent(t, false, true);
    InProcessKeepsTheNextTurn(first, second);
  }

  lemma InProcessKeepsTheNextTurn(first: Turn, second: Turn)
    ensures Wanted([Session.Began, Session.ClearAsked, Session.Ended(Some(first)), Session.Began, Session.Ended(Some(second))]) == [second]
  {
    var running := [Session.Began, Session.ClearAsked];
    var one := running + [Session.Ended(Some(first))];
    Session.SurvivorsAfterEnd(running, 0, Some(first));
    assert Wanted(one) == [];
    var two := one + [Session.Began];
    assert two[..3] == one;
    Session.SurvivorsAfterEnd(two, 3, Some(second));
    assert two + [Session.Ended(Some(second))]
        == [Session.Began, Session.ClearAsked, Session.Ended(Some(first)), Session.Began, Session.Ended(Some(second))];
  }

  /**
   * An execution that is overtaken: a clear that is accepted before it and reaches the store after it takes
   * its turn, which an in-process history keeps.
   */
  lemma SlowClearTakesTheTurn(turn: Turn)
    ensures var s := ReleasedWith(CommittedWith(Next(START, RequestClear), turn, false), false, true);
            s.phase.Free? && s.directs == 1 && Content(Next(s, IssueDirect).calls) == []
    ensures Wanted([Session.ClearAsked, Session.Began, Session.Ended(Some(turn))]) == [turn]
  {
    SlowClearEmptiesTheStore(Next(START, RequestClear), turn);
    SlowClearIsEarlierInProcess(turn);
  }

  lemma SlowClearEmptiesTheStore(asked: State, turn: Turn)
    requires asked.phase.Free? && !asked.pendingClear && asked.directs == 1
    ensures var s := ReleasedWith(CommittedWith(asked, turn, false), false, true);
            s.phase.Free? && s.directs == 1 && Content(Next(s, IssueDirect).calls) == []
  {
    CommittedContent(asked, turn, false);
    ReleasedContent(CommittedWith(asked, turn, false), false, true);
    ContentAppend(ReleasedWith(CommittedWith(asked, turn, false), false, true).calls, DirectClear);
  }

  lemma SlowClearIsEarlierInProcess(turn: Turn)
    ensures Wanted([Session.ClearAsked, Session.Began, Session.Ended(Some(turn))]) == [turn]
  {
    var running := [Session.ClearAsked, Session.Began];
    assert running[..1] == [] + [Session.ClearAsked];
    WantedAfterClear([]);
    Session.SurvivorsAfterEnd(running, 1, Some(turn));
    assert running + [Session.Ended(Some(turn))] == [Session.ClearAsked, Session.Began, Session.Ended(Some(turn))];
  }
}
