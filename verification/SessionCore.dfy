/**
 * One conversation session: its flags, its bounded in-process history, and the critical sections of
 * its mutex. Every critical section is a function on the session's value; the class below performs it
 * in place and is proved against that function. The lifecycle model steps through the same functions.
 */
module SessionCore {
  import opened Sequences

  datatype Turn = Turn(user: string, assistant: string)

  /** What the session's mutex protects. */
  datatype SessionView = SessionView(
    closed: bool,
    executing: bool,
    pendingClear: bool,
    pendingClose: bool,
    maxRounds: int,
    turns: seq<Turn>)

  function NewSession(maxRounds: int, closed: bool): SessionView {
    SessionView(closed, false, false, false, maxRounds, [])
  }

  function AppendTurn(turns: seq<Turn>, maxRounds: int, turn: Turn): seq<Turn> {
    if maxRounds <= 0 then []
    else if |turns| + 1 > maxRounds then (turns + [turn])[|turns| + 1 - maxRounds..]
    else turns + [turn]
  }

  /** Only taken when the session is not closed. */
  function BeginExecution(s: SessionView): SessionView {
    s.(executing := true)
  }

  /** `turn` is present exactly when the answer succeeded. */
  function EndExecution(s: SessionView, turn: Option<Turn>): SessionView {
    var appended := if turn.Some? then AppendTurn(s.turns, s.maxRounds, turn.value) else s.turns;
    s.(turns := if s.pendingClear then [] else appended,
       pendingClear := false,
       closed := s.closed || s.pendingClose,
       pendingClose := false,
       executing := false)
  }

  /** Only taken when the session is not closed and the context is live. */
  function ClearHistory(s: SessionView): SessionView {
    if s.executing then s.(pendingClear := true) else s.(turns := [])
  }

  function CloseSession(s: SessionView): SessionView {
    if s.executing then s.(pendingClose := true) else s.(closed := true)
  }

  /** The bounded history object. */
  class History {
    const maxRounds: int
    var turns: seq<Turn>

    constructor (maxRounds: int)
      ensures this.maxRounds == maxRounds && turns == []
    {
      this.maxRounds := maxRounds;
      turns := [];
    }

    method Append(user: string, assistant: string)
      modifies this
      ensures turns == LastN(old(turns) + [Turn(user, assistant)], maxRounds)
      ensures turns == AppendTurn(old(turns), maxRounds, Turn(user, assistant))
    {
      if maxRounds <= 0 {
        turns := [];
        return;
      }
      turns := turns + [Turn(user, assistant)];
      if |turns| > maxRounds {
        var start := |turns| - maxRounds;
        turns := turns[start..];
      }
    }

    method Clear()
      modifies this
      ensures turns == []
    {
      turns := [];
    }
  }

  datatype ClearOutcome = Refused | Deferred | ClearedHere | ClearStore

  /** The session object with an in-process or an external history. */
  class Session {
    const history: History
    const external: bool
    var closed: bool
    var executing: bool
    var pendingClear: bool
    var pendingClose: bool

    ghost function View(): SessionView
      reads this, history
    {
      SessionView(closed, executing, pendingClear, pendingClose, history.maxRounds, history.turns)
    }

    constructor (maxRounds: int, external: bool, closed: bool)
      ensures View() == NewSession(maxRounds, closed)
      ensures this.external == external && fresh(history)
    {
      var h := new History(maxRounds);
      history := h;
      this.external := external;
      this.closed := closed;
      executing, pendingClear, pendingClose := false, false, false;
    }

    method Begin() returns (ok: bool)
      modifies this
      ensures ok == !old(closed)
      ensures executing == (old(executing) || ok) && closed == old(closed)
      ensures View() == if ok then BeginExecution(old(View())) else old(View())
    {
      if closed {
        return false;
      }
      executing := true;
      return true;
    }

    method End(query: string, answer: string, appendHistory: bool)
      modifies this, history
      ensures closed == (old(closed) || old(pendingClose)) && !pendingClose && !executing
      ensures pendingClear == (external && old(pendingClear))
      ensures history.turns ==
              if external then old(history.turns)
              else if old(pendingClear) then []
              else if appendHistory then LastN(old(history.turns) + [Turn(query, answer)], history.maxRounds)
              else old(history.turns)
      ensures !external ==>
        View() == EndExecution(old(View()), if appendHistory then Some(Turn(query, answer)) else None)
    {
      if !external {
        if appendHistory {
          history.Append(query, answer);
        }
        if pendingClear {
          history.Clear();
          pendingClear := false;
        }
      }
      if pendingClose {
        closed := true;
        pendingClose := false;
      }
      executing := false;
    }

    method MarkHistoryClear(ctxLive: bool) returns (outcome: ClearOutcome)
      modifies this, history
      ensures outcome == Refused <==> !ctxLive || old(closed)
      ensures outcome == Deferred <==> ctxLive && !old(closed) && old(executing)
      ensures outcome == ClearStore <==> ctxLive && !old(closed) && !old(executing) && external
      ensures pendingClear == (old(pendingClear) || outcome == Deferred)
      ensures history.turns == if outcome == ClearedHere then [] else old(history.turns)
      ensures View() == if outcome == Deferred || outcome == ClearedHere
                        then ClearHistory(old(View())) else old(View())
    {
      if !ctxLive || closed {
        return Refused;
      }
      if executing {
        pendingClear := true;
        return Deferred;
      }
      if !external {
        history.Clear();
        return ClearedHere;
      }
      return ClearStore;
    }

    /** The locked part of commitHistory: take the pending clear, whatever it is. */
    method TakeClearForCommit() returns (clear: bool)
      modifies this`pendingClear
      ensures clear == old(pendingClear) && !pendingClear
    {
      clear := pendingClear;
      pendingClear := false;
    }

    /** The locked part of flushPendingHistoryClear: only outside an execution. */
    method TakeClearForFlush() returns (clear: bool)
      modifies this`pendingClear
      ensures clear == (old(pendingClear) && !executing)
      ensures pendingClear == (old(pendingClear) && executing)
    {
      clear := pendingClear && !executing;
      if clear {
        pendingClear := false;
      }
    }

    method Close()
      modifies this
      ensures closed == (old(closed) || !old(executing))
      ensures pendingClose == (old(pendingClose) || old(executing))
      ensures View() == CloseSession(old(View()))
    {
      if executing {
        pendingClose := true;
        return;
      }
      closed := true;
    }
  }

  // ---------------------------------------------------------------- the event log

  /** What a session did, in order. `Ended` carries the turn of a successful execution. */
  datatype Event = Began | ClearAsked | Ended(turn: Option<Turn>)

  /** The start of the execution that ends at index `e`. */
  function BeganAt(log: seq<Event>, e: nat): (b: nat)
    requires e <= |log|
    ensures b <= e
  {
    if e == 0 then 0 else if log[e - 1].Began? then e - 1 else BeganAt(log, e - 1)
  }

  predicate NoClearSince(log: seq<Event>, b: nat)
    decreases |log|
  {
    |log| <= b || (!log[|log| - 1].ClearAsked? && NoClearSince(log[..|log| - 1], b))
  }

  lemma {:induction false} NoClearMeans(log: seq<Event>, b: nat)
    ensures NoClearSince(log, b) <==> forall c :: b <= c < |log| ==> !log[c].ClearAsked?
    decreases |log|
  {
    if |log| > b {
      var front := log[..|log| - 1];
      NoClearMeans(front, b);
      assert forall c :: b <= c < |front| ==> front[c] == log[c];
    }
  }

  /**
   * The turns a reader of the log expects to see: those of the successful executions that began
   * after the latest clear request. A clear asked for while an execution runs is later than that
   * execution's beginning, so it takes the execution's own turn with it.
   */
  ghost function Survivors(log: seq<Event>, n: nat): seq<Turn>
    requires n <= |log|
  {
    if n == 0 then []
    else Survivors(log, n - 1) +
         (if log[n - 1].Ended? && log[n - 1].turn.Some? && NoClearSince(log, BeganAt(log, n - 1))
          then [log[n - 1].turn.value] else [])
  }

  /** The history the log calls for: the last `maxRounds` survivors. */
  ghost function Expected(log: seq<Event>, maxRounds: int): seq<Turn> {
    LastN(Survivors(log, |log|), maxRounds)
  }

  /** `b` is the index of the running execution's `Began`. */
  ghost predicate RunningSince(log: seq<Event>, b: nat) {
    b < |log| && log[b].Began? && forall i :: b < i < |log| ==> log[i].ClearAsked?
  }

  /** How a session's value and its log belong together, between executions and during one. */
  ghost predicate HistoryMatches(s: SessionView, log: seq<Event>) {
    && (!s.executing ==> !s.pendingClear && !s.pendingClose && s.turns == Expected(log, s.maxRounds))
    && (s.executing ==>
          && !s.closed
          && exists b: nat :: RunningSince(log, b)
                      && s.turns == Expected(log[..b], s.maxRounds)
                      && (s.pendingClear <==> b + 1 < |log|))
  }

  lemma {:induction false} BeganAtPrefix(log: seq<Event>, m: nat, e: nat)
    requires e <= m <= |log|
    ensures BeganAt(log[..m], e) == BeganAt(log, e)
  {
    if e > 0 { BeganAtPrefix(log, m, e - 1); }
  }

  /** Without a clear in the extension, the survivors of a prefix stay survivors. */
  lemma {:induction false} SurvivorsExtend(log: seq<Event>, m: nat, n: nat)
    requires n <= m <= |log|
    requires NoClearSince(log, m)
    ensures Survivors(log, n) == Survivors(log[..m], n)
  {
    if n > 0 {
      SurvivorsExtend(log, m, n - 1);
      BeganAtPrefix(log, m, n - 1);
      var b := BeganAt(log, n - 1);
      SameClears(log, m, b);
    }
  }

  lemma SameClears(log: seq<Event>, m: nat, b: nat)
    requires m <= |log| && NoClearSince(log, m)
    ensures NoClearSince(log, b) <==> NoClearSince(log[..m], b)
  {
    NoClearMeans(log, m);
    NoClearMeans(log, b);
    NoClearMeans(log[..m], b);
    assert forall c :: 0 <= c < m ==> log[..m][c] == log[c];
  }

  /** A clear request leaves no survivor that ended before it. */
  lemma {:induction false} SurvivorsCleared(log: seq<Event>, n: nat, c: nat)
    requires n <= |log| && c < |log| && log[c].ClearAsked?
    requires forall e :: 0 <= e < n && log[e].Ended? ==> BeganAt(log, e) <= c
    ensures Survivors(log, n) == []
  {
    if n > 0 {
      SurvivorsCleared(log, n - 1, c);
      NoClearMeans(log, BeganAt(log, n - 1));
    }
  }

  lemma BeganMatches(s: SessionView, log: seq<Event>)
    requires HistoryMatches(s, log) && !s.executing && !s.closed
    ensures HistoryMatches(BeginExecution(s), log + [Began])
  {
    var log' := log + [Began];
    assert log'[..|log|] == log;
    assert RunningSince(log', |log|);
  }

  lemma ClearMatches(s: SessionView, log: seq<Event>)
    requires HistoryMatches(s, log)
    ensures HistoryMatches(ClearHistory(s), log + [ClearAsked])
  {
    var log' := log + [ClearAsked];
    if s.executing {
      var b: nat :| RunningSince(log, b) && s.turns == Expected(log[..b], s.maxRounds)
            && (s.pendingClear <==> b + 1 < |log|);
      assert log'[..b] == log[..b];
      assert RunningSince(log', b);
    } else {
      SurvivorsCleared(log', |log'|, |log|);
    }
  }

  lemma CloseMatches(s: SessionView, log: seq<Event>)
    requires HistoryMatches(s, log)
    ensures HistoryMatches(CloseSession(s), log)
  {
  }

  /** What survives when the execution that began at `b` ends. */
  lemma SurvivorsAfterEnd(log: seq<Event>, b: nat, turn: Option<Turn>)
    requires RunningSince(log, b)
    ensures Survivors(log + [Ended(turn)], |log| + 1) ==
            if b + 1 < |log| then [] else Survivors(log[..b], b) + (if turn.Some? then [turn.value] else [])
  {
    var log' := log + [Ended(turn)];
    BeganAtRunning(log', b, |log|);
    if b + 1 < |log| {
      forall e: nat | e < |log'| && log'[e].Ended? ensures BeganAt(log', e) <= |log| - 1 { }
      SurvivorsCleared(log', |log| + 1, |log| - 1);
    } else {
      assert log'[..b] == log[..b];
      NoClearMeans(log', b);
      SurvivorsExtend(log', b, b);
      assert Survivors(log', |log|) == Survivors(log', b);
    }
  }

  /** The history an ending execution leaves behind, from what survived before it. */
  lemma TurnsAfterEnd(s: SessionView, before: seq<Turn>, turn: Option<Turn>)
    requires s.turns == LastN(before, s.maxRounds)
    ensures EndExecution(s, turn).turns ==
            LastN(if s.pendingClear then [] else before + (if turn.Some? then [turn.value] else []), s.maxRounds)
  {
    if !s.pendingClear {
      if turn.Some? {
        AppendIsLastN(s.turns, s.maxRounds, turn);
        LastNAppend(before, s.maxRounds, turn.value);
      } else {
        assert before + [] == before;
      }
    }
  }

  lemma EndedMatches(s: SessionView, log: seq<Event>, turn: Option<Turn>)
    requires HistoryMatches(s, log) && s.executing
    ensures HistoryMatches(EndExecution(s, turn), log + [Ended(turn)])
  {
    var b: nat :| RunningSince(log, b) && s.turns == Expected(log[..b], s.maxRounds)
          && (s.pendingClear <==> b + 1 < |log|);
    ExpectedAfterEnd(s, log, b, turn);
  }

  lemma ExpectedAfterEnd(s: SessionView, log: seq<Event>, b: nat, turn: Option<Turn>)
    requires RunningSince(log, b) && s.turns == Expected(log[..b], s.maxRounds) && (s.pendingClear <==> b + 1 < |log|)
    ensures EndExecution(s, turn).turns == Expected(log + [Ended(turn)], s.maxRounds)
  {
    SurvivorsAfterEnd(log, b, turn);
    EndedWith(s, Survivors(log[..b], b), Survivors(log + [Ended(turn)], |log| + 1), turn);
  }

  lemma EndedWith(s: SessionView, before: seq<Turn>, after: seq<Turn>, turn: Option<Turn>)
    requires s.turns == LastN(before, s.maxRounds)
    requires after == if s.pendingClear then [] else before + (if turn.Some? then [turn.value] else [])
    ensures EndExecution(s, turn).turns == LastN(after, s.maxRounds)
  {
    TurnsAfterEnd(s, before, turn);
  }

  lemma AppendIsLastN(turns: seq<Turn>, maxRounds: int, turn: Option<Turn>)
    ensures turn.Some? ==> AppendTurn(turns, maxRounds, turn.value) == LastN(turns + [turn.value], maxRounds)
  {
  }

  lemma {:induction false} BeganAtRunning(log: seq<Event>, b: nat, e: nat)
    requires b < e <= |log| && log[b].Began?
    requires forall i :: b < i < e ==> !log[i].Began?
    ensures BeganAt(log, e) == b
  {
    if e > b + 1 { BeganAtRunning(log, b, e - 1); }
  }
}
