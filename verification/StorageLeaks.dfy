/**
 Close requests whose rollback fails. The adapter's close sits behind the rollback, so it is skipped,
 and since the connection has left the table nobody comes back to it: the adapter is never closed.
 */
module StorageLeaks {
  import opened Wrappers
  import opened StorageProtocol
  import opened StorageTickets
  import opened StorageSafety
  import opened StorageTheorems
  import opened StorageLateBegins
  import opened StorageAnswers
  import opened StorageEntries
  import opened StorageRuns

  /** Is `close` at this connection? */
  predicate IsVisited(closer: Closer, id: nat) {
    (closer.VisitRollback? || closer.VisitClose?) && closer.conn == id
  }

  /** The connection was handed out, or drawn, and nothing refers to it any more. */
  ghost predicate IsForgotten(s: State, id: nat) {
    && id in s.history && id !in s.connections && id !in s.cleanups
    && !IsInUse(s.pending, id) && !IsVisited(s.closer, id)
  }

  /** What a step may newly refer to: listed connections, and the next one. */
  predicate RefersToKnown(s: State, t: State, id: nat) {
    && (forall c :: c in t.pending && t.pending[c].conn == id ==>
          (c in s.pending && s.pending[c].conn == id) || id in s.connections || id == s.nextConnId)
    && (id in t.cleanups ==> id in s.cleanups || id in s.connections)
    && (IsVisited(t.closer, id) ==> IsVisited(s.closer, id) || id in s.connections)
  }

  lemma SweepRefers(s: State, now: int, throwsAt: Option<nat>, id: nat)
    requires IsWellTyped(s)
    ensures var t := Sweep(s, now, throwsAt);
      t.pending == s.pending && t.closer == s.closer && (id in t.cleanups ==> id in s.cleanups || id in s.connections)
  {
    hide IsWellTyped, IsStale, LocksOf, SweptHistory;
  }

  lemma AcquireRefers(s: State, now: int, throwsAt: Option<nat>, factoryOk: bool, id: nat)
    requires IsWellTyped(s)
    ensures RefersToKnown(s, Acquire(s, now, throwsAt, factoryOk), id)
  {
    SweepRefers(s, now, throwsAt, id);
    assert s.connections.Keys <= s.history.Keys;
    hide IsWellTyped, SweepEntries, SweptBy;
    var t := Sweep(s, now, throwsAt);
    assert t.nextConnId == s.nextConnId && t.nextCall == s.nextCall by { SweepKeepsNumbers(s, now, throwsAt); }
  }

  lemma SweepKeepsNumbers(s: State, now: int, throwsAt: Option<nat>)
    requires IsWellTyped(s)
    ensures var t := Sweep(s, now, throwsAt); t.nextConnId == s.nextConnId && t.nextCall == s.nextCall
  {
    hide SweptBy, LocksOf, SweptCleanups, SweptHistory;
  }

  lemma OperationRefers(s: State, op: AdapterOp, conn: int, now: int, id: nat)
    requires IsWellTyped(s)
    ensures RefersToKnown(s, StartOperation(s, op, conn, now), id)
  {
    assert conn in s.connections ==> conn in s.history;
    hide IsWellTyped, Recorded;
  }

  lemma CloseRefers(s: State, conn: int, id: nat)
    requires IsWellTyped(s)
    ensures RefersToKnown(s, StartClose(s, conn), id)
  {
    assert conn in s.connections ==> conn in s.history;
    hide IsWellTyped, Recorded, FirstCleanup;
  }

  lemma RequestRefers(s: State, step: Step, id: nat)
    requires IsEnabled(s, step) && IsRequest(step)
    ensures RefersToKnown(s, ApplyRequest(s, step), id)
  {
    hide Acquire, StartOperation, StartClose, IsWellTyped, IsLocal, IsQuiet, CanThrowAt;
    match step
    case CallAcquire(now, throwsAt, factoryOk) => AcquireRefers(s, now, throwsAt, factoryOk, id);
    case CallOperation(op, conn, now) => OperationRefers(s, op, conn, now, id);
    case CallClose(conn) => CloseRefers(s, conn, id);
    case _ =>
  }

  lemma CloseRollbackRefers(s: State, call: nat, ok: bool, id: nat)
    requires IsWellTyped(s) && call in s.pending && s.pending[call].ClosingRollback?
    ensures RefersToKnown(s, SettleCloseRollback(s, call, ok), id)
  {
    hide IsWellTyped, Recorded, Release;
  }

  lemma SettlingRefers(s: State, step: Step, id: nat)
    requires IsEnabled(s, step) && SettledCall(step).Some?
    ensures RefersToKnown(s, SettleCall(s, step), id)
  {
    hide IsWellTyped, Recorded, Release, SettledTable, IsLocal, SettleCloseRollback;
    if step.FinishCloseRollback? { CloseRollbackRefers(s, step.call, step.ok, id); }
  }

  lemma AdvanceRefers(s: State, cursor: nat, id: nat)
    requires IsWellTyped(s)
    ensures RefersToKnown(s, Advance(s, cursor), id)
  {
    hide Recorded, FirstCleanup;
  }

  lemma OwnStepRefers(s: State, step: Step, id: nat)
    requires IsEnabled(s, step) && !IsRequest(step) && SettledCall(step).None?
    ensures RefersToKnown(s, ApplyOwn(s, step), id)
  {
    hide IsWellTyped, Sweep, Advance, IsLocal, CanThrowAt, LocksOf, Recorded;
    match step
    case TimerSweep(now, throwsAt) => SweepRefers(s, now, throwsAt, id);
    case FinishDrain => AdvanceRefers(s, 0, id);
    case FinishVisitClose => AdvanceRefers(s, s.closer.conn, id);
    case _ =>
  }

  lemma StepRefers(s: State, step: Step, id: nat)
    requires IsEnabled(s, step)
    ensures RefersToKnown(s, Apply(s, step), id)
  {
    hide ApplyRequest, SettleCall, ApplyOwn, IsLocal, RefersToKnown;
    if IsRequest(step) { RequestRefers(s, step, id); }
    else if SettledCall(step).Some? { SettlingRefers(s, step, id); }
    else { OwnStepRefers(s, step, id); }
  }

  // ---------- forgotten for good ----------

  lemma ForgottenStaysOut(s: State, step: Step, id: nat)
    requires Inv(s) && IsEnabled(s, step) && IsForgotten(s, id)
    ensures id !in Apply(s, step).connections
  {
    if step.CallOperation? && step.conn == id {
      hide Inv, IsWellTyped, Recorded;
    } else {
      assert id != s.nextConnId;
      StepKeepsEntry(s, step, id);
      hide Inv, IsWellTyped, Apply;
    }
  }

  lemma ForgottenSeesNothing(s: State, step: Step, id: nat)
    requires Inv(s) && IsEnabled(s, step) && IsForgotten(s, id)
    ensures NewCalls(s, step, id) == []
  {
    hide Inv, IsWellTyped, CanThrowAt, IsStale;
  }

  lemma ForgottenStaysForgotten(s: State, step: Step, id: nat)
    requires Inv(s) && IsEnabled(s, step) && IsForgotten(s, id)
    ensures IsForgotten(Apply(s, step), id) && Apply(s, step).history[id] == s.history[id]
  {
    assert id != s.nextConnId;
    ForgottenStaysOut(s, step, id);
    ForgottenSeesNothing(s, step, id);
    SameHistory(s, step, id);
    StepRefers(s, step, id);
    hide Inv, Apply, IsEnabled, NewCalls;
  }

  lemma {:induction false} NobodyComesBack(s: State, steps: seq<Step>, id: nat)
    requires Inv(s) && IsRun(s, steps) && IsForgotten(s, id)
    ensures var t := RunAll(s, steps); id in t.history && t.history[id] == s.history[id]
    decreases |steps|
  {
    hide Inv, Apply, IsEnabled;
    if steps != [] {
      StepKeepsInv(s, steps[0]);
      ForgottenStaysForgotten(s, steps[0], id);
      NobodyComesBack(Apply(s, steps[0]), steps[1..], id);
    }
  }

  lemma RollbackFails(s: State, call: nat)
    requires Inv(s) && IsEnabled(s, FinishCloseRollback(call, false)) && !IsVisited(s.closer, s.pending[call].conn)
    ensures var t := Apply(s, FinishCloseRollback(call, false));
      && IsForgotten(t, s.pending[call].conn) && t.history == s.history
      && call in s.replies && IsAnswered(t, call, Acknowledged)
  {
    hide IdsNeverReused, TicketsKept, TransactionsTracked, ShutdownOrderly;
  }

  /**
   A close request whose rollback fails is acknowledged, but unless `close` is visiting the connection
   at that moment no further call ever reaches the adapter, its close included.
   */
  lemma FailedRollbackEndsIt(serial: bool, before: seq<Step>, call: nat, rest: seq<Step>)
    requires IsRun(Init(serial), before)
    requires var s := RunAll(Init(serial), before);
      && IsEnabled(s, FinishCloseRollback(call, false)) && !IsVisited(s.closer, s.pending[call].conn)
      && IsRun(Apply(s, FinishCloseRollback(call, false)), rest)
    ensures var s := RunAll(Init(serial), before); var id := s.pending[call].conn;
      var t := RunAll(Apply(s, FinishCloseRollback(call, false)), rest);
      && id in s.history && id in t.history && t.history[id] == s.history[id]
      && IsAnswered(t, call, Acknowledged)
  {
    hide Inv, IsRun, RunAll, Apply;
    Reachable(serial, before);
    var s := RunAll(Init(serial), before);
    RollbackFails(s, call);
    StepKeepsInv(s, FinishCloseRollback(call, false));
    NobodyComesBack(Apply(s, FinishCloseRollback(call, false)), rest, s.pending[call].conn);
    AnswersAreFinal(Apply(s, FinishCloseRollback(call, false)), rest, call);
  }

  /** If `close` is visiting the connection at that moment, its own rollback is still followed by the adapter's close. */
  lemma VisitStillCloses(serial: bool, before: seq<Step>, call: nat)
    requires IsRun(Init(serial), before)
    requires var s := RunAll(Init(serial), before);
      IsEnabled(s, FinishCloseRollback(call, false)) && s.closer == VisitRollback(s.pending[call].conn)
    ensures var s := RunAll(Init(serial), before); var id := s.pending[call].conn;
      var t := Apply(s, FinishCloseRollback(call, false));
      && IsEnabled(t, FinishVisitRollback)
      && id in s.history && id in Apply(t, FinishVisitRollback).history
      && Apply(t, FinishVisitRollback).history[id] == s.history[id] + [CloseTried]
  {
    hide IsRun, RunAll;
    Reachable(serial, before);
    VisitGoesOn(RunAll(Init(serial), before), call);
  }

  lemma VisitGoesOn(s: State, call: nat)
    requires Inv(s) && IsEnabled(s, FinishCloseRollback(call, false)) && s.closer == VisitRollback(s.pending[call].conn)
    ensures var id := s.pending[call].conn; var t := Apply(s, FinishCloseRollback(call, false));
      && IsEnabled(t, FinishVisitRollback)
      && id in s.history && id in Apply(t, FinishVisitRollback).history
      && Apply(t, FinishVisitRollback).history[id] == s.history[id] + [CloseTried]
  {
    hide Inv, Apply, IsEnabled;
    StepKeepsInv(s, FinishCloseRollback(call, false));
    RollbackKeepsVisit(s, call);
    VisitClosesNext(Apply(s, FinishCloseRollback(call, false)), s.closer.conn);
  }

  lemma RollbackKeepsVisit(s: State, call: nat)
    requires IsEnabled(s, FinishCloseRollback(call, false))
    ensures var t := Apply(s, FinishCloseRollback(call, false)); t.closer == s.closer && t.history == s.history
  {
    hide IsWellTyped, IsLocal, Release;
  }

  lemma VisitClosesNext(s: State, id: nat)
    requires Inv(s) && s.closer == VisitRollback(id)
    ensures IsEnabled(s, FinishVisitRollback) && id in s.history
    ensures var t := Apply(s, FinishVisitRollback); id in t.history && t.history[id] == s.history[id] + [CloseTried]
  {
    InvIsWellTyped(s);
    hide Inv, IsLocal;
  }

  // ---------- it happens ----------

  lemma CloseIsAsked(s: State, id: nat) returns (t: State)
    requires IsIdle(s) && id in s.connections && id in s.history && s.connections[id].inTransaction
    ensures IsEnabled(s, CallClose(id)) && t == Apply(s, CallClose(id)) && Inv(t)
    ensures t.pending.Keys == {s.nextCall} && t.pending[s.nextCall].ClosingRollback? && t.pending[s.nextCall].conn == id
    ensures t.closer == s.closer && id in t.history && t.history[id] == s.history[id] + [RollbackTried]
  {
    InvIsWellTyped(s);
    StepKeepsInv(s, CallClose(id));
    t := Apply(s, CallClose(id));
    hide Inv;
  }

  /** A fresh manager can get there: a connection with an open transaction, a close request, and a rollback that fails. */
  lemma OpenAdapterIsLeaked() returns (steps: seq<Step>)
    ensures IsRun(Init(true), steps)
    ensures var s := RunAll(Init(true), steps);
      && IsForgotten(s, 1) && s.history[1] == [Began, RollbackTried] && s.pending == map[]
      && !s.IsShutDown()
  {
    var s0 := Init(true);
    InitInv(true);
    var s1 := ConnectOne(s0);
    steps := ConnectRun(s0);
    var s2 := BeginOne(s1, 1, true);
    RunsConcatenate(s0, steps, BeginRun(s1, 1, true));
    steps := steps + BeginRun(s1, 1, true);
    var s3 := CloseIsAsked(s2, 1);
    LastStepsLeak(s2, s3);
    RunsConcatenate(s0, steps, [CallClose(1), FinishCloseRollback(s2.nextCall, false)]);
    steps := steps + [CallClose(1), FinishCloseRollback(s2.nextCall, false)];
  }

  lemma LastStepsLeak(s: State, t: State)
    requires s.closer.NotClosing? && IsEnabled(s, CallClose(1)) && t == Apply(s, CallClose(1)) && Inv(t)
    requires t.pending.Keys == {s.nextCall} && t.pending[s.nextCall].ClosingRollback? && t.pending[s.nextCall].conn == 1
    requires 1 in s.history && s.history[1] == [Began] && 1 in t.history && t.history[1] == s.history[1] + [RollbackTried]
    requires t.closer == s.closer
    ensures var steps := [CallClose(1), FinishCloseRollback(s.nextCall, false)];
      && IsRun(s, steps)
      && var u := RunAll(s, steps);
        IsForgotten(u, 1) && u.history[1] == [Began, RollbackTried] && u.pending == map[] && !u.IsShutDown()
  {
    hide Inv, IsForgotten, Apply, IsEnabled, IsRun, RunAll;
    var last := FinishCloseRollback(s.nextCall, false);
    OnlyClosing(t, s.nextCall);
    TwoSteps(s, CallClose(1), last);
    RollbackFails(t, s.nextCall);
    assert [Began] + [RollbackTried] == [Began, RollbackTried];
  }

  lemma OnlyClosing(t: State, call: nat)
    requires Inv(t) && t.pending.Keys == {call} && t.pending[call].ClosingRollback?
    ensures IsEnabled(t, FinishCloseRollback(call, false))
    ensures var u := Apply(t, FinishCloseRollback(call, false)); u.pending == map[] && u.closer == t.closer
  {
    InvIsWellTyped(t);
    hide Inv, IsWellTyped, Recorded, Release, IsLocal;
  }
}
