/**
 What each storage call is answered, over whole runs: `before` leads from a fresh manager to the
 request, and `rest` is anything that happens afterwards. Every statement names the answer by what
 came of the call, so it holds of whatever answers the steps give.
 */
module StorageAnswers {
  import opened Wrappers
  import opened StorageProtocol
  import opened StorageTickets
  import opened StorageSafety
  import opened StorageTheorems

  ghost predicate IsAnswered(s: State, call: nat, r: Reply) {
    call !in s.pending && call in s.replies && s.replies[call] == [r]
  }

  /** Step `k` is the only one of `steps` that lets `call` go on. */
  ghost predicate SettlesOnce(steps: seq<Step>, call: nat, k: nat) {
    k < |steps| && forall j :: 0 <= j < |steps| ==> (SettledCall(steps[j]) == Some(call) <==> j == k)
  }

  // ---------- suspended calls ----------

  lemma {:induction false} NothingSettlesTwice(s: State, steps: seq<Step>, call: nat)
    requires Inv(s) && IsRun(s, steps) && call in s.replies && call !in s.pending
    ensures forall j :: 0 <= j < |steps| ==> SettledCall(steps[j]) != Some(call)
    decreases |steps|
  {
    hide CallsAnsweredOnce, ConnectionsSeparate, IdsNeverReused, TicketsKept, TransactionsTracked, ShutdownOrderly;
    if steps != [] {
      OthersAreUntouched(s, steps[0], call);
      NothingSettlesTwice(Apply(s, steps[0]), steps[1..], call);
    }
  }

  lemma OthersAreUntouched(s: State, step: Step, call: nat)
    requires Inv(s) && IsEnabled(s, step) && call in s.replies
    ensures Inv(Apply(s, step))
    ensures SettledCall(step) != Some(call) ==> IsUntouched(s, Apply(s, step), call)
    ensures call !in s.pending ==> SettledCall(step) != Some(call)
  {
    hide ConnectionsSeparate, IdsNeverReused, TicketsKept, TransactionsTracked, ShutdownOrderly, Apply;
    StepKeepsInv(s, step);
    assert IsLocal(s, Apply(s, step), SettledCall(step));
    assert call != s.nextCall;
  }

  lemma OutcomeIsAnswered(s: State, call: nat, ok: bool, now: int)
    requires IsWellTyped(s) && call in s.pending && s.pending[call].Running? && s.replies[call] == []
    ensures exists r :: IsAnswered(SettleOperation(s, call, ok, now), call, r) && IsOutcome(s.pending[call].op, ok, r)
  {
    hide IsWellTyped, SettledTable, Recorded, Release;
    var t := SettleOperation(s, call, ok, now);
    assert IsAnswered(t, call, t.replies[call][0]);
  }

  /** The state of a running call after any run: still running, or answered by the outcome of its adapter operation. */
  ghost predicate IsFollowed(call: nat, conn: nat, op: AdapterOp, steps: seq<Step>, t: State) {
    if call in t.pending then
      t.pending[call] == Running(conn, op) && forall j :: 0 <= j < |steps| ==> SettledCall(steps[j]) != Some(call)
    else
      exists k: nat, r :: SettlesOnce(steps, call, k) && steps[k].FinishOperation?
        && IsOutcome(op, steps[k].ok, r) && IsAnswered(t, call, r)
  }

  lemma {:induction false} RunningIsFollowed(s: State, steps: seq<Step>, call: nat, conn: nat, op: AdapterOp)
    requires Inv(s) && IsRun(s, steps) && call in s.pending && s.pending[call] == Running(conn, op)
    ensures IsFollowed(call, conn, op, steps, RunAll(s, steps))
    decreases |steps|
  {
    hide ConnectionsSeparate, IdsNeverReused, TicketsKept, TransactionsTracked, ShutdownOrderly, IsOutcome, IsUntouched;
    if steps != [] {
      var t := Apply(s, steps[0]);
      assert s.replies[call] == [];
      OthersAreUntouched(s, steps[0], call);
      if SettledCall(steps[0]) == Some(call) {
        RunningSettles(s, steps, call, op);
      } else {
        UntouchedRuns(s, t, call);
        RunningIsFollowed(t, steps[1..], call, conn, op);
        FollowedEarlier(steps, call, conn, op, RunAll(s, steps));
      }
    }
  }

  lemma UntouchedRuns(s: State, t: State, call: nat)
    requires call in s.replies && IsUntouched(s, t, call)
    ensures call in s.pending <==> call in t.pending
    ensures call in s.pending ==> t.pending[call] == s.pending[call]
    ensures call in t.replies && t.replies[call] == s.replies[call]
  {
  }

  lemma RunningSettles(s: State, steps: seq<Step>, call: nat, op: AdapterOp)
    requires Inv(s) && steps != [] && IsRun(s, steps) && SettledCall(steps[0]) == Some(call)
    requires call in s.pending && s.pending[call].Running? && s.pending[call].op == op
    requires call in s.replies && s.replies[call] == [] && Inv(Apply(s, steps[0]))
    ensures var t := RunAll(s, steps);
      exists r :: SettlesOnce(steps, call, 0) && steps[0].FinishOperation? && IsOutcome(op, steps[0].ok, r)
        && IsAnswered(t, call, r)
  {
    hide CallsAnsweredOnce, ConnectionsSeparate, IdsNeverReused, TicketsKept, TransactionsTracked, ShutdownOrderly, IsOutcome, IsWellTyped;
    var t := Apply(s, steps[0]);
    assert t == SettleOperation(s, call, steps[0].ok, steps[0].now);
    OutcomeIsAnswered(s, call, steps[0].ok, steps[0].now);
    var r :| IsAnswered(t, call, r) && IsOutcome(op, steps[0].ok, r);
    AnswersAreFinal(t, steps[1..], call);
    NothingSettlesTwice(t, steps[1..], call);
    forall j | 0 <= j < |steps| ensures SettledCall(steps[j]) == Some(call) <==> j == 0 {
      if j > 0 { assert steps[j] == steps[1..][j - 1]; }
    }
    assert IsAnswered(RunAll(s, steps), call, r);
  }

  lemma FollowedEarlier(steps: seq<Step>, call: nat, conn: nat, op: AdapterOp, t: State)
    requires steps != [] && SettledCall(steps[0]) != Some(call)
    requires IsFollowed(call, conn, op, steps[1..], t)
    ensures IsFollowed(call, conn, op, steps, t)
  {
    var later := steps[1..];
    assert forall j :: 1 <= j < |steps| ==> steps[j] == later[j - 1];
    if call !in t.pending {
      var k: nat, r :| SettlesOnce(later, call, k) && later[k].FinishOperation?
        && IsOutcome(op, later[k].ok, r) && IsAnswered(t, call, r);
      SettlesOneLater(steps, call, k);
    }
  }

  lemma SettlesOneLater(steps: seq<Step>, call: nat, k: nat)
    requires steps != [] && SettledCall(steps[0]) != Some(call) && SettlesOnce(steps[1..], call, k)
    ensures SettlesOnce(steps, call, k + 1) && steps[k + 1] == steps[1..][k]
  {
    forall j | 0 <= j < |steps| ensures SettledCall(steps[j]) == Some(call) <==> j == k + 1 {
      if j > 0 { assert steps[j] == steps[1..][j - 1]; }
    }
  }

  // ---------- operations ----------

  /** May the manager send this operation to the adapter of `conn`? */
  predicate IsAdmitted(s: State, op: AdapterOp, conn: int) {
    conn in s.connections && !(op.Begin? && s.serial && s.IsShutDown())
  }

  /** The answer of an operation that reaches no adapter. */
  function Refusal(s: State, op: AdapterOp, conn: int): Reply {
    if conn in s.connections then Failure(ShuttingDown) else if op.Rollback? then Acknowledged else Failure(NoConn)
  }

  lemma OperationIsAnswered(s: State, op: AdapterOp, conn: int, now: int, rest: seq<Step>)
    requires Inv(s) && IsRun(s, [CallOperation(op, conn, now)] + rest)
    ensures var t := RunAll(s, [CallOperation(op, conn, now)] + rest);
      if IsAdmitted(s, op, conn) then IsFollowed(s.nextCall, conn, op, rest, t)
      else IsAnswered(t, s.nextCall, Refusal(s, op, conn))
  {
    hide CallsAnsweredOnce, ConnectionsSeparate, IdsNeverReused, TicketsKept, TransactionsTracked, ShutdownOrderly, IsFollowed, Recorded, IsWellTyped, IsQuiet;
    var step := CallOperation(op, conn, now);
    assert ([step] + rest)[1..] == rest;
    StepKeepsInv(s, step);
    var t := Apply(s, step);
    if IsAdmitted(s, op, conn) {
      RunningIsFollowed(t, rest, s.nextCall, conn, op);
    } else {
      AnsweredAtOnce(s, op, conn, now);
      AnswersAreFinal(t, rest, s.nextCall);
    }
  }

  lemma AnsweredAtOnce(s: State, op: AdapterOp, conn: int, now: int)
    requires Inv(s) && IsWellTyped(s) && !IsAdmitted(s, op, conn)
    ensures IsAnswered(StartOperation(s, op, conn, now), s.nextCall, Refusal(s, op, conn))
  {
    hide ConnectionsSeparate, IdsNeverReused, TicketsKept, TransactionsTracked, ShutdownOrderly;
  }

  /**
   An execute, begin or commit on a live connection succeeds if and only if its adapter operation
   returns well, with rows exactly for an execute; a rollback is always acknowledged. On an unknown
   connection all but the rollback fail, and so does a begin once a serial manager shuts down.
   */
  lemma OperationsAreAnswered(serial: bool, before: seq<Step>, op: AdapterOp, conn: int, now: int, rest: seq<Step>)
    requires IsRun(Init(serial), before)
    requires IsRun(RunAll(Init(serial), before), [CallOperation(op, conn, now)] + rest)
    ensures var s := RunAll(Init(serial), before);
      var t := RunAll(s, [CallOperation(op, conn, now)] + rest);
      if conn !in s.connections then
        IsAnswered(t, s.nextCall, if op.Rollback? then Acknowledged else Failure(NoConn))
      else if op.Begin? && serial && StartShutdown in before then
        IsAnswered(t, s.nextCall, Failure(ShuttingDown))
      else
        IsFollowed(s.nextCall, conn, op, rest, t)
  {
    hide Inv, IsFollowed, IsAnswered;
    Reachable(serial, before);
    RunKeepsMode(Init(serial), before);
    ShutDownSince(Init(serial), before);
    OperationIsAnswered(RunAll(Init(serial), before), op, conn, now, rest);
  }

  /** The manager is shutting down once, and only once, a shutdown was asked for. */
  lemma {:induction false} ShutDownSince(s: State, steps: seq<Step>)
    requires IsRun(s, steps)
    ensures RunAll(s, steps).IsShutDown() <==> s.IsShutDown() || StartShutdown in steps
    decreases |steps|
  {
    hide IsWellTyped;
    if steps != [] {
      ShutDownBy(s, steps[0]);
      ShutDownSince(Apply(s, steps[0]), steps[1..]);
    }
  }

  lemma ShutDownBy(s: State, step: Step)
    requires IsEnabled(s, step)
    ensures Apply(s, step).IsShutDown() <==> s.IsShutDown() || step.StartShutdown?
  {
    hide ApplyRequest, SettleCall, ApplyOwn, IsLocal;
    if IsRequest(step) {
      RequestKeepsCloser(s, step);
    } else if SettledCall(step).Some? {
      SettlingKeepsCloser(s, step);
    } else {
      ShutDownByOwn(s, step);
    }
  }

  lemma RequestKeepsCloser(s: State, step: Step)
    requires IsEnabled(s, step) && IsRequest(step)
    ensures ApplyRequest(s, step).closer == s.closer
  {
    hide Acquire, StartOperation, StartClose, IsWellTyped, IsLocal;
    match step {
      case CallAcquire(now, throwsAt, factoryOk) => AcquireKeepsCloser(s, now, throwsAt, factoryOk);
      case CallOperation(op, conn, now) => OperationKeepsCloser(s, op, conn, now);
      case CallClose(conn) => CloseKeepsCloser(s, conn);
      case _ =>
    }
  }

  lemma AcquireKeepsCloser(s: State, now: int, throwsAt: Option<nat>, factoryOk: bool)
    requires IsWellTyped(s)
    ensures Acquire(s, now, throwsAt, factoryOk).closer == s.closer
  {
    hide SweptBy, LocksOf, SweptCleanups, SweptHistory;
  }

  lemma OperationKeepsCloser(s: State, op: AdapterOp, conn: int, now: int)
    requires IsWellTyped(s)
    ensures StartOperation(s, op, conn, now).closer == s.closer
  {
    assert conn in s.connections ==> conn in s.history;
    hide Recorded, IsWellTyped, CallsAtStart;
  }

  lemma CloseKeepsCloser(s: State, conn: int)
    requires IsWellTyped(s)
    ensures StartClose(s, conn).closer == s.closer
  {
    hide Recorded;
  }

  lemma SettlingKeepsCloser(s: State, step: Step)
    requires IsEnabled(s, step) && SettledCall(step).Some?
    ensures SettleCall(s, step).closer == s.closer
  {
    hide Recorded, SettledTable, Release, IsWellTyped, IsLocal;
  }

  lemma ShutDownByOwn(s: State, step: Step)
    requires IsEnabled(s, step) && !IsRequest(step) && SettledCall(step).None?
    ensures ApplyOwn(s, step).IsShutDown() <==> s.IsShutDown() || step.StartShutdown?
  {
    hide SweptBy, LocksOf, SweptCleanups, SweptHistory, Recorded, IsWellTyped, IsLocal, IsNextVisit;
  }

  // ---------- acquires ----------

  /** A waiting acquire after any run: still waiting, or answered by whether the manager was live when its turn came. */
  ghost predicate IsFollowedInQueue(call: nat, conn: nat, ticket: nat, live: bool, steps: seq<Step>, t: State) {
    if call in t.pending then
      t.pending[call] == Waiting(conn, ticket) && forall j :: 0 <= j < |steps| ==> SettledCall(steps[j]) != Some(call)
    else
      exists k: nat :: SettlesOnce(steps, call, k) && steps[k].Grant?
        && IsAnswered(t, call, if live && StartShutdown !in steps[..k] then Connected(conn) else Failure(ShuttingDown))
  }

  lemma {:induction false} WaiterIsFollowed(s: State, steps: seq<Step>, call: nat, conn: nat, ticket: nat)
    requires Inv(s) && IsRun(s, steps) && call in s.pending && s.pending[call] == Waiting(conn, ticket)
    ensures IsFollowedInQueue(call, conn, ticket, !s.IsShutDown(), steps, RunAll(s, steps))
    decreases |steps|
  {
    hide ConnectionsSeparate, IdsNeverReused, TicketsKept, TransactionsTracked, ShutdownOrderly, IsUntouched;
    if steps != [] {
      var t := Apply(s, steps[0]);
      assert s.replies[call] == [];
      OthersAreUntouched(s, steps[0], call);
      if SettledCall(steps[0]) == Some(call) {
        WaiterSettles(s, steps, call);
      } else {
        UntouchedRuns(s, t, call);
        ShutDownBy(s, steps[0]);
        WaiterIsFollowed(t, steps[1..], call, conn, ticket);
        QueuedEarlier(steps, call, conn, ticket, !s.IsShutDown(), RunAll(s, steps));
      }
    }
  }

  lemma WaiterSettles(s: State, steps: seq<Step>, call: nat)
    requires Inv(s) && steps != [] && IsRun(s, steps) && SettledCall(steps[0]) == Some(call)
    requires call in s.pending && s.pending[call].Waiting?
    requires call in s.replies && s.replies[call] == [] && Inv(Apply(s, steps[0]))
    ensures SettlesOnce(steps, call, 0) && steps[0].Grant?
    ensures IsAnswered(RunAll(s, steps), call,
                       if s.IsShutDown() then Failure(ShuttingDown) else Connected(s.pending[call].conn))
  {
    hide CallsAnsweredOnce, ConnectionsSeparate, IdsNeverReused, TicketsKept, TransactionsTracked, ShutdownOrderly, IsWellTyped;
    var t := Apply(s, steps[0]);
    assert t == GrantTicket(s, call, steps[0].now);
    AnswersAreFinal(t, steps[1..], call);
    NothingSettlesTwice(t, steps[1..], call);
    forall j | 0 <= j < |steps| ensures SettledCall(steps[j]) == Some(call) <==> j == 0 {
      if j > 0 { assert steps[j] == steps[1..][j - 1]; }
    }
  }

  lemma QueuedEarlier(steps: seq<Step>, call: nat, conn: nat, ticket: nat, live: bool, t: State)
    requires steps != [] && SettledCall(steps[0]) != Some(call)
    requires IsFollowedInQueue(call, conn, ticket, live && !steps[0].StartShutdown?, steps[1..], t)
    ensures IsFollowedInQueue(call, conn, ticket, live, steps, t)
  {
    var later := steps[1..];
    assert forall j :: 1 <= j < |steps| ==> steps[j] == later[j - 1];
    if call !in t.pending {
      var lives := live && !steps[0].StartShutdown?;
      var k: nat :| SettlesOnce(later, call, k) && later[k].Grant?
        && IsAnswered(t, call, if lives && StartShutdown !in later[..k] then Connected(conn) else Failure(ShuttingDown));
      SettlesOneLater(steps, call, k);
      assert steps[..k + 1] == [steps[0]] + later[..k];
    }
  }

  lemma AcquireIsAnswered(s: State, now: int, throwsAt: Option<nat>, factoryOk: bool, rest: seq<Step>)
    requires Inv(s) && IsRun(s, [CallAcquire(now, throwsAt, factoryOk)] + rest)
    ensures var t := RunAll(s, [CallAcquire(now, throwsAt, factoryOk)] + rest);
      if throwsAt.Some? || !factoryOk then IsAnswered(t, s.nextCall, Failure(AdapterErr))
      else if s.serial then IsFollowedInQueue(s.nextCall, s.nextConnId, s.nextTicket, !s.IsShutDown(), rest, t)
      else IsAnswered(t, s.nextCall, Connected(s.nextConnId))
  {
    hide CallsAnsweredOnce, ConnectionsSeparate, IdsNeverReused, TicketsKept, TransactionsTracked, ShutdownOrderly, IsFollowedInQueue, Sweep, IsWellTyped;
    var step := CallAcquire(now, throwsAt, factoryOk);
    assert ([step] + rest)[1..] == rest;
    StepKeepsInv(s, step);
    AcquireStarts(s, now, throwsAt, factoryOk);
    var t := Apply(s, step);
    if throwsAt.None? && factoryOk && s.serial {
      WaiterIsFollowed(t, rest, s.nextCall, s.nextConnId, s.nextTicket);
    } else {
      AnswersAreFinal(t, rest, s.nextCall);
    }
  }

  lemma AcquireStarts(s: State, now: int, throwsAt: Option<nat>, factoryOk: bool)
    requires Inv(s) && IsWellTyped(s)
    ensures var t := Acquire(s, now, throwsAt, factoryOk);
      && t.closer == s.closer && t.serial == s.serial
      && s.nextCall in t.replies
      && if throwsAt.Some? || !factoryOk then IsAnswered(t, s.nextCall, Failure(AdapterErr))
         else if s.serial then s.nextCall in t.pending && t.pending[s.nextCall] == Waiting(s.nextConnId, s.nextTicket)
         else IsAnswered(t, s.nextCall, Connected(s.nextConnId))
  {
    hide ConnectionsSeparate, IdsNeverReused, TicketsKept, TransactionsTracked, ShutdownOrderly, SweptBy, LocksOf, SweptCleanups, SweptHistory;
  }

  /**
   An acquire fails when the sweep or the adapter factory throws. Otherwise a pooled one is answered
   at once with the next connection id, and a serial one when its turn comes: with that id unless a
   shutdown was asked for before.
   */
  lemma AcquiresAreAnswered(serial: bool, before: seq<Step>, now: int, throwsAt: Option<nat>, factoryOk: bool, rest: seq<Step>)
    requires IsRun(Init(serial), before)
    requires IsRun(RunAll(Init(serial), before), [CallAcquire(now, throwsAt, factoryOk)] + rest)
    ensures var s := RunAll(Init(serial), before);
      var t := RunAll(s, [CallAcquire(now, throwsAt, factoryOk)] + rest);
      if throwsAt.Some? || !factoryOk then IsAnswered(t, s.nextCall, Failure(AdapterErr))
      else if serial then IsFollowedInQueue(s.nextCall, s.nextConnId, s.nextTicket, StartShutdown !in before, rest, t)
      else IsAnswered(t, s.nextCall, Connected(s.nextConnId))
  {
    hide Inv, IsFollowedInQueue, IsAnswered;
    Reachable(serial, before);
    RunKeepsMode(Init(serial), before);
    ShutDownSince(Init(serial), before);
    AcquireIsAnswered(RunAll(Init(serial), before), now, throwsAt, factoryOk, rest);
  }

  // ---------- close requests and what is no operation ----------

  predicate IsClosing(p: Pending) { p.ClosingRollback? || p.ClosingClose? }

  lemma {:induction false} ClosingIsFollowed(s: State, steps: seq<Step>, call: nat)
    requires Inv(s) && IsRun(s, steps) && call in s.pending && IsClosing(s.pending[call])
    ensures var t := RunAll(s, steps);
      if call in t.pending then IsClosing(t.pending[call]) else IsAnswered(t, call, Acknowledged)
    decreases |steps|
  {
    hide ConnectionsSeparate, IdsNeverReused, TicketsKept, TransactionsTracked, ShutdownOrderly, IsUntouched;
    if steps != [] {
      var t := Apply(s, steps[0]);
      assert s.replies[call] == [];
      OthersAreUntouched(s, steps[0], call);
      if SettledCall(steps[0]) == Some(call) {
        ClosingSettles(s, steps[0], call);
      } else {
        UntouchedRuns(s, t, call);
      }
      if call in t.pending {
        ClosingIsFollowed(t, steps[1..], call);
      } else {
        AnswersAreFinal(t, steps[1..], call);
      }
    }
  }

  lemma ClosingSettles(s: State, step: Step, call: nat)
    requires IsEnabled(s, step) && SettledCall(step) == Some(call)
    requires call in s.pending && IsClosing(s.pending[call]) && call in s.replies && s.replies[call] == []
    ensures var t := Apply(s, step);
      if call in t.pending then IsClosing(t.pending[call]) else IsAnswered(t, call, Acknowledged)
  {
    hide ApplyRequest, ApplyOwn, IsWellTyped, GrantTicket, SettleOperation, SettleCloseRollback, SettleClosing;
    if step.FinishCloseRollback? { RollbackOfCloseSettles(s, call, step.ok); } else { EndOfCloseSettles(s, call); }
  }

  lemma EndOfCloseSettles(s: State, call: nat)
    requires call in s.pending && IsClosing(s.pending[call]) && call in s.replies && s.replies[call] == []
    ensures IsAnswered(SettleClosing(s, call), call, Acknowledged)
  {
    hide Release;
  }

  lemma RollbackOfCloseSettles(s: State, call: nat, ok: bool)
    requires IsWellTyped(s) && call in s.pending && s.pending[call].ClosingRollback?
    requires call in s.replies && s.replies[call] == []
    ensures var t := SettleCloseRollback(s, call, ok);
      if call in t.pending then IsClosing(t.pending[call]) else IsAnswered(t, call, Acknowledged)
  {
    hide Recorded, SettleClosing;
    if !ok { EndOfCloseSettles(s, call); }
  }

  /** A close request is only ever acknowledged, at once when the connection is unknown. */
  lemma ClosesAreAcknowledged(serial: bool, before: seq<Step>, conn: int, rest: seq<Step>)
    requires IsRun(Init(serial), before)
    requires IsRun(RunAll(Init(serial), before), [CallClose(conn)] + rest)
    ensures var s := RunAll(Init(serial), before);
      var t := RunAll(s, [CallClose(conn)] + rest);
      IsAnswered(t, s.nextCall, Acknowledged)
      || (conn in s.connections && s.nextCall in t.pending && IsClosing(t.pending[s.nextCall]))
  {
    hide CallsAnsweredOnce, ConnectionsSeparate, IdsNeverReused, TicketsKept, TransactionsTracked, ShutdownOrderly, Recorded, IsWellTyped, IsQuiet;
    Reachable(serial, before);
    var s := RunAll(Init(serial), before);
    var step := CallClose(conn);
    assert ([step] + rest)[1..] == rest;
    StepKeepsInv(s, step);
    CloseStarts(s, conn);
    var t := Apply(s, step);
    if conn in s.connections {
      ClosingIsFollowed(t, rest, s.nextCall);
    } else {
      AnswersAreFinal(t, rest, s.nextCall);
    }
  }

  lemma CloseStarts(s: State, conn: int)
    requires Inv(s) && IsWellTyped(s)
    ensures var t := StartClose(s, conn);
      if conn in s.connections then s.nextCall in t.pending && IsClosing(t.pending[s.nextCall])
      else IsAnswered(t, s.nextCall, Acknowledged)
  {
    hide ConnectionsSeparate, IdsNeverReused, TicketsKept, TransactionsTracked, ShutdownOrderly, Recorded;
  }

  /** What cannot be read and what is no operation is answered at once with its own error code. */
  lemma OthersAreRefused(serial: bool, before: seq<Step>, malformed: bool, rest: seq<Step>)
    requires IsRun(Init(serial), before)
    requires IsRun(RunAll(Init(serial), before), [if malformed then CallMalformed else CallUnknown] + rest)
    ensures var s := RunAll(Init(serial), before);
      var t := RunAll(s, [if malformed then CallMalformed else CallUnknown] + rest);
      IsAnswered(t, s.nextCall, Failure(if malformed then JsonErr else UnknownOp))
  {
    hide ConnectionsSeparate, IdsNeverReused, TicketsKept, TransactionsTracked, ShutdownOrderly, IsWellTyped;
    Reachable(serial, before);
    var s := RunAll(Init(serial), before);
    var step := if malformed then CallMalformed else CallUnknown;
    assert ([step] + rest)[1..] == rest;
    StepKeepsInv(s, step);
    AnswersAreFinal(Apply(s, step), rest, s.nextCall);
  }
}
