/**
 When an adapter is closed over a transaction that nobody tried to end. In any run this happens to a
 connection exactly if a begin on it returns while `close` awaits its rollback, and nobody tries to
 end the new transaction before that rollback returns.
 */
module StorageLateBegins {
  import opened Wrappers
  import opened StorageProtocol
  import opened StorageSafety
  import opened StorageTheorems
  import opened StorageRuns

  // ---------- what a step makes an adapter see ----------

  ghost function VisitCalls(s: State, cursor: nat, id: nat): seq<AdapterCall> {
    if id in s.connections && IsNextVisit(s.connections, cursor, id) then [FirstCleanup(s.connections[id])] else []
  }

  function SweepCalls(s: State, now: int, throwsAt: Option<nat>, id: nat): seq<AdapterCall> {
    if id in SweptBy(s.connections, now, throwsAt) then [FirstCleanup(s.connections[id])] else []
  }

  /** The calls that one step makes on the adapter of connection `id`, or whose return it records. */
  ghost function NewCalls(s: State, step: Step, id: nat): seq<AdapterCall>
    requires IsEnabled(s, step)
  {
    match step
    case CallAcquire(now, throwsAt, _) => SweepCalls(s, now, throwsAt, id)
    case TimerSweep(now, throwsAt) => SweepCalls(s, now, throwsAt, id)
    case CallOperation(op, conn, _) =>
      if conn == id && id in s.connections && !(op.Begin? && s.serial && s.IsShutDown()) then CallsAtStart(op) else []
    case CallClose(conn) => if conn == id && id in s.connections then [FirstCleanup(s.connections[id])] else []
    case FinishOperation(call, ok, _) => if ok && s.pending[call] == Running(id, Begin) then [Began] else []
    case FinishCloseRollback(call, ok) => if ok && s.pending[call].conn == id then [CloseTried] else []
    case FinishSweepRollback(conn) => if conn == id then [CloseTried] else []
    case FinishDrain => VisitCalls(s, 0, id)
    case FinishVisitClose => VisitCalls(s, s.closer.conn, id)
    case FinishVisitRollback => if s.closer.conn == id then [CloseTried] else []
    case _ => []
  }

  /** From `s` to `t` the adapter of `id` sees `calls`, and `close` does not move. */
  ghost predicate Grows(s: State, t: State, id: nat, calls: seq<AdapterCall>)
    requires id in s.history
  {
    id in t.history && t.history[id] == s.history[id] + calls && t.closer == s.closer
  }

  lemma SweepGrowsHistory(s: State, now: int, throwsAt: Option<nat>, id: nat)
    requires IsWellTyped(s) && id in s.history
    ensures Grows(s, Sweep(s, now, throwsAt), id, SweepCalls(s, now, throwsAt, id))
  {
  }

  lemma AcquireGrowsHistory(s: State, now: int, throwsAt: Option<nat>, factoryOk: bool, id: nat)
    requires IsWellTyped(s) && id in s.history && id != s.nextConnId
    ensures Grows(s, Acquire(s, now, throwsAt, factoryOk), id, SweepCalls(s, now, throwsAt, id))
  {
    SweepGrowsHistory(s, now, throwsAt, id);
    var t := Sweep(s, now, throwsAt);
    assert id in DrawTicket(t).history && DrawTicket(t).history[id] == t.history[id];
    assert id in ConnectAtOnce(t, now).history && ConnectAtOnce(t, now).history[id] == t.history[id];
  }

  lemma RecordedGrows(s: State, t: State, conn: nat, id: nat, calls: seq<AdapterCall>)
    requires conn in s.history && id in s.history
    requires t.history == Recorded(s.history, conn, calls) && t.closer == s.closer
    ensures Grows(s, t, id, if conn == id then calls else [])
  {
  }

  lemma StartGrowsHistory(s: State, op: AdapterOp, conn: int, now: int, id: nat)
    requires IsWellTyped(s) && id in s.history
    ensures Grows(s, StartOperation(s, op, conn, now), id,
                  if conn == id && id in s.connections && !(op.Begin? && s.serial && s.IsShutDown())
                  then CallsAtStart(op) else [])
  {
    if conn in s.connections && !(op.Begin? && s.serial && s.IsShutDown()) {
      RecordedGrows(s, StartOperation(s, op, conn, now), conn, id, CallsAtStart(op));
    }
  }

  lemma CloseGrowsHistory(s: State, conn: int, id: nat)
    requires IsWellTyped(s) && id in s.history
    ensures Grows(s, StartClose(s, conn), id,
                  if conn == id && id in s.connections then [FirstCleanup(s.connections[id])] else [])
  {
    if conn in s.connections {
      RecordedGrows(s, StartClose(s, conn), conn, id, [FirstCleanup(s.connections[conn])]);
    }
  }

  lemma RequestGrowsHistory(s: State, step: Step, id: nat)
    requires Inv(s) && IsEnabled(s, step) && IsRequest(step) && id in s.history
    ensures Grows(s, ApplyRequest(s, step), id, NewCalls(s, step, id))
  {
    match step
    case CallMalformed =>
    case CallUnknown =>
    case CallAcquire(now, throwsAt, factoryOk) => AcquireGrowsHistory(s, now, throwsAt, factoryOk, id);
    case CallOperation(op, conn, now) => StartGrowsHistory(s, op, conn, now, id);
    case CallClose(conn) => CloseGrowsHistory(s, conn, id);
  }

  lemma OperationGrowsHistory(s: State, call: nat, ok: bool, now: int, id: nat)
    requires IsWellTyped(s) && call in s.pending && s.pending[call].Running? && id in s.history
    ensures Grows(s, SettleOperation(s, call, ok, now), id, if ok && s.pending[call] == Running(id, Begin) then [Began] else [])
  {
    var Running(conn, op) := s.pending[call];
    RecordedGrows(s, SettleOperation(s, call, ok, now), conn, id, if op.Begin? && ok then [Began] else []);
  }

  lemma CloseRollbackGrowsHistory(s: State, call: nat, ok: bool, id: nat)
    requires IsWellTyped(s) && call in s.pending && s.pending[call].ClosingRollback? && id in s.history
    ensures Grows(s, SettleCloseRollback(s, call, ok), id, if ok && s.pending[call].conn == id then [CloseTried] else [])
  {
    if ok { RecordedGrows(s, SettleCloseRollback(s, call, ok), s.pending[call].conn, id, [CloseTried]); }
  }

  lemma SettlingGrowsHistory(s: State, step: Step, id: nat)
    requires Inv(s) && IsEnabled(s, step) && SettledCall(step).Some? && id in s.history
    ensures Grows(s, SettleCall(s, step), id, NewCalls(s, step, id))
  {
    hide CallsAnsweredOnce, ConnectionsSeparate, TransactionsTracked, IsWellTyped, Tickets;
    match step
    case Grant(_, _) =>
    case FinishOperation(call, ok, now) => OperationGrowsHistory(s, call, ok, now, id);
    case FinishCloseRollback(call, ok) => CloseRollbackGrowsHistory(s, call, ok, id);
    case FinishClose(_) =>
  }

  lemma AdvanceGrowsHistory(s: State, cursor: nat, id: nat)
    requires IsWellTyped(s) && id in s.history
    ensures var t := Advance(s, cursor);
      id in t.history && t.history[id] == s.history[id] + VisitCalls(s, cursor, id)
      && (t.closer == VisitRollback(id) ==> VisitCalls(s, cursor, id) == [RollbackTried])
  {
    if IsNextVisit(s.connections, cursor, id) {
      assert id in Above(s.connections, cursor);
    }
    if Above(s.connections, cursor) != {} {
      var next := NextVisit(s.connections, cursor);
      assert IsNextVisit(s.connections, cursor, id) <==> next == id;
    }
  }

  lemma OwnStepGrowsHistory(s: State, step: Step, id: nat)
    requires Inv(s) && IsEnabled(s, step) && !IsRequest(step) && SettledCall(step).None? && id in s.history
    ensures var t := ApplyOwn(s, step);
      id in t.history && t.history[id] == s.history[id] + NewCalls(s, step, id)
      && (t.closer == VisitRollback(id) ==> s.closer == t.closer || NewCalls(s, step, id) == [RollbackTried])
      && (s.closer == VisitRollback(id) ==> t.closer == s.closer || step.FinishVisitRollback?)
      && (step.FinishVisitRollback? ==> t.closer.VisitClose?)
  {
    hide ConnectionsSeparate, ShutdownOrderly, Tickets;
    match step
    case FinishDrain => AdvanceGrowsHistory(s, 0, id);
    case FinishVisitClose => AdvanceGrowsHistory(s, s.closer.conn, id);
    case _ =>
  }

  // ---------- one step ----------

  /** The rollback that `close` made on its visit to `id` returns, and the adapter is closed. */
  predicate EndsVisit(s: State, step: Step, id: nat) {
    step.FinishVisitRollback? && s.closer == VisitRollback(id)
  }

  /** A begin on `id` returns successfully while `close` awaits the rollback of its visit to `id`. */
  predicate BeginsInVisit(s: State, step: Step, id: nat)
    requires IsEnabled(s, step)
  {
    step.FinishOperation? && step.ok && s.pending[step.call] == Running(id, Begin) && s.closer == VisitRollback(id)
  }

  /** A commit or a rollback is tried on the adapter of `id`. */
  ghost predicate TriesToEnd(s: State, step: Step, id: nat)
    requires IsEnabled(s, step)
  {
    CommitTried in NewCalls(s, step, id) || RollbackTried in NewCalls(s, step, id)
  }

  /** `close` is visiting `id`, whose adapter holds a transaction that nobody has tried to end. */
  ghost predicate IsExposed(s: State, id: nat) {
    s.closer == VisitRollback(id) && id in s.history && InOpenTransaction(s.history[id])
  }

  ghost predicate IsUnclean(s: State, id: nat) {
    id in s.history && !ClosesAreClean(s.history[id])
  }

  lemma AtMostOneCall(s: State, step: Step, id: nat)
    requires IsEnabled(s, step)
    ensures |NewCalls(s, step, id)| <= 1
  {
  }

  /** Only the end of a visit closes an adapter without looking whether it is in a transaction. */
  lemma OtherClosesAreClean(s: State, step: Step, id: nat)
    requires Inv(s) && IsEnabled(s, step) && id in s.history && CloseTried in NewCalls(s, step, id)
    ensures EndsVisit(s, step, id) || !InOpenTransaction(s.history[id])
  {
  }

  lemma StepGrowsHistory(s: State, step: Step, id: nat)
    requires Inv(s) && IsEnabled(s, step) && id in s.history
    ensures var t := Apply(s, step); id in t.history && t.history[id] == s.history[id] + NewCalls(s, step, id)
    ensures Apply(s, step).closer == VisitRollback(id) ==>
      s.closer == VisitRollback(id) || NewCalls(s, step, id) == [RollbackTried]
    ensures s.closer == VisitRollback(id) ==>
      if step.FinishVisitRollback? then !Apply(s, step).closer.VisitRollback? else Apply(s, step).closer == s.closer
  {
    if IsRequest(step) {
      RequestGrowsHistory(s, step, id);
    } else if SettledCall(step).Some? {
      SettlingGrowsHistory(s, step, id);
    } else {
      OwnStepGrowsHistory(s, step, id);
    }
  }

  lemma {:induction false} CloseMakesUnclean(h: seq<AdapterCall>, calls: seq<AdapterCall>)
    requires |calls| <= 1
    ensures !ClosesAreClean(h + calls) <==> !ClosesAreClean(h) || (calls == [CloseTried] && InOpenTransaction(h))
    ensures InOpenTransaction(h + calls) <==>
      calls == [Began] || ((calls == [] || calls == [CloseTried]) && InOpenTransaction(h))
  {
    if calls == [] {
      assert h + calls == h;
    } else {
      var g := h + [calls[0]];
      assert calls == [calls[0]];
      CleanAfterCall(h, calls[0]);
      forall k | 0 <= k < |h| ensures g[..k] == h[..k] && g[k] == h[k] {}
      assert g[..|h|] == h;
    }
  }

  lemma AcquireStartsEmpty(s: State, now: int, throwsAt: Option<nat>, factoryOk: bool, id: nat)
    requires IsWellTyped(s) && id !in s.history
    ensures var t := Acquire(s, now, throwsAt, factoryOk); id in t.history ==> t.history[id] == []
  {
    assert id !in Sweep(s, now, throwsAt).history;
  }

  lemma RequestStartsEmpty(s: State, step: Step, id: nat)
    requires IsEnabled(s, step) && IsRequest(step) && id !in s.history
    ensures var t := ApplyRequest(s, step); id in t.history ==> t.history[id] == []
  {
    match step
    case CallAcquire(now, throwsAt, factoryOk) => AcquireStartsEmpty(s, now, throwsAt, factoryOk, id);
    case _ => assert id !in ApplyRequest(s, step).history;
  }

  lemma NewIdsStartEmpty(s: State, step: Step, id: nat)
    requires Inv(s) && IsEnabled(s, step) && id !in s.history
    ensures var t := Apply(s, step); id in t.history ==> t.history[id] == []
  {
    hide CallsAnsweredOnce, ConnectionsSeparate, IdsNeverReused, Tickets, TransactionsTracked, ShutdownOrderly;
    if IsRequest(step) {
      RequestStartsEmpty(s, step, id);
    } else if SettledCall(step).Some? {
      assert id !in SettleCall(s, step).history;
    } else {
      assert id !in ApplyOwn(s, step).history;
    }
  }

  lemma WhatMakesUnclean(s: State, step: Step, id: nat)
    requires Inv(s) && IsEnabled(s, step)
    ensures IsUnclean(Apply(s, step), id) <==> IsUnclean(s, id) || (IsExposed(s, id) && EndsVisit(s, step, id))
  {
    if id in s.history {
      StepGrowsHistory(s, step, id);
      AtMostOneCall(s, step, id);
      CloseMakesUnclean(s.history[id], NewCalls(s, step, id));
      if NewCalls(s, step, id) == [CloseTried] { OtherClosesAreClean(s, step, id); }
    } else {
      NewIdsStartEmpty(s, step, id);
    }
  }

  lemma VisitedStaysExposed(s: State, step: Step, id: nat)
    requires Inv(s) && IsEnabled(s, step) && id in s.history
    ensures IsExposed(Apply(s, step), id) <==>
      && s.closer == VisitRollback(id) && !EndsVisit(s, step, id)
      && InOpenTransaction(s.history[id] + NewCalls(s, step, id))
  {
    StepGrowsHistory(s, step, id);
    CloseMakesUnclean(s.history[id], [RollbackTried]);
  }

  lemma BeganIsABegin(s: State, step: Step, id: nat)
    requires Inv(s) && IsEnabled(s, step) && id in s.history && s.closer == VisitRollback(id)
    ensures NewCalls(s, step, id) == [Began] <==> BeginsInVisit(s, step, id)
  {
  }

  lemma OpenAfterStep(s: State, step: Step, id: nat)
    requires Inv(s) && IsEnabled(s, step) && id in s.history && s.closer == VisitRollback(id)
    ensures InOpenTransaction(s.history[id] + NewCalls(s, step, id)) <==>
      BeginsInVisit(s, step, id) || (InOpenTransaction(s.history[id]) && !TriesToEnd(s, step, id))
  {
    hide ConnectionsSeparate, IdsNeverReused, ShutdownOrderly, IsWellTyped, InOpenTransaction, Tickets;
    AtMostOneCall(s, step, id);
    BeganIsABegin(s, step, id);
    CloseMakesUnclean(s.history[id], NewCalls(s, step, id));
    var calls := NewCalls(s, step, id);
    assert |calls| == 1 ==> calls == [calls[0]];
  }

  lemma NewIdsAreNotExposed(s: State, step: Step, id: nat)
    requires Inv(s) && IsEnabled(s, step) && id !in s.history
    ensures !IsExposed(s, id) && !IsExposed(Apply(s, step), id) && !BeginsInVisit(s, step, id)
  {
    NewIdsStartEmpty(s, step, id);
  }

  lemma WhatExposes(s: State, step: Step, id: nat)
    requires Inv(s) && IsEnabled(s, step)
    ensures IsExposed(Apply(s, step), id) <==>
      BeginsInVisit(s, step, id) || (IsExposed(s, id) && !EndsVisit(s, step, id) && !TriesToEnd(s, step, id))
  {
    if id !in s.history {
      NewIdsAreNotExposed(s, step, id);
    } else {
      VisitedStaysExposed(s, step, id);
      if s.closer == VisitRollback(id) { OpenAfterStep(s, step, id); }
    }
  }

  // ---------- whole runs ----------

  /** From `s` on, the visit to `id` ends before anybody tries to end the transaction of its adapter. */
  ghost predicate VisitEndsFirst(s: State, steps: seq<Step>, id: nat)
    requires IsRun(s, steps)
    decreases |steps|
  {
    steps != [] &&
    (EndsVisit(s, steps[0], id) || (!TriesToEnd(s, steps[0], id) && VisitEndsFirst(Apply(s, steps[0]), steps[1..], id)))
  }

  /** Some begin on `id` returns during the visit to `id` and is still open when the visit ends. */
  ghost predicate SomeBeginIsClosedOver(s: State, steps: seq<Step>, id: nat)
    requires IsRun(s, steps)
    decreases |steps|
  {
    steps != [] &&
    var t := Apply(s, steps[0]);
    (BeginsInVisit(s, steps[0], id) && VisitEndsFirst(t, steps[1..], id)) || SomeBeginIsClosedOver(t, steps[1..], id)
  }

  lemma {:induction false} WhatARunLeavesUnclean(s: State, steps: seq<Step>, id: nat)
    requires Inv(s) && IsRun(s, steps)
    ensures IsUnclean(RunAll(s, steps), id) <==>
      || IsUnclean(s, id)
      || (IsExposed(s, id) && VisitEndsFirst(s, steps, id))
      || SomeBeginIsClosedOver(s, steps, id)
    decreases |steps|
  {
    if steps != [] {
      StepKeepsInv(s, steps[0]);
      WhatARunLeavesUnclean(Apply(s, steps[0]), steps[1..], id);
      WhatMakesUnclean(s, steps[0], id);
      WhatExposes(s, steps[0], id);
    }
  }

  /**
   In a run of either kind of manager an adapter is closed over a transaction nobody tried to end
   exactly if a begin on it returns while `close` awaits its rollback, and neither a commit nor a
   rollback is tried on it before that rollback returns.
   */
  lemma ClosedOverExactly(serial: bool, steps: seq<Step>, id: nat)
    requires IsRun(Init(serial), steps) && id in RunAll(Init(serial), steps).history
    ensures !ClosesAreClean(RunAll(Init(serial), steps).history[id]) <==> SomeBeginIsClosedOver(Init(serial), steps, id)
  {
    InitInv(serial);
    WhatARunLeavesUnclean(Init(serial), steps, id);
  }

  // ---------- a run in which it happens ----------

  /** A pool whose only connection is idle inside a transaction. */
  predicate IsOneOpenConnection(s: State, id: nat) {
    && !s.serial && s.closer.NotClosing? && s.pending == map[] && s.cleanups == map[]
    && s.connections.Keys == {id} && s.connections[id].inTransaction
  }

  lemma ShutdownDrains(s: State, id: nat)
    requires Inv(s) && IsOneOpenConnection(s, id)
    ensures IsEnabled(s, StartShutdown)
    ensures var t := Apply(s, StartShutdown);
      t.closer == Draining({}, {}) && t.pending == map[] && t.cleanups == map[]
      && t.connections.Keys == {id} && t.connections[id].inTransaction
  {
    InvIsWellTyped(s);
  }

  lemma DrainVisits(s: State, id: nat)
    requires Inv(s) && s.closer == Draining({}, {}) && s.pending == map[] && s.cleanups == map[]
    requires s.connections.Keys == {id} && s.connections[id].inTransaction
    ensures IsEnabled(s, FinishDrain)
    ensures var t := Apply(s, FinishDrain); t.closer == VisitRollback(id) && id in t.connections && t.pending == map[]
  {
    InvIsWellTyped(s);
    assert id in Above(s.connections, 0) && NextVisit(s.connections, 0) == id;
  }

  lemma BeginIsAdmitted(s: State, id: nat)
    requires Inv(s) && !s.serial && s.closer == VisitRollback(id) && id in s.connections && s.pending == map[]
    ensures IsEnabled(s, CallOperation(Begin, id, 0))
    ensures var t := Apply(s, CallOperation(Begin, id, 0));
      t.closer == VisitRollback(id) && t.lateBegin && t.pending == map[s.nextCall := Running(id, Begin)]
  {
    InvIsWellTyped(s);
  }

  lemma BeginSucceeds(s: State, id: nat, call: nat)
    requires Inv(s) && s.closer == VisitRollback(id) && s.lateBegin && s.pending == map[call := Running(id, Begin)]
    ensures IsEnabled(s, FinishOperation(call, true, 0))
    ensures var t := Apply(s, FinishOperation(call, true, 0));
      t.closer == VisitRollback(id) && t.lateBegin && id in t.history && InOpenTransaction(t.history[id])
  {
    InvIsWellTyped(s);
    CleanAfterCall(s.history[id], Began);
  }

  lemma VisitEndsInClose(s: State, id: nat)
    requires Inv(s) && s.closer == VisitRollback(id) && s.lateBegin && InOpenTransaction(s.history[id])
    ensures IsEnabled(s, FinishVisitRollback)
    ensures var t := Apply(s, FinishVisitRollback); t.lateBegin && id in t.history && !ClosesAreClean(t.history[id])
  {
    InvIsWellTyped(s);
    var h := s.history[id];
    assert (h + [CloseTried])[..|h|] == h;
  }

  /** In a pool, a begin that arrives while `close` awaits the rollback of its connection is closed over. */
  lemma LateBeginIsClosedOver(s: State, id: nat) returns (steps: seq<Step>)
    requires Inv(s) && IsOneOpenConnection(s, id)
    ensures IsRun(s, steps)
    ensures var t := RunAll(s, steps);
      t.lateBegin && id in t.history && !ClosesAreClean(t.history[id])
  {
    ShutdownDrains(s, id);
    var s1 := ExtendRun(s, [], StartShutdown);
    DrainVisits(s1, id);
    steps := [] + [StartShutdown];
    var s2 := ExtendRun(s, steps, FinishDrain);
    BeginIsAdmitted(s2, id);
    steps := steps + [FinishDrain];
    var s3 := ExtendRun(s, steps, CallOperation(Begin, id, 0));
    BeginSucceeds(s3, id, s2.nextCall);
    steps := steps + [CallOperation(Begin, id, 0)];
    var s4 := ExtendRun(s, steps, FinishOperation(s2.nextCall, true, 0));
    VisitEndsInClose(s4, id);
    steps := steps + [FinishOperation(s2.nextCall, true, 0)];
    var _ := ExtendRun(s, steps, FinishVisitRollback);
    steps := steps + [FinishVisitRollback];
  }

  lemma PoolConnects() returns (s: State)
    ensures IsEnabled(Init(false), CallAcquire(0, None, true)) && s == Apply(Init(false), CallAcquire(0, None, true))
    ensures IsIdle(s) && !s.serial && s.connections == map[1 := TrackedAdapter(0, false, false, None)] && 1 in s.history
  {
    InitInv(false);
    InvIsWellTyped(Init(false));
    NothingIsSwept(Init(false));
    StepKeepsInv(Init(false), CallAcquire(0, None, true));
    s := Apply(Init(false), CallAcquire(0, None, true));
    assert s == ConnectAtOnce(Init(false), 0);
  }

  lemma OneStep(s: State, step: Step)
    requires IsEnabled(s, step)
    ensures IsRun(s, [step]) && RunAll(s, [step]) == Apply(s, step)
  {
    assert [step][1..] == [] && IsRun(Apply(s, step), []);
  }

  lemma PooledBegins(s: State) returns (t: State)
    requires IsIdle(s) && !s.serial && s.connections == map[1 := TrackedAdapter(0, false, false, None)] && 1 in s.history
    ensures IsRun(s, BeginRun(s, 1, true)) && t == RunAll(s, BeginRun(s, 1, true))
    ensures Inv(t) && IsOneOpenConnection(t, 1)
  {
    t := BeginOne(s, 1, true);
  }

  lemma FreshPoolBegins() returns (steps: seq<Step>, t: State)
    ensures IsRun(Init(false), steps) && RunAll(Init(false), steps) == t
    ensures Inv(t) && IsOneOpenConnection(t, 1)
  {
    var s := PoolConnects();
    OneStep(Init(false), CallAcquire(0, None, true));
    t := PooledBegins(s);
    var rest := BeginRun(s, 1, true);
    RunsConcatenate(Init(false), [CallAcquire(0, None, true)], rest);
    steps := [CallAcquire(0, None, true)] + rest;
  }

  /** The whole run, from a fresh pool on. */
  lemma FreshPoolClosesOver() returns (steps: seq<Step>)
    ensures IsRun(Init(false), steps) && 1 in RunAll(Init(false), steps).history
    ensures !ClosesAreClean(RunAll(Init(false), steps).history[1])
  {
    var t;
    steps, t := FreshPoolBegins();
    var rest := LateBeginIsClosedOver(t, 1);
    RunsConcatenate(Init(false), steps, rest);
    steps := steps + rest;
  }
}
