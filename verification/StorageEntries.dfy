/**
 What the table says of a connection, over whole runs: an entry is busy while an operation is in
 flight, its transaction flag is that of the adapter, and its time is that of its last use. So a
 sweep takes exactly the connections that have gone unused for too long.
 */
module StorageEntries {
  import opened Wrappers
  import opened StorageProtocol
  import opened StorageTickets
  import opened StorageSafety
  import opened StorageTheorems
  import opened StorageLateBegins
  import opened StorageAnswers

  /** Does the step start or end an operation on connection `id`? */
  predicate Touches(s: State, step: Step, id: nat) {
    || (step.CallOperation? && step.conn == id)
    || (step.FinishOperation? && step.call in s.pending && s.pending[step.call].conn == id)
  }

  predicate SameUse(e: TrackedAdapter, f: TrackedAdapter) {
    f.lastUsed == e.lastUsed && f.isBusy == e.isBusy && f.inTransaction == e.inTransaction
  }

  /** `close` has finished waiting for the calls in flight. */
  predicate IsVisiting(s: State) { !s.closer.NotClosing? && !s.closer.Draining? }

  // ---------- steps that do not touch a connection ----------

  /** The entry of `id` is as it was, or that of a connection handed out by this step at `now`. */
  predicate IsKeptEntry(s: State, t: State, id: nat, step: Step) {
    id in t.connections ==>
      if id in s.connections then SameUse(s.connections[id], t.connections[id])
      else DatesNew(s, step, id) && SameUse(TrackedAdapter(step.now, false, false, None), t.connections[id])
  }

  /** The step hands out connection `id`. */
  predicate DatesNew(s: State, step: Step, id: nat) {
    || (step.CallAcquire? && !s.serial && id == s.nextConnId)
    || (step.Grant? && step.call in s.pending && s.pending[step.call].conn == id)
  }

  /** Nothing new in the table, and what is left of `id` is as it was. */
  predicate IsKept(connections: Table, later: Table, id: nat) {
    id in later ==> id in connections && SameUse(connections[id], later[id])
  }

  lemma SweepKeepsEntry(s: State, now: int, throwsAt: Option<nat>, id: nat)
    requires IsWellTyped(s)
    ensures IsKept(s.connections, Sweep(s, now, throwsAt).connections, id)
  {
    hide IsWellTyped, IsStale, LocksOf, SweptCleanups, SweptHistory;
  }

  lemma AdvanceKeepsEntry(s: State, cursor: nat, id: nat)
    requires IsWellTyped(s)
    ensures IsKept(s.connections, Advance(s, cursor).connections, id)
  {
    assert s.connections.Keys <= s.history.Keys;
    hide IsWellTyped, Visit, IsNextVisit, SameUse;
    if Above(s.connections, cursor) != {} {
      VisitKeepsTable(s, NextVisit(s.connections, cursor));
    }
    SameIsKept(s.connections, id);
  }

  lemma VisitKeepsTable(s: State, id: nat)
    requires id in s.connections && id in s.history
    ensures Visit(s, id).connections == s.connections
  {
    hide Recorded, FirstCleanup;
  }

  lemma SameIsKept(connections: Table, id: nat)
    ensures IsKept(connections, connections, id) && IsKept(connections, map[], id)
  {
  }

  lemma OperationKeepsEntry(s: State, op: AdapterOp, conn: int, now: int, id: nat)
    requires IsWellTyped(s) && conn != id
    ensures IsKept(s.connections, StartOperation(s, op, conn, now).connections, id)
  {
    assert conn in s.connections ==> conn in s.history;
    hide IsWellTyped, Recorded, CallsAtStart;
  }

  lemma CloseKeepsEntry(s: State, conn: int, id: nat)
    requires IsWellTyped(s)
    ensures IsKept(s.connections, StartClose(s, conn).connections, id)
  {
    hide IsWellTyped, Recorded, FirstCleanup;
  }

  lemma AcquireKeepsEntry(s: State, now: int, throwsAt: Option<nat>, factoryOk: bool, id: nat)
    requires IsWellTyped(s) && s.nextConnId !in s.connections
    ensures IsKeptEntry(s, Acquire(s, now, throwsAt, factoryOk), id, CallAcquire(now, throwsAt, factoryOk))
  {
    assert s.connections.Keys <= s.history.Keys;
    hide IsWellTyped, IsStale, LocksOf, SweptBy, SweptCleanups, SweptHistory, IsKept;
    SweepKeepsEntry(s, now, throwsAt, id);
    KeptInTable(s.connections, Sweep(s, now, throwsAt).connections, id);
  }

  lemma KeptInTable(connections: Table, later: Table, id: nat)
    requires IsKept(connections, later, id)
    ensures id in later ==> id in connections && SameUse(connections[id], later[id])
  {
  }

  lemma KeptIsKeptEntry(s: State, t: State, id: nat, step: Step)
    requires IsKept(s.connections, t.connections, id)
    ensures IsKeptEntry(s, t, id, step)
  {
  }

  lemma RequestKeepsEntry(s: State, step: Step, id: nat)
    requires IsEnabled(s, step) && IsRequest(step) && !Touches(s, step, id)
    requires s.nextConnId !in s.connections
    ensures IsKeptEntry(s, ApplyRequest(s, step), id, step)
  {
    hide IsWellTyped, Acquire, StartOperation, StartClose, IsLocal, IsQuiet, CanThrowAt, IsKept, SameUse;
    match step
    case CallMalformed => assert AnswerNew(s, Failure(JsonErr)).connections == s.connections; UnchangedIsKept(s, ApplyRequest(s, step), id, step);
    case CallUnknown => UnchangedIsKept(s, ApplyRequest(s, step), id, step);
    case CallAcquire(now, throwsAt, factoryOk) => AcquireKeepsEntry(s, now, throwsAt, factoryOk, id);
    case CallOperation(op, conn, now) => OperationKeepsEntry(s, op, conn, now, id); KeptIsKeptEntry(s, ApplyRequest(s, step), id, step);
    case CallClose(conn) => CloseKeepsEntry(s, conn, id); KeptIsKeptEntry(s, ApplyRequest(s, step), id, step);
  }

  lemma UnchangedIsKept(s: State, t: State, id: nat, step: Step)
    requires t.connections == s.connections
    ensures IsKeptEntry(s, t, id, step)
  {
  }

  lemma OperationEndKeepsEntry(s: State, call: nat, ok: bool, now: int, id: nat)
    requires IsWellTyped(s) && call in s.pending && s.pending[call].Running? && s.pending[call].conn != id
    ensures IsKept(s.connections, SettleOperation(s, call, ok, now).connections, id)
  {
    hide IsWellTyped, Recorded, Release, AfterOperation;
  }

  lemma CloseRollbackKeepsEntry(s: State, call: nat, ok: bool, id: nat)
    requires IsWellTyped(s) && call in s.pending && s.pending[call].ClosingRollback?
    ensures IsKept(s.connections, SettleCloseRollback(s, call, ok).connections, id)
  {
    hide IsWellTyped, Recorded, Release;
  }

  lemma GrantKeepsEntry(s: State, call: nat, now: int, id: nat)
    requires IsWellTyped(s) && CanGrant(s, call) && s.pending[call].conn !in s.connections
    ensures IsKeptEntry(s, GrantTicket(s, call, now), id, Grant(call, now))
  {
    hide IsWellTyped;
  }

  lemma SettlingKeepsEntry(s: State, step: Step, id: nat)
    requires IsEnabled(s, step) && SettledCall(step).Some? && !Touches(s, step, id)
    requires step.Grant? ==> s.pending[step.call].conn !in s.connections
    ensures IsKeptEntry(s, SettleCall(s, step), id, step)
  {
    hide IsWellTyped, GrantTicket, SettleOperation, SettleCloseRollback, IsLocal, IsKept, SameUse, IsKeptEntry;
    match step
    case Grant(call, now) => GrantKeepsEntry(s, call, now, id);
    case FinishOperation(call, ok, now) => OperationEndKeepsEntry(s, call, ok, now, id); KeptIsKeptEntry(s, SettleCall(s, step), id, step);
    case FinishCloseRollback(call, ok) => CloseRollbackKeepsEntry(s, call, ok, id); KeptIsKeptEntry(s, SettleCall(s, step), id, step);
    case FinishClose(_) => UnchangedIsKept(s, SettleCall(s, step), id, step);
  }

  lemma OwnStepKeepsEntry(s: State, step: Step, id: nat)
    requires IsEnabled(s, step) && !IsRequest(step) && SettledCall(step).None?
    ensures IsKeptEntry(s, ApplyOwn(s, step), id, step)
  {
    hide IsWellTyped, Sweep, Advance, IsLocal, CanThrowAt, IsKept, LocksOf, IsKeptEntry;
    match step
    case TimerSweep(now, throwsAt) => SweepKeepsEntry(s, now, throwsAt, id); KeptIsKeptEntry(s, ApplyOwn(s, step), id, step);
    case StartShutdown => BeginShutdownKeepsEntry(s, id); KeptIsKeptEntry(s, ApplyOwn(s, step), id, step);
    case FinishDrain => AdvanceKeepsEntry(s, 0, id); KeptIsKeptEntry(s, ApplyOwn(s, step), id, step);
    case FinishVisitClose => AdvanceKeepsEntry(s, s.closer.conn, id); KeptIsKeptEntry(s, ApplyOwn(s, step), id, step);
    case FinishSweepRollback(_) => UnchangedIsKept(s, ApplyOwn(s, step), id, step);
    case FinishSweepClose(_) => UnchangedIsKept(s, ApplyOwn(s, step), id, step);
    case FinishVisitRollback => UnchangedIsKept(s, ApplyOwn(s, step), id, step);
    case _ =>
  }

  lemma BeginShutdownKeepsEntry(s: State, id: nat)
    ensures IsKept(s.connections, BeginShutdown(s).connections, id)
  {
    hide LocksOf;
  }

  lemma StepKeepsEntry(s: State, step: Step, id: nat)
    requires Inv(s) && IsEnabled(s, step) && !Touches(s, step, id)
    ensures IsKeptEntry(s, Apply(s, step), id, step)
  {
    hide CallsAnsweredOnce, IdsNeverReused, TicketsKept, TransactionsTracked, ShutdownOrderly, IsWellTyped, IsKeptEntry,
         ApplyRequest, SettleCall, ApplyOwn, IsLocal;
    if IsRequest(step) {
      RequestKeepsEntry(s, step, id);
    } else if SettledCall(step).Some? {
      assert step.Grant? ==> s.pending[step.call].conn !in s.connections;
      SettlingKeepsEntry(s, step, id);
    } else {
      OwnStepKeepsEntry(s, step, id);
    }
  }

  // ---------- entries tell the truth ----------

  predicate IsEnding(p: Pending) { p.Running? && (p.op.Commit? || p.op.Rollback?) }

  ghost predicate IsInUse(pending: Calls, id: nat) {
    exists c :: c in pending && pending[c].conn == id
  }

  ghost predicate IsBeingEnded(pending: Calls, id: nat) {
    exists c :: c in pending && pending[c].conn == id && IsEnding(pending[c])
  }

  ghost predicate EntryTrue(s: State, id: nat) {
    id in s.connections && id in s.history ==>
      && (s.connections[id].isBusy ==> IsInUse(s.pending, id))
      && (s.connections[id].inTransaction && !IsVisiting(s) ==>
           InOpenTransaction(s.history[id]) || IsBeingEnded(s.pending, id))
  }

  lemma StartTouches(s: State, op: AdapterOp, id: nat, now: int)
    requires IsWellTyped(s)
    ensures var t := StartOperation(s, op, id, now);
      && (id in t.connections <==> id in s.connections)
      && (id in s.connections ==>
            if op.Begin? && s.serial && s.IsShutDown() then t.connections == s.connections && t.pending == s.pending
            else t.connections[id] == s.connections[id].(lastUsed := now, isBusy := true)
                 && t.pending == s.pending[s.nextCall := Running(id, op)])
  {
    if id in s.connections { RunTouches(s, op, id, now); }
    hide IsWellTyped, RunOperation;
  }

  lemma RunTouches(s: State, op: AdapterOp, id: nat, now: int)
    requires id in s.connections && id in s.history
    ensures var t := RunOperation(s, op, id, now);
      && t.connections == s.connections[id := s.connections[id].(lastUsed := now, isBusy := true)]
      && t.pending == s.pending[s.nextCall := Running(id, op)]
  {
    hide Recorded;
  }

  lemma EndTouches(s: State, call: nat, ok: bool, now: int)
    requires IsWellTyped(s) && call in s.pending && s.pending[call].Running?
    ensures var t := SettleOperation(s, call, ok, now); var Running(id, op) := s.pending[call];
      && (id in t.connections <==> id in s.connections)
      && (id in s.connections ==>
            && t.connections[id].lastUsed == now && !t.connections[id].isBusy
            && t.connections[id].inTransaction ==
               (if op.Begin? && ok then true else if op.Commit? || op.Rollback? then false else s.connections[id].inTransaction))
  {
    hide IsWellTyped, Recorded, Release;
  }

  lemma VisitingStays(s: State, step: Step)
    requires IsEnabled(s, step) && IsVisiting(s)
    ensures IsVisiting(Apply(s, step))
  {
    hide ApplyRequest, SettleCall, IsLocal, IsWellTyped;
    if IsRequest(step) {
      RequestKeepsCloser(s, step);
    } else if SettledCall(step).Some? {
      SettlingKeepsCloser(s, step);
    } else {
      hide Recorded, Above, IsNextVisit, Sweep;
    }
  }

  /** As long as its entry stays and `close` is not yet visiting, only operations reach an adapter. */
  lemma SweptIsGone(s: State, now: int, throwsAt: Option<nat>, id: nat)
    requires IsWellTyped(s) && id in Sweep(s, now, throwsAt).connections
    ensures SweepCalls(s, now, throwsAt, id) == []
  {
    hide IsWellTyped, IsStale, LocksOf, SweptCleanups, SweptHistory;
  }

  lemma AcquireLeavesAlone(s: State, now: int, throwsAt: Option<nat>, factoryOk: bool, id: nat)
    requires IsWellTyped(s) && id in s.connections && id != s.nextConnId
    requires id in Acquire(s, now, throwsAt, factoryOk).connections
    ensures SweepCalls(s, now, throwsAt, id) == []
  {
    assert s.connections.Keys <= s.history.Keys;
    hide IsWellTyped, SweepEntries, SweptBy;
    var t := Sweep(s, now, throwsAt);
    assert id in t.connections;
    SweptIsGone(s, now, throwsAt, id);
  }

  lemma VisitsAreSeen(s: State, cursor: nat)
    requires IsWellTyped(s)
    ensures IsVisiting(Advance(s, cursor))
  {
    hide IsWellTyped, Recorded, IsNextVisit;
  }

  lemma UntouchedSeesNothing(s: State, step: Step, id: nat)
    requires Inv(s) && IsEnabled(s, step) && !Touches(s, step, id)
    requires id in s.connections && id in Apply(s, step).connections && !IsVisiting(Apply(s, step))
    ensures NewCalls(s, step, id) == []
  {
    hide CallsAnsweredOnce, IdsNeverReused, TicketsKept, TransactionsTracked, ShutdownOrderly, IsLocal, IsWellTyped,
         ApplyRequest, SettleCall, ApplyOwn, SweepCalls, VisitCalls;
    if IsRequest(step) {
      UntouchedByRequest(s, step, id);
    } else if SettledCall(step).Some? {
      assert step.FinishCloseRollback? ==> s.pending[step.call].conn !in s.connections;
    } else {
      UntouchedByOwn(s, step, id);
    }
  }

  lemma UntouchedByRequest(s: State, step: Step, id: nat)
    requires IsEnabled(s, step) && IsRequest(step) && !Touches(s, step, id) && s.nextConnId !in s.connections
    requires id in s.connections && id in ApplyRequest(s, step).connections
    ensures NewCalls(s, step, id) == []
  {
    hide IsLocal, IsWellTyped, Acquire, SweepCalls, StartOperation, StartClose, CanThrowAt;
    match step
    case CallAcquire(now, throwsAt, factoryOk) => AcquireLeavesAlone(s, now, throwsAt, factoryOk, id);
    case CallClose(conn) => ClosedIsGone(s, conn);
    case _ =>
  }

  lemma UntouchedByOwn(s: State, step: Step, id: nat)
    requires IsEnabled(s, step) && !IsRequest(step) && SettledCall(step).None?
    requires s.cleanups.Keys !! s.connections.Keys
    requires id in s.connections && id in ApplyOwn(s, step).connections && !IsVisiting(ApplyOwn(s, step))
    ensures NewCalls(s, step, id) == []
  {
    hide IsLocal, IsWellTyped, Sweep, SweepCalls, Advance, VisitCalls, CanThrowAt, BeginShutdown, Recorded;
    match step
    case TimerSweep(now, throwsAt) => SweptIsGone(s, now, throwsAt, id);
    case FinishDrain => VisitsAreSeen(s, 0);
    case FinishVisitClose => VisitsAreSeen(s, s.closer.conn);
    case _ =>
  }

  lemma ClosedIsGone(s: State, conn: int)
    requires IsWellTyped(s)
    ensures conn !in StartClose(s, conn).connections
  {
    hide IsWellTyped, Recorded, FirstCleanup;
  }

  /** A call on a listed connection goes on unless the step touches that connection. */
  lemma UseGoesOn(s: State, step: Step, id: nat)
    requires Inv(s) && IsEnabled(s, step) && !Touches(s, step, id) && id in s.connections
    ensures IsInUse(s.pending, id) ==> IsInUse(Apply(s, step).pending, id)
    ensures IsBeingEnded(s.pending, id) ==> IsBeingEnded(Apply(s, step).pending, id)
  {
    hide IdsNeverReused, TicketsKept, TransactionsTracked, ShutdownOrderly, IsWellTyped, ApplyRequest, SettleCall, ApplyOwn;
    var t := Apply(s, step);
    forall c | c in s.pending && s.pending[c].conn == id ensures c in t.pending && t.pending[c] == s.pending[c] {
      assert s.pending[c].Running?;
      assert SettledCall(step) != Some(c);
      assert IsUntouched(s, t, c);
    }
  }

  lemma SameHistory(s: State, step: Step, id: nat)
    requires Inv(s) && IsEnabled(s, step) && id in s.history && NewCalls(s, step, id) == []
    ensures var t := Apply(s, step); id in t.history && t.history[id] == s.history[id]
  {
    hide Inv, Apply, IsEnabled;
    StepGrowsHistory(s, step, id);
    assert s.history[id] + [] == s.history[id];
  }

  lemma UntouchedStaysTrue(s: State, step: Step, id: nat)
    requires Inv(s) && IsEnabled(s, step) && EntryTrue(s, id) && !Touches(s, step, id)
    ensures EntryTrue(Apply(s, step), id)
  {
    var t := Apply(s, step);
    assert id in s.connections ==> id in s.history;
    hide Inv, Apply, IsEnabled, IsInUse, IsBeingEnded, NewCalls;
    StepKeepsEntry(s, step, id);
    if id in t.connections && id in s.connections {
      UseGoesOn(s, step, id);
      if IsVisiting(s) { VisitingStays(s, step); }
      if !IsVisiting(t) {
        UntouchedSeesNothing(s, step, id);
        SameHistory(s, step, id);
      }
    }
  }

  lemma StartStaysTrue(s: State, step: Step, id: nat)
    requires Inv(s) && IsEnabled(s, step) && EntryTrue(s, id) && step.CallOperation? && step.conn == id
    ensures EntryTrue(Apply(s, step), id)
  {
    hide CallsAnsweredOnce, IdsNeverReused, TicketsKept, TransactionsTracked, ShutdownOrderly, IsWellTyped, StartOperation;
    var t := Apply(s, step);
    assert t == StartOperation(s, step.op, id, step.now);
    StartTouches(s, step.op, id, step.now);
    if id in s.connections {
      if IsVisiting(s) { VisitingStays(s, step); }
      if NewCalls(s, step, id) == [] { SameHistory(s, step, id); }
      if t.connections != s.connections { assert t.pending[s.nextCall].conn == id; }
    }
  }

  lemma EndStaysTrue(s: State, step: Step, id: nat)
    requires Inv(s) && IsEnabled(s, step) && EntryTrue(s, id)
    requires step.FinishOperation? && step.call in s.pending && s.pending[step.call].conn == id
    ensures EntryTrue(Apply(s, step), id)
  {
    hide CallsAnsweredOnce, IdsNeverReused, TicketsKept, TransactionsTracked, ShutdownOrderly, IsWellTyped, SettleOperation;
    var t := Apply(s, step);
    EndTouches(s, step.call, step.ok, step.now);
    if id in s.connections {
      if IsVisiting(s) { VisitingStays(s, step); }
      if NewCalls(s, step, id) == [] { SameHistory(s, step, id); } else { BegunIsOpen(s, step, id); }
    }
  }

  lemma BegunIsOpen(s: State, step: Step, id: nat)
    requires Inv(s) && IsEnabled(s, step) && id in s.history && NewCalls(s, step, id) == [Began]
    ensures var t := Apply(s, step); id in t.history && InOpenTransaction(t.history[id])
  {
    hide Inv, Apply, IsEnabled, NewCalls;
    StepGrowsHistory(s, step, id);
    CleanAfterCall(s.history[id], Began);
  }

  lemma StepStaysTrue(s: State, step: Step, id: nat)
    requires Inv(s) && IsEnabled(s, step) && EntryTrue(s, id)
    ensures EntryTrue(Apply(s, step), id)
  {
    hide Inv, Apply, IsEnabled, EntryTrue;
    if !Touches(s, step, id) {
      UntouchedStaysTrue(s, step, id);
    } else if step.CallOperation? {
      StartStaysTrue(s, step, id);
    } else {
      EndStaysTrue(s, step, id);
    }
  }

  lemma {:induction false} RunStaysTrue(s: State, steps: seq<Step>, id: nat)
    requires Inv(s) && IsRun(s, steps) && EntryTrue(s, id)
    ensures EntryTrue(RunAll(s, steps), id)
    decreases |steps|
  {
    hide Inv, Apply, IsEnabled, EntryTrue;
    if steps != [] {
      StepKeepsInv(s, steps[0]);
      StepStaysTrue(s, steps[0], id);
      RunStaysTrue(Apply(s, steps[0]), steps[1..], id);
    }
  }

  /**
   Over all runs a listed connection is busy exactly while a call on it is in flight, and while no
   call is in flight and `close` is not yet visiting, it is marked as inside a transaction exactly
   when its adapter holds a begun one that nobody has tried to end.
   */
  lemma EntriesTellTheTruth(serial: bool, steps: seq<Step>, id: nat)
    requires IsRun(Init(serial), steps) && id in RunAll(Init(serial), steps).connections
    ensures var s := RunAll(Init(serial), steps); var e := s.connections[id];
      && id in s.history
      && (e.isBusy <==> IsInUse(s.pending, id))
      && (!e.isBusy && !IsVisiting(s) ==> (e.inTransaction <==> InOpenTransaction(s.history[id])))
  {
    hide Inv, Apply, EntryTrue, IsEnabled, IsRun, RunAll, InOpenTransaction, IsInUse, IsVisiting;
    Reachable(serial, steps);
    StartIsTrue(serial, id);
    RunStaysTrue(Init(serial), steps, id);
    TruthOf(RunAll(Init(serial), steps), id);
  }

  lemma StartIsTrue(serial: bool, id: nat)
    ensures Inv(Init(serial)) && EntryTrue(Init(serial), id)
  {
    InitInv(serial);
  }

  lemma TruthOf(s: State, id: nat)
    requires Inv(s) && EntryTrue(s, id) && id in s.connections
    ensures var e := s.connections[id];
      && id in s.history
      && (e.isBusy <==> IsInUse(s.pending, id))
      && (!e.isBusy && !IsVisiting(s) ==> (e.inTransaction <==> InOpenTransaction(s.history[id])))
  {
    hide CallsAnsweredOnce, IdsNeverReused, TicketsKept, ShutdownOrderly;
  }

  // ---------- what a sweep takes ----------

  /** The step hands connection `id` out, or ends an operation on it. */
  predicate Dates(s: State, step: Step, id: nat) {
    || DatesNew(s, step, id)
    || (step.FinishOperation? && step.call in s.pending && s.pending[step.call].conn == id)
  }

  predicate IsOperationOn(step: Step, id: nat) { step.CallOperation? && step.conn == id }

  lemma DatedEntry(s: State, step: Step, id: nat)
    requires Inv(s) && IsEnabled(s, step) && Dates(s, step, id)
    ensures var t := Apply(s, step);
      id in t.connections ==> t.connections[id].lastUsed == step.now && !t.connections[id].isBusy
  {
    hide CallsAnsweredOnce, IdsNeverReused, TicketsKept, TransactionsTracked, ShutdownOrderly, IsWellTyped, SettleOperation,
         ApplyRequest, IsKeptEntry;
    if step.FinishOperation? {
      EndTouches(s, step.call, step.ok, step.now);
    } else {
      assert id !in s.connections;
      StepKeepsEntry(s, step, id);
      NewEntry(s, Apply(s, step), id, step);
    }
  }

  lemma NewEntry(s: State, t: State, id: nat, step: Step)
    requires IsKeptEntry(s, t, id, step) && id !in s.connections && DatesNew(s, step, id)
    ensures id in t.connections ==> t.connections[id].lastUsed == step.now && !t.connections[id].isBusy
  {
  }

  /** Connection `id` is listed all along the run, and no operation on it is asked for. */
  ghost predicate StaysUnused(s: State, steps: seq<Step>, id: nat)
    requires IsRun(s, steps)
    decreases |steps|
  {
    && id in s.connections
    && (steps == [] || (!IsOperationOn(steps[0], id) && StaysUnused(Apply(s, steps[0]), steps[1..], id)))
  }

  lemma {:induction false} UnusedKeepsTime(s: State, steps: seq<Step>, id: nat)
    requires Inv(s) && IsRun(s, steps) && StaysUnused(s, steps, id) && !s.connections[id].isBusy
    ensures var t := RunAll(s, steps); id in t.connections && SameUse(s.connections[id], t.connections[id])
    decreases |steps|
  {
    hide CallsAnsweredOnce, IdsNeverReused, TicketsKept, TransactionsTracked, ShutdownOrderly, IsWellTyped, Apply;
    if steps != [] {
      var t := Apply(s, steps[0]);
      StepKeepsInv(s, steps[0]);
      assert !Touches(s, steps[0], id);
      StepKeepsEntry(s, steps[0], id);
      UnusedKeepsTime(t, steps[1..], id);
    }
  }

  lemma SweepTakes(s: State, now: int, id: nat)
    requires IsEnabled(s, TimerSweep(now, None)) && id in s.connections && !s.connections[id].isBusy
    ensures var e := s.connections[id];
      id in Apply(s, TimerSweep(now, None)).connections <==>
        now - e.lastUsed <= if e.inTransaction then 60_000 else 30_000
  {
    hide IsWellTyped, LocksOf, SweptCleanups, SweptHistory;
  }

  lemma AcquireTakes(s: State, now: int, factoryOk: bool, id: nat)
    requires Inv(s) && IsEnabled(s, CallAcquire(now, None, factoryOk)) && id in s.connections && !s.connections[id].isBusy
    ensures var e := s.connections[id];
      id in Apply(s, CallAcquire(now, None, factoryOk)).connections <==>
        now - e.lastUsed <= if e.inTransaction then 60_000 else 30_000
  {
    assert id != s.nextConnId;
    hide Inv, IsWellTyped, LocksOf, SweptCleanups, SweptHistory, IsLocal;
  }

  /** The timer's sweep or an acquire's, none of whose adapters throws. */
  predicate IsFullSweep(step: Step) {
    (step.TimerSweep? || step.CallAcquire?) && step.throwsAt.None?
  }

  /**
   A connection handed out, or back from an operation, at some time and unused since is taken by a
   sweep exactly when that is more than thirty seconds ago, or sixty while its adapter holds an open
   transaction. Every acquire sweeps, too.
   */
  lemma SweepsTakeTheUnused(serial: bool, before: seq<Step>, step: Step, id: nat, unused: seq<Step>, sweep: Step)
    requires IsRun(Init(serial), before)
    requires var s := RunAll(Init(serial), before);
      && IsEnabled(s, step) && Dates(s, step, id)
      && IsRun(Apply(s, step), unused) && StaysUnused(Apply(s, step), unused, id)
      && var u := RunAll(Apply(s, step), unused); IsEnabled(u, sweep) && IsFullSweep(sweep) && !IsVisiting(u)
    ensures var u := RunAll(Apply(RunAll(Init(serial), before), step), unused);
      && id in u.connections && id in u.history
      && (id in Apply(u, sweep).connections <==>
            sweep.now - step.now <= if InOpenTransaction(u.history[id]) then 60_000 else 30_000)
  {
    hide Inv, Apply, EntryTrue, IsEnabled, StaysUnused, Dates, IsRun, RunAll, InOpenTransaction;
    var s := RunAll(Init(serial), before);
    Reachable(serial, before);
    StartIsTrue(serial, id);
    RunStaysTrue(Init(serial), before, id);
    SweptWhenUnused(s, step, id, unused, sweep);
  }

  lemma UnusedIsListed(s: State, steps: seq<Step>, id: nat)
    requires IsRun(s, steps) && StaysUnused(s, steps, id)
    ensures id in s.connections
  {
  }

  lemma SweptWhenUnused(s: State, step: Step, id: nat, unused: seq<Step>, sweep: Step)
    requires Inv(s) && EntryTrue(s, id) && IsEnabled(s, step) && Dates(s, step, id)
    requires IsRun(Apply(s, step), unused) && StaysUnused(Apply(s, step), unused, id)
    requires var u := RunAll(Apply(s, step), unused); IsEnabled(u, sweep) && IsFullSweep(sweep) && !IsVisiting(u)
    ensures var u := RunAll(Apply(s, step), unused);
      && id in u.connections && id in u.history
      && (id in Apply(u, sweep).connections <==>
            sweep.now - step.now <= if InOpenTransaction(u.history[id]) then 60_000 else 30_000)
  {
    hide Inv, Apply, EntryTrue, StaysUnused, Dates, IsRun, RunAll, InOpenTransaction, IsEnabled;
    var t := Apply(s, step);
    var u := RunAll(t, unused);
    UnusedIsListed(t, unused, id);
    StepKeepsInv(s, step);
    StepStaysTrue(s, step, id);
    DatedEntry(s, step, id);
    UnusedKeepsTime(t, unused, id);
    RunKeepsInv(t, unused);
    RunStaysTrue(t, unused, id);
    TruthOf(u, id);
    if sweep.TimerSweep? { SweepTakes(u, sweep.now, id); } else { AcquireTakes(u, sweep.now, sweep.factoryOk, id); }
  }

  /** No sweep takes a connection while a call on it is in flight. */
  lemma SweepsSpareTheBusy(serial: bool, steps: seq<Step>, id: nat, sweep: Step)
    requires IsRun(Init(serial), steps)
    requires var s := RunAll(Init(serial), steps);
      id in s.connections && IsInUse(s.pending, id) && IsEnabled(s, sweep) && (sweep.TimerSweep? || sweep.CallAcquire?)
    ensures id in Apply(RunAll(Init(serial), steps), sweep).connections
  {
    EntriesTellTheTruth(serial, steps, id);
    BusyIsSpared(RunAll(Init(serial), steps), sweep, id);
  }

  lemma BusyIsSpared(s: State, sweep: Step, id: nat)
    requires IsEnabled(s, sweep) && (sweep.TimerSweep? || sweep.CallAcquire?) && id in s.connections && s.connections[id].isBusy
    ensures id in Apply(s, sweep).connections
  {
    hide IsWellTyped, LocksOf, SweptCleanups, SweptHistory, IsLocal;
  }

  // ---------- how a cleanup begins ----------

  /** The step takes connection `id` out of the table: a close request for it, or a sweep. */
  ghost predicate TakesOut(s: State, step: Step, id: nat)
    requires IsEnabled(s, step)
  {
    && (step == CallClose(id) || step.TimerSweep? || step.CallAcquire?)
    && id in s.connections && id !in Apply(s, step).connections
  }

  lemma GoneWasSwept(s: State, now: int, throwsAt: Option<nat>, id: nat)
    requires IsWellTyped(s) && id in s.connections && id !in Sweep(s, now, throwsAt).connections
    ensures SweepCalls(s, now, throwsAt, id) == [FirstCleanup(s.connections[id])] && !s.connections[id].isBusy
  {
    hide IsWellTyped, LocksOf, SweptCleanups, SweptHistory, FirstCleanup;
  }

  lemma AcquireTakesBySweep(s: State, now: int, throwsAt: Option<nat>, factoryOk: bool, id: nat)
    requires IsWellTyped(s) && id !in Acquire(s, now, throwsAt, factoryOk).connections
    ensures id !in Sweep(s, now, throwsAt).connections
  {
    assert s.connections.Keys <= s.history.Keys;
    hide IsWellTyped, SweepEntries, SweptBy;
  }

  lemma TakenOut(s: State, step: Step, id: nat)
    requires Inv(s) && IsEnabled(s, step) && TakesOut(s, step, id)
    ensures NewCalls(s, step, id) == [FirstCleanup(s.connections[id])]
    ensures s.connections[id].isBusy ==> !IsInUse(s.pending, id)
  {
    hide CallsAnsweredOnce, ConnectionsSeparate, IdsNeverReused, TicketsKept, TransactionsTracked, ShutdownOrderly, IsWellTyped,
         IsLocal, Acquire, Sweep, StartClose, FirstCleanup, CanThrowAt, SweepCalls;
    match step
    case CallClose(conn) =>
    case TimerSweep(now, throwsAt) => GoneWasSwept(s, now, throwsAt, id);
    case CallAcquire(now, throwsAt, factoryOk) =>
      AcquireTakesBySweep(s, now, throwsAt, factoryOk, id);
      GoneWasSwept(s, now, throwsAt, id);
    case _ =>
  }

  /**
   Whoever takes a connection out of the table before `close` visits it begins with a rollback exactly
   if the adapter holds a transaction that nobody has tried to end, and closes it at once otherwise.
   */
  lemma CleanupsFitTheTransaction(serial: bool, steps: seq<Step>, step: Step, id: nat)
    requires IsRun(Init(serial), steps)
    requires var s := RunAll(Init(serial), steps); IsEnabled(s, step) && TakesOut(s, step, id) && !IsVisiting(s)
    ensures var s := RunAll(Init(serial), steps); var t := Apply(s, step);
      && id in s.history && id in t.history
      && t.history[id] == s.history[id] + [if InOpenTransaction(s.history[id]) then RollbackTried else CloseTried]
  {
    var s := RunAll(Init(serial), steps);
    assert id in s.connections;
    hide Apply, IsEnabled, IsRun, RunAll, InOpenTransaction, IsVisiting, TakesOut, NewCalls;
    Reachable(serial, steps);
    EntriesTellTheTruth(serial, steps, id);
    TakenOut(s, step, id);
    hide Inv;
    StepGrowsHistory(s, step, id);
  }
}
