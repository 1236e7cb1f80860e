/**
 What the serial lock is for: while the manager is live, at most one connection is inside a
 transaction, from the end of its begin to the end of its commit, rollback or close. It holds for
 every run in which a begin is only sent on a connection that still has its lock and is not already
 inside a transaction. A sweep is the one cleanup that lets the next connection in before it is over.
 */
module StorageExclusion {
  import opened Wrappers
  import opened StorageProtocol
  import opened StorageTickets
  import opened StorageSafety
  import opened StorageTheorems

  /** What a caller may owe the manager when it sends a begin on a connection in the table. */
  datatype Duty = HasTheLock | IsOutside | IsFresh

  predicate Obeys(s: State, step: Step, duty: Duty) {
    step.CallOperation? && step.op.Begin? && step.conn in s.connections ==>
      && (duty.HasTheLock? || duty.IsFresh? ==> s.connections[step.conn].lock.Some?)
      && (duty.IsOutside? || duty.IsFresh? ==> !s.connections[step.conn].inTransaction)
  }

  ghost predicate RunObeys(s: State, steps: seq<Step>, duty: Duty)
    requires IsRun(s, steps)
    decreases |steps|
  {
    steps == [] || (Obeys(s, steps[0], duty) && RunObeys(Apply(s, steps[0]), steps[1..], duty))
  }

  /** A begin on a table entry finds the lock still held and no transaction open. */
  predicate BeginsFresh(s: State, step: Step) {
    Obeys(s, step, IsFresh)
  }

  ghost predicate IsFreshRun(s: State, steps: seq<Step>)
    requires IsRun(s, steps)
  {
    RunObeys(s, steps, IsFresh)
  }

  predicate HasLock(connections: Table, id: nat) {
    id in connections && connections[id].lock.Some?
  }

  ghost predicate OpenIsTabled(history: map<nat, seq<AdapterCall>>, connections: Table) {
    forall i :: i in history && InOpenTransaction(history[i]) ==> i in connections
  }

  /** Entries inside a transaction, begins in flight and rollbacks of close requests all have the lock. */
  ghost predicate InsideHoldsLock(connections: Table, pending: Calls) {
    && (forall i :: i in connections && connections[i].inTransaction ==> connections[i].lock.Some?)
    && (forall c :: c in pending && IsBegin(pending[c]) ==>
         HasLock(connections, pending[c].conn) && !connections[pending[c].conn].inTransaction)
    && (forall c :: c in pending && pending[c].ClosingRollback? ==> pending[c].lock.Some?)
  }

  ghost predicate Exclusive(s: State) {
    s.serial && !s.IsShutDown() ==> OpenIsTabled(s.history, s.connections) && InsideHoldsLock(s.connections, s.pending)
  }

  lemma RequestKeepsExclusive(s: State, step: Step)
    requires Inv(s) && Exclusive(s) && IsEnabled(s, step) && IsRequest(step) && BeginsFresh(s, step)
    ensures Exclusive(ApplyRequest(s, step))
  {
    match step
    case CallMalformed =>
    case CallUnknown =>
    case CallAcquire(now, throwsAt, factoryOk) => AcquireKeepsExclusive(s, now, throwsAt, factoryOk);
    case CallOperation(op, conn, now) => if conn in s.connections { RunKeepsExclusive(s, op, conn, now); }
    case CallClose(conn) => if conn in s.connections { CloseKeepsExclusive(s, conn); }
  }

  lemma AcquireKeepsExclusive(s: State, now: int, throwsAt: Option<nat>, factoryOk: bool)
    requires Inv(s) && IsWellTyped(s) && Exclusive(s) && CanThrowAt(s.connections, now, throwsAt)
    ensures Exclusive(Acquire(s, now, throwsAt, factoryOk))
  {
    SweepKeepsExclusive(s, now, throwsAt);
    SweepKeepsInv(s, now, throwsAt);
    DrawKeepsExclusive(Sweep(s, now, throwsAt));
  }

  lemma DrawKeepsExclusive(s: State)
    requires Bookkeeping(s) && Exclusive(s)
    ensures Exclusive(DrawTicket(s))
  {
  }

  lemma SweepKeepsExclusive(s: State, now: int, throwsAt: Option<nat>)
    requires IsWellTyped(s) && Bookkeeping(s) && Transactions(s) && Exclusive(s)
    ensures Exclusive(Sweep(s, now, throwsAt))
  {
    forall i | i in s.connections
      ensures InOpenTransaction(s.history[i] + [FirstCleanup(s.connections[i])]) ==>
        InOpenTransaction(s.history[i]) && !s.connections[i].inTransaction
    {
      CleanAfterCall(s.history[i], FirstCleanup(s.connections[i]));
    }
  }

  lemma RunKeepsExclusive(s: State, op: AdapterOp, id: nat, now: int)
    requires IsWellTyped(s) && Bookkeeping(s) && Transactions(s) && Exclusive(s) && id in s.connections && IsQuiet(s, id)
    requires op.Begin? ==> s.connections[id].lock.Some? && !s.connections[id].inTransaction
    requires !(op.Begin? && s.serial && s.IsShutDown())
    ensures Exclusive(RunOperation(s, op, id, now))
  {
    hide CallsAnsweredOnce, ConnectionsSeparate, IdsNeverReused, Transactions;
    StartedCallsAreClean(s.history[id], op);
  }

  lemma CloseKeepsExclusive(s: State, id: nat)
    requires IsWellTyped(s) && Bookkeeping(s) && Transactions(s) && Exclusive(s) && id in s.connections && IsQuiet(s, id)
    ensures Exclusive(CloseEntry(s, id))
  {
    hide CallsAnsweredOnce, ConnectionsSeparate;
    CleanAfterCall(s.history[id], FirstCleanup(s.connections[id]));
  }

  lemma OperationKeepsLocks(connections: Table, pending: Calls, call: nat, ok: bool, now: int)
    requires InsideHoldsLock(connections, pending) && call in pending && pending[call].Running?
    requires forall c :: c in pending && pending[c].conn == pending[call].conn ==> c == call
    ensures InsideHoldsLock(SettledTable(connections, pending[call].conn, pending[call].op, ok, now), pending - {call})
  {
  }

  lemma OperationKeepsExclusive(s: State, call: nat, ok: bool, now: int)
    requires IsWellTyped(s) && Bookkeeping(s) && Exclusive(s) && call in s.pending && s.pending[call].Running?
    ensures Exclusive(SettleOperation(s, call, ok, now))
  {
    var Running(conn, op) := s.pending[call];
    CleanAfterCalls(s.history[conn], if op.Begin? && ok then [Began] else []);
    if s.serial && !s.IsShutDown() {
      OperationKeepsLocks(s.connections, s.pending, call, ok, now);
    }
  }

  lemma SettleCallKeepsExclusive(s: State, step: Step)
    requires Inv(s) && Exclusive(s) && IsEnabled(s, step) && SettledCall(step).Some?
    ensures Exclusive(SettleCall(s, step))
  {
    match step
    case Grant(call, now) => GrantKeepsExclusive(s, call, now);
    case FinishOperation(call, ok, now) => OperationKeepsExclusive(s, call, ok, now);
    case FinishCloseRollback(call, ok) => CloseRollbackKeepsExclusive(s, call, ok);
    case FinishClose(call) =>
  }

  lemma GrantKeepsExclusive(s: State, call: nat, now: int)
    requires IsWellTyped(s) && Bookkeeping(s) && Exclusive(s) && CanGrant(s, call)
    ensures Exclusive(GrantTicket(s, call, now))
  {
    hide Bookkeeping;
  }

  lemma CloseRollbackKeepsExclusive(s: State, call: nat, ok: bool)
    requires IsWellTyped(s) && Bookkeeping(s) && Exclusive(s) && call in s.pending && s.pending[call].ClosingRollback?
    ensures Exclusive(SettleCloseRollback(s, call, ok))
  {
    hide ConnectionsSeparate;
    CleanAfterCall(s.history[s.pending[call].conn], CloseTried);
  }

  lemma OwnStepKeepsExclusive(s: State, step: Step)
    requires Inv(s) && Exclusive(s) && IsEnabled(s, step) && !IsRequest(step) && SettledCall(step).None?
    ensures Exclusive(ApplyOwn(s, step))
  {
    match step
    case TimerSweep(now, throwsAt) => SweepKeepsExclusive(s, now, throwsAt);
    case FinishSweepRollback(conn) => CleanAfterCall(s.history[conn], CloseTried);
    case _ =>
  }

  lemma {:induction false} FreshRunKeepsExclusive(s: State, steps: seq<Step>)
    requires Inv(s) && Exclusive(s) && IsRun(s, steps) && IsFreshRun(s, steps)
    ensures Exclusive(RunAll(s, steps))
    decreases |steps|
  {
    if steps != [] {
      StepKeepsInv(s, steps[0]);
      StepKeepsExclusive(s, steps[0]);
      FreshRunKeepsExclusive(Apply(s, steps[0]), steps[1..]);
    }
  }

  lemma StepKeepsExclusive(s: State, step: Step)
    requires Inv(s) && Exclusive(s) && IsEnabled(s, step) && BeginsFresh(s, step)
    ensures Exclusive(Apply(s, step))
  {
    if IsRequest(step) {
      RequestKeepsExclusive(s, step);
    } else if SettledCall(step).Some? {
      SettleCallKeepsExclusive(s, step);
    } else {
      OwnStepKeepsExclusive(s, step);
    }
  }

  /**
   Is `i` inside a transaction, for all that the manager knows? It is from the moment its begin has
   returned until its commit or rollback has, or the rollback that a close request started.
   */
  ghost predicate IsInside(s: State, i: nat) {
    || (i in s.history && InOpenTransaction(s.history[i]))
    || (i in s.connections && s.connections[i].inTransaction)
    || exists c :: c in s.pending && s.pending[c].ClosingRollback? && s.pending[c].conn == i
  }

  lemma InsideHoldsTheLock(s: State, i: nat)
    requires Inv(s) && Exclusive(s) && s.serial && !s.IsShutDown() && IsInside(s, i)
    ensures IsGrantedUnreleased(s, i)
  {
    if i in s.history && InOpenTransaction(s.history[i]) {
      assert HasLock(s.connections, i);
    } else if !(i in s.connections && s.connections[i].inTransaction) {
      var c :| c in s.pending && s.pending[c].ClosingRollback? && s.pending[c].conn == i;
      assert TicketOf(s.pending[c]) == Some(i);
    }
  }

  /** At most one connection of a live serial manager is inside a transaction. */
  lemma SerialTransactionsExclude(steps: seq<Step>, i: nat, j: nat)
    requires IsRun(Init(true), steps) && IsFreshRun(Init(true), steps)
    requires var s := RunAll(Init(true), steps); !s.IsShutDown() && IsInside(s, i) && IsInside(s, j)
    ensures i == j
  {
    Reachable(true, steps);
    RunKeepsMode(Init(true), steps);
    InitInv(true);
    FreshRunKeepsExclusive(Init(true), steps);
    InsideHoldsTheLock(RunAll(Init(true), steps), i);
    InsideHoldsTheLock(RunAll(Init(true), steps), j);
    SerialLockIsExclusive(true, steps, i);
  }

  /** A begin that failed has given the lock up, while its connection stays in the table. */
  lemma FailedBeginGivesUpTheLock(s: State, call: nat, now: int)
    requires Inv(s) && call in s.pending && IsBegin(s.pending[call]) && s.pending[call].conn in s.connections
    ensures IsEnabled(s, FinishOperation(call, false, now))
    ensures var t := Apply(s, FinishOperation(call, false, now)); var id := s.pending[call].conn;
      id in t.connections && !HasLock(t.connections, id)
  {
    InvIsWellTyped(s);
  }

  lemma RunningBegin(s: State, i: nat, now: int) returns (t: State)
    requires i in s.connections && i in s.history
    ensures t == RunOperation(s, Begin, i, now)
    ensures t.closer == s.closer && t.history == s.history && t.pending == s.pending[s.nextCall := Running(i, Begin)]
  {
    assert s.history[i] + [] == s.history[i];
    t := RunOperation(s, Begin, i, now);
  }

  lemma QuietBeginRuns(s: State, i: nat, now: int) returns (t: State)
    requires Inv(s) && !s.IsShutDown() && i in s.connections && IsQuiet(s, i)
    ensures IsEnabled(s, CallOperation(Begin, i, now)) && t == Apply(s, CallOperation(Begin, i, now))
    ensures Inv(t) && t.closer == s.closer && t.history == s.history
    ensures s.nextCall in t.pending && t.pending[s.nextCall] == Running(i, Begin)
  {
    InvIsWellTyped(s);
    StepKeepsInv(s, CallOperation(Begin, i, now));
    t := RunningBegin(s, i, now);
  }

  lemma BeginSettlesOpen(s: State, i: nat, call: nat, now: int) returns (t: State)
    requires Inv(s) && call in s.pending && s.pending[call] == Running(i, Begin)
    ensures IsEnabled(s, FinishOperation(call, true, now)) && t == Apply(s, FinishOperation(call, true, now))
    ensures i in s.history && t.history == s.history[i := s.history[i] + [Began]] && t.closer == s.closer
  {
    InvIsWellTyped(s);
    t := SettleOperation(s, call, true, now);
  }

  /** Beginning again on such a connection overlaps with whichever transaction is open by then. */
  lemma RetriedBeginOverlaps(s: State, i: nat, j: nat, now: int)
    requires Inv(s) && s.serial && !s.IsShutDown() && i != j && i in s.connections && IsQuiet(s, i)
    requires !HasLock(s.connections, i)
    requires j in s.history && InOpenTransaction(s.history[j])
    ensures IsEnabled(s, CallOperation(Begin, i, now))
    ensures var t := Apply(s, CallOperation(Begin, i, now));
      && IsEnabled(t, FinishOperation(s.nextCall, true, now))
      && var u := Apply(t, FinishOperation(s.nextCall, true, now));
        && !u.IsShutDown() && i in u.history && InOpenTransaction(u.history[i])
        && j in u.history && InOpenTransaction(u.history[j])
  {
    var t := QuietBeginRuns(s, i, now);
    var _ := BeginSettlesOpen(t, i, s.nextCall, now);
    CleanAfterCall(s.history[i], Began);
  }
}
