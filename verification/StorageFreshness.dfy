/**
 When a begin endangers the exclusion of transactions: exactly when it is sent without the lock or
 inside a transaction. After any other begin no run of fresh begins ever overlaps; after one of these
 some run does, whatever else is going on in the manager.
 */
module StorageFreshness {
  import opened Wrappers
  import opened StorageProtocol
  import opened StorageTickets
  import opened StorageSafety
  import opened StorageTheorems
  import opened StorageExclusion
  import opened StorageRuns
  import opened StorageCleanups

  ghost predicate Overlaps(s: State) {
    !s.IsShutDown() && exists i, j :: i != j && IsInside(s, i) && IsInside(s, j)
  }

  /** No run whose begins are all fresh leads from `s` to an overlap. */
  ghost predicate NeverOverlaps(s: State) {
    forall steps :: IsRun(s, steps) && IsFreshRun(s, steps) ==> !Overlaps(RunAll(s, steps))
  }

  // ---------- a fresh begin ----------

  lemma ExclusiveNeverOverlaps(s: State)
    requires Inv(s) && Exclusive(s) && s.serial
    ensures !Overlaps(s)
  {
    if !s.IsShutDown() {
      forall i, j | IsInside(s, i) && IsInside(s, j) ensures i == j {
        InsideHoldsTheLock(s, i);
        InsideHoldsTheLock(s, j);
        GrantedAfterEarlier(s, i);
        GrantedAfterEarlier(s, j);
      }
    }
  }

  lemma ExclusiveStaysSo(s: State)
    requires Inv(s) && Exclusive(s) && s.serial
    ensures NeverOverlaps(s)
  {
    forall steps | IsRun(s, steps) && IsFreshRun(s, steps) ensures !Overlaps(RunAll(s, steps)) {
      FreshRunKeepsExclusive(s, steps);
      RunKeepsInv(s, steps);
      RunKeepsMode(s, steps);
      ExclusiveNeverOverlaps(RunAll(s, steps));
    }
  }

  // ---------- a transaction without the lock ----------

  /** Connection `i` of a live serial manager is inside a transaction although it has given up the lock. */
  ghost predicate IsAstray(s: State, i: nat) {
    && Inv(s) && s.serial && s.closer.NotClosing?
    && i in s.connections && s.connections[i].inTransaction && s.connections[i].lock.None?
  }

  /** Connection `j` has the lock and can begin. */
  predicate IsReady(s: State, j: nat) {
    j in s.connections && s.connections[j].lock.Some? && !s.connections[j].inTransaction && IsQuiet(s, j)
  }

  /** Some fresh run leads from `s` to an overlap. */
  ghost predicate CanOverlap(s: State) {
    exists steps :: IsRun(s, steps) && IsFreshRun(s, steps) && Overlaps(RunAll(s, steps))
  }

  lemma ReachedOverlap(s: State, steps: seq<Step>, t: State)
    requires Reaches(s, steps, IsFresh, t) && Overlaps(t)
    ensures CanOverlap(s)
  {
  }

  lemma NothingReached(s: State)
    requires Inv(s)
    ensures Reaches(s, [], IsFresh, s)
  {
  }

  /** Two entries inside a transaction. */
  lemma TwoInside(s: State, i: nat, j: nat)
    requires IsAstray(s, i) && j in s.connections && j != i && s.connections[j].inTransaction
    ensures Overlaps(s)
  {
    assert IsInside(s, i) && IsInside(s, j);
  }

  /** The holder of the lock begins. */
  lemma ReadyBegins(start: State, steps: seq<Step>, s: State, i: nat, j: nat)
    requires Reaches(start, steps, IsFresh, s) && IsAstray(s, i) && IsReady(s, j)
    ensures CanOverlap(start)
  {
    var _ := SendBegin(s, i, j);
    var steps1, t := ReachesOn(start, steps, IsFresh, s, CallOperation(Begin, j, 0));
    BeginReturnsBeside(start, steps1, t, i, j, s.nextCall);
  }

  lemma SendBegin(s: State, i: nat, j: nat) returns (t: State)
    requires IsAstray(s, i) && IsReady(s, j)
    ensures IsEnabled(s, CallOperation(Begin, j, 0)) && t == Apply(s, CallOperation(Begin, j, 0))
    ensures IsAstray(t, i) && i != j && j in t.connections
    ensures s.nextCall in t.pending && t.pending[s.nextCall] == Running(j, Begin)
  {
    InvIsWellTyped(s);
    StepKeepsInv(s, CallOperation(Begin, j, 0));
    t := RunOperation(s, Begin, j, 0);
  }

  lemma BeginReturnsBeside(start: State, steps: seq<Step>, s: State, i: nat, j: nat, call: nat)
    requires Reaches(start, steps, IsFresh, s) && IsAstray(s, i) && i != j && j in s.connections
    requires call in s.pending && s.pending[call] == Running(j, Begin)
    ensures CanOverlap(start)
  {
    var t := SettleBegin(s, i, j, call);
    var steps', t' := ReachesOn(start, steps, IsFresh, s, FinishOperation(call, true, 0));
    TwoInside(t, i, j);
    ReachedOverlap(start, steps', t');
  }

  lemma SettleBegin(s: State, i: nat, j: nat, call: nat) returns (t: State)
    requires IsAstray(s, i) && i != j && j in s.connections
    requires call in s.pending && s.pending[call] == Running(j, Begin)
    ensures IsEnabled(s, FinishOperation(call, true, 0)) && t == Apply(s, FinishOperation(call, true, 0))
    ensures IsAstray(t, i) && j in t.connections && t.connections[j].inTransaction
  {
    hide TicketsKept, ShutdownOrderly, Bookkeeping, Transactions;
    InvIsWellTyped(s);
    StepKeepsInv(s, FinishOperation(call, true, 0));
    t := SettleOperation(s, call, true, 0);
  }

  // ---------- somebody gets the lock ----------

  /** A waiter goes on. */
  lemma WaiterBegins(start: State, steps: seq<Step>, s: State, i: nat, c: nat)
    requires Reaches(start, steps, IsFresh, s) && IsAstray(s, i) && CanGrant(s, c)
    ensures CanOverlap(start)
  {
    var u := SeatWaiter(s, i, c);
    var steps', t := ReachesOn(start, steps, IsFresh, s, Grant(c, 0));
    ReadyBegins(start, steps', u, i, s.pending[c].conn);
  }

  lemma SeatWaiter(s: State, i: nat, c: nat) returns (t: State)
    requires IsAstray(s, i) && CanGrant(s, c)
    ensures IsEnabled(s, Grant(c, 0)) && t == Apply(s, Grant(c, 0))
    ensures IsAstray(t, i) && IsReady(t, s.pending[c].conn)
  {
    t := WaiterGoesOn(s, c, 0);
  }

  /** Nobody holds the lock: the next waiter goes on, or else a new one comes and does. */
  lemma FreeLockIsTaken(start: State, steps: seq<Step>, s: State, i: nat)
    requires Reaches(start, steps, IsFresh, s) && IsAstray(s, i) && forall k :: !IsGrantedUnreleased(s, k)
    ensures CanOverlap(start)
  {
    if waiter :| waiter in s.pending && s.pending[waiter].Waiting? {
      LockIsFreeOrHeld(s, waiter);
      var c :| CanGrant(s, c);
      WaiterBegins(start, steps, s, i, c);
    } else {
      var now, u := NewWaiter(s, i);
      var steps', t := ReachesOn(start, steps, IsFresh, s, CallAcquire(now, None, true));
      LockIsFreeOrHeld(u, s.nextCall);
      var c :| CanGrant(u, c);
      WaiterBegins(start, steps', u, i, c);
    }
  }

  /** A time at which no entry is stale. */
  lemma {:induction false} EarlyEnough(connections: Table) returns (now: int)
    ensures forall id :: id in connections ==> now <= connections[id].lastUsed
    decreases connections.Keys
  {
    now := 0;
    if connections != map[] {
      var id :| id in connections;
      now := EarlyEnough(connections - {id});
      if connections[id].lastUsed < now { now := connections[id].lastUsed; }
      assert forall other :: other in connections ==> other == id || other in connections - {id};
    }
  }

  lemma NothingIsStale(s: State, now: int)
    requires IsWellTyped(s) && forall id :: id in s.connections ==> now <= s.connections[id].lastUsed
    ensures Sweep(s, now, None) == s
  {
    var t := Sweep(s, now, None);
    assert SweptBy(s.connections, now, None) == {};
    assert t.connections == s.connections && t.cleanups == s.cleanups && t.history == s.history;
    assert t.released == s.released;
  }

  lemma NewWaiter(s: State, i: nat) returns (now: int, t: State)
    requires IsAstray(s, i) && forall k :: !IsGrantedUnreleased(s, k)
    ensures IsEnabled(s, CallAcquire(now, None, true)) && t == Apply(s, CallAcquire(now, None, true))
    ensures IsAstray(t, i) && forall k :: !IsGrantedUnreleased(t, k)
    ensures s.nextCall in t.pending && t.pending[s.nextCall].Waiting?
  {
    now := EarlyEnough(s.connections);
    InvIsWellTyped(s);
    NothingIsStale(s, now);
    StepKeepsInv(s, CallAcquire(now, None, true));
    t := DrawTicket(s);
    forall k: nat ensures !IsGrantedUnreleased(t, k) {
      if IsGrantedUnreleased(t, k) { QueueingGrantsNothing(s, k); }
    }
  }

  // ---------- the holder of the lock ----------

  /** The holder's operation in flight returns. */
  lemma HolderIsDone(start: State, steps: seq<Step>, s: State, i: nat, j: nat, call: nat)
    requires Reaches(start, steps, IsFresh, s) && IsAstray(s, i) && HasLock(s.connections, j)
    requires !s.connections[j].inTransaction && call in s.pending && s.pending[call].conn == j
    ensures CanOverlap(start)
  {
    var op := RunningOp(s, j, call);
    if op.Begin? {
      BeginReturnsBeside(start, steps, s, i, j, call);
    } else {
      var u := SettleHolder(s, i, j, op, call);
      var steps', t := ReachesOn(start, steps, IsFresh, s, FinishOperation(call, true, 0));
      ReadyBegins(start, steps', u, i, j);
    }
  }

  lemma RunningOp(s: State, j: nat, call: nat) returns (op: AdapterOp)
    requires Inv(s) && j in s.connections && call in s.pending && s.pending[call].conn == j
    ensures s.pending[call] == Running(j, op)
  {
    op := s.pending[call].op;
  }

  lemma SettleHolder(s: State, i: nat, j: nat, op: AdapterOp, call: nat) returns (t: State)
    requires IsAstray(s, i) && HasLock(s.connections, j) && !s.connections[j].inTransaction
    requires call in s.pending && s.pending[call] == Running(j, op) && !op.Begin?
    ensures IsEnabled(s, FinishOperation(call, true, 0)) && t == Apply(s, FinishOperation(call, true, 0))
    ensures IsAstray(t, i) && IsReady(t, j)
  {
    InvIsWellTyped(s);
    StepKeepsInv(s, FinishOperation(call, true, 0));
    t := SettleOperation(s, call, true, 0);
  }

  /** The holder is closing, with its rollback over or not needed: the close returns. */
  lemma HolderIsClosed(start: State, steps: seq<Step>, s: State, i: nat, j: nat, call: nat)
    requires Reaches(start, steps, IsFresh, s) && IsAstray(s, i) && IsGrantedUnreleased(s, j)
    requires call in s.pending && s.pending[call].ClosingClose? && s.pending[call].lock == Some(j)
    ensures CanOverlap(start)
  {
    var u := EndClose(s, i, j, call);
    var steps', t := ReachesOn(start, steps, IsFresh, s, FinishClose(call));
    FreeLockIsTaken(start, steps', u, i);
  }

  lemma EndClose(s: State, i: nat, j: nat, call: nat) returns (t: State)
    requires IsAstray(s, i) && IsGrantedUnreleased(s, j)
    requires call in s.pending && s.pending[call].ClosingClose? && s.pending[call].lock == Some(j)
    ensures IsEnabled(s, FinishClose(call)) && t == Apply(s, FinishClose(call))
    ensures IsAstray(t, i) && forall k :: !IsGrantedUnreleased(t, k)
  {
    InvIsWellTyped(s);
    StepKeepsInv(s, FinishClose(call));
    t := SettleClosing(s, call);
    forall k: nat ensures !IsGrantedUnreleased(t, k) {
      ClosingFreesTheLock(s, j, call, k);
    }
  }

  lemma ClosingFreesTheLock(s: State, j: nat, call: nat, k: nat)
    requires Inv(s) && IsGrantedUnreleased(s, j)
    requires call in s.pending && s.pending[call].ClosingClose? && s.pending[call].lock == Some(j)
    ensures !IsGrantedUnreleased(SettleClosing(s, call), k)
  {
    if IsGrantedUnreleased(SettleClosing(s, call), k) {
      ClosingGrantsNothing(s, call, k);
      GrantedAfterEarlier(s, j);
      GrantedAfterEarlier(s, k);
    }
  }

  lemma ClosingGrantsNothing(s: State, call: nat, k: nat)
    requires call in s.pending && s.pending[call].ClosingClose?
    requires IsGrantedUnreleased(SettleClosing(s, call), k)
    ensures IsGrantedUnreleased(s, k) && s.pending[call].lock != Some(k)
  {
    var t := SettleClosing(s, call);
    if !(k in s.connections && s.connections[k].lock == Some(k)) {
      var c :| c in t.pending && !t.pending[c].Waiting? && TicketOf(t.pending[c]) == Some(k);
      assert c in s.pending && s.pending[c] == t.pending[c];
    }
  }

  // ---------- whoever has the lock ----------

  /** A transaction that has lost the lock can always be overlapped. */
  lemma AstrayOverlaps(start: State, steps: seq<Step>, s: State, i: nat)
    requires Reaches(start, steps, IsFresh, s) && IsAstray(s, i)
    ensures CanOverlap(start)
  {
    if j :| j != i && IsInside(s, j) {
      assert IsInside(s, i);
      ReachedOverlap(start, steps, s);
    } else if j :| IsGrantedUnreleased(s, j) {
      HolderIsPassed(start, steps, s, i, j);
    } else {
      FreeLockIsTaken(start, steps, s, i);
    }
  }

  lemma HolderIsPassed(start: State, steps: seq<Step>, s: State, i: nat, j: nat)
    requires Reaches(start, steps, IsFresh, s) && IsAstray(s, i) && IsGrantedUnreleased(s, j)
    requires forall k :: k != i ==> !IsInside(s, k)
    ensures CanOverlap(start)
  {
    if j in s.connections && s.connections[j].lock == Some(j) {
      assert j != i && !IsInside(s, j);
      if call :| call in s.pending && s.pending[call].conn == j {
        HolderIsDone(start, steps, s, i, j, call);
      } else {
        ReadyBegins(start, steps, s, i, j);
      }
    } else {
      var call := ClosingHolder(s, i, j);
      HolderIsClosed(start, steps, s, i, j, call);
    }
  }

  lemma ClosingHolder(s: State, i: nat, j: nat) returns (call: nat)
    requires IsAstray(s, i) && IsGrantedUnreleased(s, j) && !(j in s.connections && s.connections[j].lock == Some(j))
    requires forall k :: k != i ==> !IsInside(s, k)
    ensures call in s.pending && s.pending[call].ClosingClose? && s.pending[call].lock == Some(j)
  {
    call :| call in s.pending && !s.pending[call].Waiting? && TicketOf(s.pending[call]) == Some(j);
    assert s.pending[call].conn == j;
    assert !IsInside(s, j) || j == i;
  }

  // ---------- the exact condition ----------

  /** A begin without the lock returns. */
  lemma LocklessBeginOverlaps(s: State, i: nat, now: int)
    requires Inv(s) && s.serial && !s.IsShutDown() && i in s.connections && IsEnabled(s, CallOperation(Begin, i, now))
    requires s.connections[i].lock.None?
    ensures CanOverlap(Apply(s, CallOperation(Begin, i, now)))
  {
    var t := SentBegin(s, i, now);
    var u := StrayBegin(t, i, s.nextCall, true);
    NothingReached(t);
    var steps, _ := ReachesOn(t, [], IsFresh, t, FinishOperation(s.nextCall, true, 0));
    AstrayOverlaps(t, steps, u, i);
  }

  /** A nested begin fails. */
  lemma NestedBeginOverlapsNext(s: State, i: nat, now: int)
    requires Inv(s) && s.serial && !s.IsShutDown() && i in s.connections && IsEnabled(s, CallOperation(Begin, i, now))
    requires s.connections[i].inTransaction
    ensures CanOverlap(Apply(s, CallOperation(Begin, i, now)))
  {
    var t := SentBegin(s, i, now);
    var u := StrayBegin(t, i, s.nextCall, false);
    NothingReached(t);
    var steps, _ := ReachesOn(t, [], IsFresh, t, FinishOperation(s.nextCall, false, 0));
    AstrayOverlaps(t, steps, u, i);
  }

  lemma SentBegin(s: State, i: nat, now: int) returns (t: State)
    requires Inv(s) && s.serial && !s.IsShutDown() && i in s.connections && IsEnabled(s, CallOperation(Begin, i, now))
    ensures t == Apply(s, CallOperation(Begin, i, now)) && Inv(t) && t.serial && t.closer.NotClosing?
    ensures s.nextCall in t.pending && t.pending[s.nextCall] == Running(i, Begin) && i in t.connections
    ensures t.connections[i].lock == s.connections[i].lock && t.connections[i].inTransaction == s.connections[i].inTransaction
  {
    StepKeepsInv(s, CallOperation(Begin, i, now));
    t := RunOperation(s, Begin, i, now);
  }

  lemma StrayBegin(s: State, i: nat, call: nat, ok: bool) returns (t: State)
    requires Inv(s) && s.serial && s.closer.NotClosing? && i in s.connections
    requires call in s.pending && s.pending[call] == Running(i, Begin)
    requires if ok then s.connections[i].lock.None? else s.connections[i].inTransaction
    ensures IsEnabled(s, FinishOperation(call, ok, 0)) && t == Apply(s, FinishOperation(call, ok, 0))
    ensures IsAstray(t, i)
  {
    hide Bookkeeping, Tickets, Transactions;
    InvIsWellTyped(s);
    StepKeepsInv(s, FinishOperation(call, ok, 0));
    t := SettleOperation(s, call, ok, 0);
  }

  /**
   In any state that fresh begins lead to, and whatever else is in flight: a begin on a connection in
   the table is fresh if and only if transactions never overlap after it, as long as later begins are.
   */
  lemma FreshExactly(s: State, step: Step)
    requires Inv(s) && Exclusive(s) && s.serial && !s.IsShutDown()
    requires IsEnabled(s, step) && step.CallOperation? && step.op.Begin? && step.conn in s.connections
    ensures BeginsFresh(s, step) <==> NeverOverlaps(Apply(s, step))
  {
    if BeginsFresh(s, step) {
      StepKeepsInv(s, step);
      StepKeepsExclusive(s, step);
      ExclusiveStaysSo(Apply(s, step));
    } else if s.connections[step.conn].lock.None? {
      LocklessBeginOverlaps(s, step.conn, step.now);
    } else {
      NestedBeginOverlapsNext(s, step.conn, step.now);
    }
  }

  /** The same over whole runs of a fresh manager. */
  lemma FirstUnfreshBeginEndangers(steps: seq<Step>, step: Step)
    requires IsRun(Init(true), steps) && IsFreshRun(Init(true), steps) && !RunAll(Init(true), steps).IsShutDown()
    requires var s := RunAll(Init(true), steps);
      IsEnabled(s, step) && step.CallOperation? && step.op.Begin? && step.conn in s.connections
    ensures var s := RunAll(Init(true), steps); BeginsFresh(s, step) <==> NeverOverlaps(Apply(s, step))
  {
    Reachable(true, steps);
    InitInv(true);
    RunKeepsMode(Init(true), steps);
    FreshRunKeepsExclusive(Init(true), steps);
    FreshExactly(RunAll(Init(true), steps), step);
  }
}
