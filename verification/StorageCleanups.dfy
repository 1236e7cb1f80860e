/**
 Who may go on while an adapter is being rolled back and closed. A close request keeps the serial
 lock until its rollback and close are over, so that no other connection is handed out before; a
 sweep gives the lock up first.
 */
module StorageCleanups {
  import opened Wrappers
  import opened StorageProtocol
  import opened StorageTickets
  import opened StorageSafety
  import opened StorageTheorems
  import opened StorageExclusion
  import opened StorageRuns
  import opened StorageOverlaps

  /** A waiter can go on exactly if nobody holds the lock. */
  lemma LockIsFreeOrHeld(s: State, waiter: nat)
    requires Inv(s) && waiter in s.pending && s.pending[waiter].Waiting?
    ensures (exists c :: CanGrant(s, c)) <==> !(exists t :: IsGrantedUnreleased(s, t))
  {
    QueueNeverSticks(s, waiter);
    forall t, c | IsGrantedUnreleased(s, t) && CanGrant(s, c) ensures false {
      HolderKeepsWaitersOff(s, t, c);
    }
  }

  lemma FirstUnreleasedIsNext(released: set<nat>, n: nat, connections: Table, pending: Calls, t: nat, c: nat)
    requires TicketsKept(released, n, connections, pending)
    requires t !in released && forall u: nat :: u < t ==> u in released
    requires c in pending && pending[c].Waiting? && pending[c].ticket - 1 in released
    ensures pending[c].ticket == t && pending[c].conn == t
  {
    assert TicketOf(pending[c]) == Some(pending[c].ticket);
  }

  lemma HolderKeepsWaitersOff(s: State, t: nat, c: nat)
    requires Inv(s) && IsGrantedUnreleased(s, t)
    ensures !CanGrant(s, c)
  {
    GrantedAfterEarlier(s, t);
    WaiterIsBehind(s, t, c);
  }

  lemma WaiterIsBehind(s: State, t: nat, c: nat)
    requires Bookkeeping(s) && Tickets(s) && IsGrantedUnreleased(s, t) && forall u: nat :: u < t ==> u in s.released
    ensures !CanGrant(s, c)
  {
    if CanGrant(s, c) {
      FirstUnreleasedIsNext(s.released, s.nextTicket, s.connections, s.pending, t, c);
      WaiterIsNoHolder(s, t, c);
    }
  }

  lemma WaiterIsNoHolder(s: State, t: nat, c: nat)
    requires Bookkeeping(s) && Tickets(s) && c in s.pending && s.pending[c].Waiting? && s.pending[c].conn == t
    ensures !IsGrantedUnreleased(s, t)
  {
    forall d | d in s.pending && TicketOf(s.pending[d]) == Some(t) ensures d == c {
      assert s.pending[d].conn == t;
    }
  }

  /** Is `call` a close request that will release a ticket once the adapter is closed? */
  predicate IsCleaningUp(s: State, call: nat) {
    call in s.pending && (s.pending[call].ClosingRollback? || s.pending[call].ClosingClose?) && s.pending[call].lock.Some?
  }

  lemma SettledCleanup(s: State, step: Step, call: nat)
    requires IsEnabled(s, step) && IsCleaningUp(s, call) && SettledCall(step) == Some(call)
    ensures var t := SettleCall(s, step); IsCleaningUp(t, call) || (call in t.replies && call !in t.pending)
  {
    match step
    case FinishCloseRollback(_, ok) =>
    case FinishClose(_) =>
  }

  lemma CleanupStays(s: State, step: Step, call: nat)
    requires Inv(s) && IsEnabled(s, step) && IsCleaningUp(s, call)
    ensures var t := Apply(s, step); IsCleaningUp(t, call) || (call in t.replies && call !in t.pending)
  {
    if SettledCall(step) == Some(call) {
      SettledCleanup(s, step, call);
    } else {
      assert IsUntouched(s, Apply(s, step), call);
    }
  }

  /**
   From the moment a close request is cleaning up until it is answered, whatever runs in between, no
   other connection is handed out.
   */
  lemma {:induction false} CloseKeepsOthersOut(s: State, steps: seq<Step>, call: nat, c: nat)
    requires Inv(s) && IsRun(s, steps) && IsCleaningUp(s, call) && call in RunAll(s, steps).pending
    ensures !CanGrant(RunAll(s, steps), c)
    decreases |steps|
  {
    if steps == [] {
      HolderKeepsWaitersOff(s, s.pending[call].lock.value, c);
    } else {
      var t := Apply(s, steps[0]);
      StepKeepsInv(s, steps[0]);
      CleanupStays(s, steps[0], call);
      if IsCleaningUp(t, call) {
        CloseKeepsOthersOut(t, steps[1..], call, c);
      } else {
        AnswersAreFinal(t, steps[1..], call);
      }
    }
  }

  // ---------- the sweep does not wait ----------

  lemma SweepFreesNoNewLock(s: State, swept: set<nat>, throwsAt: Option<nat>, k: nat)
    requires swept <= s.connections.Keys <= s.history.Keys
    requires IsGrantedUnreleased(SweepEntries(s, swept, throwsAt), k)
    ensures IsGrantedUnreleased(s, k) && !(HasLock(s.connections, k) && k in swept && s.connections[k].lock == Some(k))
  {
  }

  lemma SweptHolderFreesTheLock(s: State, now: int, throwsAt: Option<nat>, j: nat, k: nat)
    requires Inv(s) && s.serial && IsWellTyped(s)
    requires HasLock(s.connections, j) && j in SweptBy(s.connections, now, throwsAt)
    ensures !IsGrantedUnreleased(Sweep(s, now, throwsAt), k)
  {
    if IsGrantedUnreleased(Sweep(s, now, throwsAt), k) {
      SweepFreesNoNewLock(s, SweptBy(s.connections, now, throwsAt), throwsAt, k);
      OneHolder(s, j, k);
    }
  }

  lemma OneHolder(s: State, j: nat, k: nat)
    requires Inv(s) && HasLock(s.connections, j) && IsGrantedUnreleased(s, k)
    ensures j == k
  {
    assert IsGrantedUnreleased(s, j);
    GrantedAfterEarlier(s, k);
    GrantedAfterEarlier(s, j);
  }

  lemma QueueingGrantsNothing(s: State, k: nat)
    requires IsGrantedUnreleased(DrawTicket(s), k) && s.nextCall !in s.pending
    ensures IsGrantedUnreleased(s, k)
  {
    var t := DrawTicket(s);
    if !(k in s.connections && s.connections[k].lock == Some(k)) {
      var c :| c in t.pending && !t.pending[c].Waiting? && TicketOf(t.pending[c]) == Some(k);
      assert c in s.pending && s.pending[c] == t.pending[c];
    }
  }

  lemma AcquireFreesTheLock(s: State, now: int, throwsAt: Option<nat>, factoryOk: bool, j: nat, k: nat)
    requires Inv(s) && s.serial && IsWellTyped(s)
    requires HasLock(s.connections, j) && j in SweptBy(s.connections, now, throwsAt)
    ensures !IsGrantedUnreleased(Acquire(s, now, throwsAt, factoryOk), k)
  {
    SweptHolderFreesTheLock(s, now, throwsAt, j, k);
    var t := Sweep(s, now, throwsAt);
    if !throwsAt.Some? && factoryOk {
      if IsGrantedUnreleased(DrawTicket(t), k) { QueueingGrantsNothing(t, k); }
    } else {
      assert IsGrantedUnreleased(AnswerNew(t, Failure(AdapterErr)), k) ==> IsGrantedUnreleased(t, k);
    }
  }

  lemma ClosedHolderKeepsTheLock(s: State, j: nat)
    requires Inv(s) && IsWellTyped(s) && HasLock(s.connections, j)
    ensures IsGrantedUnreleased(CloseEntry(s, j), j)
  {
    var t := CloseEntry(s, j);
    assert s.nextCall in t.pending && TicketOf(t.pending[s.nextCall]) == Some(j);
  }

  /** How a live manager takes an entry out of its table. */
  predicate TakesOut(s: State, step: Step, j: nat) {
    || step == CallClose(j)
    || (step.TimerSweep? && j in SweptBy(s.connections, step.now, step.throwsAt))
    || (step.CallAcquire? && j in SweptBy(s.connections, step.now, step.throwsAt))
  }

  lemma AcquireTakesOut(s: State, now: int, throwsAt: Option<nat>, factoryOk: bool, j: nat)
    requires IsWellTyped(s) && j in s.connections && j !in SweptBy(s.connections, now, throwsAt)
    ensures j in Acquire(s, now, throwsAt, factoryOk).connections
  {
    assert j in Sweep(s, now, throwsAt).connections;
  }

  lemma CloseTakesOut(s: State, conn: int, j: nat)
    requires IsWellTyped(s) && j in s.connections && conn != j
    ensures j in StartClose(s, conn).connections
  {
  }

  lemma RequestTakesOut(s: State, step: Step, j: nat)
    requires Inv(s) && IsEnabled(s, step) && IsRequest(step)
    requires j in s.connections && !TakesOut(s, step, j)
    ensures j in ApplyRequest(s, step).connections
  {
    match step
    case CallMalformed =>
    case CallUnknown =>
    case CallAcquire(now, throwsAt, factoryOk) => AcquireTakesOut(s, now, throwsAt, factoryOk, j);
    case CallOperation(op, conn, now) => assert j in StartOperation(s, op, conn, now).connections;
    case CallClose(conn) => CloseTakesOut(s, conn, j);
  }

  lemma SettlingTakesNothingOut(s: State, step: Step, j: nat)
    requires Inv(s) && IsEnabled(s, step) && SettledCall(step).Some?
    requires j in s.connections
    ensures j in SettleCall(s, step).connections
  {
    hide ConnectionsSeparate, TicketsKept, TransactionsTracked;
  }

  lemma OwnStepTakesOut(s: State, step: Step, j: nat)
    requires Inv(s) && IsEnabled(s, step) && !IsRequest(step) && SettledCall(step).None?
    requires j in s.connections && j !in ApplyOwn(s, step).connections
    ensures TakesOut(s, step, j) || s.IsShutDown()
  {
  }

  lemma LeavesByCloseOrSweep(s: State, step: Step, j: nat)
    requires Inv(s) && IsEnabled(s, step) && !s.IsShutDown()
    requires j in s.connections && j !in Apply(s, step).connections
    ensures TakesOut(s, step, j) && SettledCall(step).None?
  {
    if IsRequest(step) {
      if !TakesOut(s, step, j) { RequestTakesOut(s, step, j); }
    } else if SettledCall(step).Some? {
      SettlingTakesNothingOut(s, step, j);
    } else {
      OwnStepTakesOut(s, step, j);
    }
  }

  lemma LockAfterLeaving(s: State, step: Step, j: nat)
    requires Inv(s) && s.serial && IsEnabled(s, step) && TakesOut(s, step, j) && HasLock(s.connections, j)
    ensures (exists k :: IsGrantedUnreleased(Apply(s, step), k)) <==> step.CallClose?
  {
    match step
    case CallClose(_) =>
      ClosedHolderKeepsTheLock(s, j);
      assert Apply(s, step) == CloseEntry(s, j);
    case TimerSweep(now, throwsAt) =>
      forall k: nat ensures !IsGrantedUnreleased(Sweep(s, now, throwsAt), k) {
        SweptHolderFreesTheLock(s, now, throwsAt, j, k);
      }
    case CallAcquire(now, throwsAt, factoryOk) =>
      forall k: nat ensures !IsGrantedUnreleased(Acquire(s, now, throwsAt, factoryOk), k) {
        AcquireFreesTheLock(s, now, throwsAt, factoryOk, j, k);
      }
  }

  /**
   When the holder of the lock leaves the table of a live manager while somebody waits, the next
   waiter can go on before the rollback and close of the holder are over exactly if a sweep took it.
   */
  lemma OverlapsIffSwept(s: State, step: Step, j: nat, waiter: nat)
    requires Inv(s) && s.serial && !s.IsShutDown() && IsEnabled(s, step)
    requires HasLock(s.connections, j) && j !in Apply(s, step).connections
    requires waiter in s.pending && s.pending[waiter].Waiting?
    ensures (exists c :: CanGrant(Apply(s, step), c)) <==> !step.CallClose?
  {
    StepKeepsInv(s, step);
    LeavesByCloseOrSweep(s, step, j);
    assert IsUntouched(s, Apply(s, step), waiter);
    LockIsFreeOrHeld(Apply(s, step), waiter);
    LockAfterLeaving(s, step, j);
  }

  // ---------- a run in which it happens ----------

  /** A run from `start` that obeys `duty` leads to `s`. */
  ghost predicate Reaches(start: State, steps: seq<Step>, duty: Duty, s: State) {
    Inv(start) && IsRun(start, steps) && RunObeys(start, steps, duty) && RunAll(start, steps) == s && Inv(s)
  }

  lemma LastStepObeys(s: State, last: Step, duty: Duty)
    requires IsEnabled(s, last) && Obeys(s, last, duty)
    ensures IsRun(s, [last]) && RunObeys(s, [last], duty)
  {
    assert [last][1..] == [];
    assert IsRun(Apply(s, last), []) && RunObeys(Apply(s, last), [], duty);
  }

  lemma ReachesOn(start: State, steps: seq<Step>, duty: Duty, s: State, last: Step) returns (steps': seq<Step>, t: State)
    requires Reaches(start, steps, duty, s) && IsEnabled(s, last) && Obeys(s, last, duty)
    ensures Reaches(start, steps', duty, t) && t == Apply(s, last)
  {
    steps' := steps + [last];
    t := ExtendRun(start, steps, last);
    LastStepObeys(s, last, duty);
    DutyConcatenates(start, steps, [last], duty);
  }

  /** Connection 1 is inside a transaction, and nothing else has happened. */
  ghost predicate OneHasBegun(s: State) {
    && IsIdle(s) && s.serial && s.nextTicket == 2 && s.nextConnId == 2 && s.released == {0}
    && s.connections == map[1 := TrackedAdapter(0, false, true, Some(1))]
  }

  lemma OneBegins() returns (steps: seq<Step>, s: State)
    ensures Reaches(Init(true), steps, IsFresh, s) && OneHasBegun(s)
  {
    NothingDoneYet(IsFresh);
    steps, s := LeadsToConnect([], IsFresh, Init(true));
    steps, s := LeadsToBegin(steps, IsFresh, s, 1, true);
  }

  /** Connection 2 waits while connection 1 is inside a transaction. */
  ghost predicate OneBlocks(s: State, call: nat) {
    && Inv(s) && s.serial && s.closer.NotClosing? && s.cleanups == map[] && s.released == {0}
    && s.connections == map[1 := TrackedAdapter(0, false, true, Some(1))] && s.pending == map[call := Waiting(2, 2)]
  }

  /** Connection 1 is being rolled back by a sweep, and connection 2 still waits. */
  ghost predicate OneIsSwept(s: State, call: nat) {
    && Inv(s) && s.serial && s.closer.NotClosing? && s.cleanups == map[1 := RollingBack] && s.released == {0, 1}
    && s.connections == map[] && s.pending == map[call := Waiting(2, 2)]
  }

  lemma SweepOfOne(s: State, e: TrackedAdapter) returns (t: State)
    requires IsWellTyped(s) && s.connections == map[1 := e] && s.cleanups == map[]
    requires IsStale(e, 60_001) && e.inTransaction && e.lock == Some(1)
    ensures t == Sweep(s, 60_001, None)
    ensures t.connections == map[] && t.released == s.released + {1} && t.cleanups == map[1 := RollingBack]
    ensures t.pending == s.pending && t.serial == s.serial && t.closer == s.closer
  {
    assert SweptBy(s.connections, 60_001, None) == {1};
    t := SweepEntries(s, {1}, None);
    assert LocksOf(s.connections, {1}) == {1};
  }

  lemma SweepTakesOne(s: State, call: nat)
    requires OneBlocks(s, call)
    ensures IsEnabled(s, TimerSweep(60_001, None)) && OneIsSwept(Apply(s, TimerSweep(60_001, None)), call)
  {
    hide CallsAnsweredOnce, ConnectionsSeparate, IdsNeverReused, TicketsKept, TransactionsTracked;
    InvIsWellTyped(s);
    StepKeepsInv(s, TimerSweep(60_001, None));
    var t := SweepOfOne(s, s.connections[1]);
    assert t == Apply(s, TimerSweep(60_001, None));
  }

  /** Connection 1 is still being rolled back while connection 2 has been handed out. */
  ghost predicate TwoIsIn(s: State) {
    && Inv(s) && s.serial && s.closer.NotClosing? && s.cleanups == map[1 := RollingBack]
    && s.connections == map[2 := TrackedAdapter(0, false, false, Some(2))] && s.pending == map[]
  }

  lemma TwoGoesOn(s: State, call: nat)
    requires OneIsSwept(s, call)
    ensures IsEnabled(s, Grant(call, 0)) && TwoIsIn(Apply(s, Grant(call, 0)))
  {
    var t := WaiterGoesOn(s, call, 0);
    assert t.pending == map[];
  }

  lemma TwoBegins(s: State) returns (t: State)
    requires TwoIsIn(s)
    ensures IsEnabled(s, CallOperation(Begin, 2, 0)) && t == Apply(s, CallOperation(Begin, 2, 0))
    ensures IsEnabled(t, FinishOperation(s.nextCall, true, 0))
    ensures RollsBackBeside(Apply(t, FinishOperation(s.nextCall, true, 0)), 1, 2)
  {
    InvIsWellTyped(s);
    t := BeginIsSent(s, 2);
    InvIsWellTyped(t);
    var u := SettledTransaction(s, t, 2, true);
    var _ := BeginReturns(t, 2, s.nextCall, true);
  }

  /** A sweep is still rolling back `i` while `j` is inside a transaction. */
  ghost predicate RollsBackBeside(s: State, i: nat, j: nat) {
    !s.IsShutDown() && i in s.cleanups && s.cleanups[i].RollingBack? && j in s.connections && s.connections[j].inTransaction
  }

  /**
   The run: connection 1 begins and is then left alone for a minute while connection 2 waits. The
   sweep hands connection 2 out at once, and it begins while connection 1 is still being rolled back,
   although every begin was fresh.
   */
  lemma SweptTransactionOverlaps() returns (steps: seq<Step>)
    ensures IsRun(Init(true), steps) && IsFreshRun(Init(true), steps)
    ensures RollsBackBeside(RunAll(Init(true), steps), 1, 2)
  {
    var s;
    steps, s := OneBegins();
    var call := s.nextCall;
    var _ := AcquireQueues(s);
    steps, s := ReachesOn(Init(true), steps, IsFresh, s, CallAcquire(0, None, true));
    SweepTakesOne(s, call);
    steps, s := ReachesOn(Init(true), steps, IsFresh, s, TimerSweep(60_001, None));
    TwoGoesOn(s, call);
    steps, s := ReachesOn(Init(true), steps, IsFresh, s, Grant(call, 0));
    call := s.nextCall;
    var _ := TwoBegins(s);
    steps, s := ReachesOn(Init(true), steps, IsFresh, s, CallOperation(Begin, 2, 0));
    steps, s := ReachesOn(Init(true), steps, IsFresh, s, FinishOperation(call, true, 0));
  }
}
