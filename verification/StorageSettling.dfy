/**
 Shutdown settles. Completion steps - adapter calls returning and waiters going on - use up a
 finite amount of work, and when none is left a manager that is shutting down has answered every
 call, refused every waiter and closed its table.
 */
module StorageSettling {
  import opened Wrappers
  import opened StorageProtocol
  import opened StorageTickets
  import opened StorageSafety
  import opened StorageTheorems

  /** Steps that no new request is needed for. */
  predicate IsCompletion(step: Step) {
    || step.Grant? || step.FinishOperation? || step.FinishCloseRollback? || step.FinishClose?
    || step.FinishSweepRollback? || step.FinishSweepClose?
    || step.FinishDrain? || step.FinishVisitRollback? || step.FinishVisitClose?
  }

  ghost predicate IsSettled(s: State) {
    forall step :: IsCompletion(step) ==> !IsEnabled(s, step)
  }

  // ---------- nothing is stuck ----------

  predicate IsDone(s: State) {
    s.pending == map[] && s.cleanups == map[] && s.closer.Closed?
  }

  /** The completion that a suspended call other than a waiting acquire is due. */
  function CompletionOf(p: Pending, call: nat): Step {
    match p
    case Waiting(_, _) => Grant(call, 0)
    case Running(_, _) => FinishOperation(call, true, 0)
    case ClosingRollback(_, _) => FinishCloseRollback(call, true)
    case ClosingClose(_, _) => FinishClose(call)
  }

  lemma SomeCallCanGoOn(s: State) returns (step: Step)
    requires Inv(s) && IsWellTyped(s) && s.IsShutDown() && s.pending != map[]
    ensures IsCompletion(step) && IsEnabled(s, step)
  {
    hide TicketsKept, TransactionsTracked, InOpenTransaction, Bookkeeping;
    var c :| c in s.pending;
    if d :| d in s.pending && !s.pending[d].Waiting? {
      step := CompletionOf(s.pending[d], d);
    } else {
      QueueNeverSticks(s, c);
      var d :| CanGrant(s, d);
      step := Grant(d, 0);
    }
  }

  /** A manager that is shutting down is finished, or some completion is due. */
  lemma ShutdownNeverSticks(s: State) returns (step: Step)
    requires Inv(s) && s.IsShutDown()
    ensures IsDone(s) || (IsCompletion(step) && IsEnabled(s, step))
  {
    InvIsWellTyped(s);
    step := FinishDrain;
    if s.pending != map[] {
      step := SomeCallCanGoOn(s);
    } else if s.cleanups != map[] {
      var i :| i in s.cleanups;
      step := if s.cleanups[i].Closing? then FinishSweepClose(i) else FinishSweepRollback(i);
    } else if s.closer.VisitRollback? {
      step := FinishVisitRollback;
    } else if s.closer.VisitClose? {
      step := FinishVisitClose;
    }
  }

  // ---------- work runs out ----------

  function CallWork(pending: Calls): nat {
    |pending.Keys| + |RollingCalls(pending)|
  }

  function RollingCalls(pending: Calls): set<nat> {
    set c | c in pending && pending[c].ClosingRollback?
  }

  function CleanupWork(cleanups: map<nat, CleanupPhase>): nat {
    |cleanups.Keys| + |RollingCleanups(cleanups)|
  }

  function RollingCleanups(cleanups: map<nat, CleanupPhase>): set<nat> {
    set i | i in cleanups && cleanups[i].RollingBack?
  }

  function CloserWork(closer: Closer, connections: Table): nat {
    match closer
    case NotClosing => 0
    case Draining(_, _) => 2 * |connections.Keys| + 1
    case VisitRollback(conn) => 2 * |Above(connections, conn)| + 2
    case VisitClose(conn) => 2 * |Above(connections, conn)| + 1
    case Closed => 0
  }

  function Work(s: State): nat {
    CallWork(s.pending) + CleanupWork(s.cleanups) + CloserWork(s.closer, s.connections)
  }

  lemma DroppingACall(pending: Calls, call: nat)
    requires call in pending
    ensures CallWork(pending - {call}) < CallWork(pending)
  {
    var less := pending - {call};
    assert less.Keys == pending.Keys - {call};
    Subset(RollingCalls(less), RollingCalls(pending));
  }

  lemma Subset<T>(a: set<T>, b: set<T>)
    requires a <= b
    ensures |a| <= |b|
    ensures a < b ==> |a| < |b|
  {
    assert b == a + (b - a);
    if a < b { assert b - a != {}; }
  }

  lemma RollbackToClose(pending: Calls, call: nat, p: Pending)
    requires call in pending && pending[call].ClosingRollback? && !p.ClosingRollback?
    ensures CallWork(pending[call := p]) < CallWork(pending)
  {
    var next := pending[call := p];
    assert next.Keys == pending.Keys;
    assert call in RollingCalls(pending) && call !in RollingCalls(next);
    Subset(RollingCalls(next), RollingCalls(pending));
  }

  lemma CleanupAdvances(cleanups: map<nat, CleanupPhase>, i: nat)
    requires i in cleanups
    ensures CleanupWork(cleanups - {i}) < CleanupWork(cleanups)
    ensures cleanups[i].RollingBack? ==> CleanupWork(cleanups[i := Closing]) < CleanupWork(cleanups)
  {
    var less := cleanups - {i};
    assert less.Keys == cleanups.Keys - {i};
    Subset(RollingCleanups(less), RollingCleanups(cleanups));
    var next := cleanups[i := Closing];
    assert next.Keys == cleanups.Keys;
    if cleanups[i].RollingBack? { assert i in RollingCleanups(cleanups) && i !in RollingCleanups(next); }
    Subset(RollingCleanups(next), RollingCleanups(cleanups));
  }

  /** The closer's next visit, after a cursor below which it has nothing left, uses up two units. */
  lemma VisitAdvances(connections: Table, cursor: nat)
    requires Above(connections, cursor) != {}
    ensures |Above(connections, NextVisit(connections, cursor))| < |Above(connections, cursor)|
  {
    var id := NextVisit(connections, cursor);
    assert id in Above(connections, cursor);
    Subset(Above(connections, id), Above(connections, cursor));
  }

  lemma AboveIsPart(connections: Table, cursor: nat)
    ensures |Above(connections, cursor)| <= |connections.Keys|
  {
    Subset(Above(connections, cursor), connections.Keys);
  }

  lemma AdvanceUsesWork(s: State, cursor: nat)
    requires s.connections.Keys <= s.history.Keys
    ensures var t := Advance(s, cursor); CloserWork(t.closer, t.connections) <= 2 * |Above(s.connections, cursor)|
    ensures Advance(s, cursor).pending == s.pending && Advance(s, cursor).cleanups == s.cleanups
  {
    hide IsNextVisit;
    if Above(s.connections, cursor) != {} {
      VisitAdvances(s.connections, cursor);
    }
  }

  lemma OperationUsesWork(s: State, call: nat, ok: bool, now: int)
    requires IsWellTyped(s) && call in s.pending && s.pending[call].Running?
    ensures Work(SettleOperation(s, call, ok, now)) < Work(s)
  {
    var t := SettleOperation(s, call, ok, now);
    assert t.connections.Keys == s.connections.Keys;
    assert forall cursor :: Above(t.connections, cursor) == Above(s.connections, cursor);
    DroppingACall(s.pending, call);
  }

  lemma GrantUsesWork(s: State, call: nat, now: int)
    requires IsWellTyped(s) && CanGrant(s, call)
    ensures Work(GrantTicket(s, call, now)) < Work(s)
  {
    DroppingACall(s.pending, call);
  }

  lemma CloseRollbackUsesWork(s: State, call: nat, ok: bool)
    requires IsWellTyped(s) && call in s.pending && s.pending[call].ClosingRollback?
    ensures Work(SettleCloseRollback(s, call, ok)) < Work(s)
  {
    DroppingACall(s.pending, call);
    RollbackToClose(s.pending, call, ClosingClose(s.pending[call].conn, s.pending[call].lock));
  }

  lemma SettleCallUsesWork(s: State, step: Step)
    requires IsEnabled(s, step) && SettledCall(step).Some?
    ensures Work(SettleCall(s, step)) < Work(s)
  {
    match step
    case Grant(call, now) => GrantUsesWork(s, call, now);
    case FinishOperation(call, ok, now) => OperationUsesWork(s, call, ok, now);
    case FinishCloseRollback(call, ok) => CloseRollbackUsesWork(s, call, ok);
    case FinishClose(call) => DroppingACall(s.pending, call);
  }

  lemma CleanupStepUsesWork(s: State, step: Step)
    requires IsEnabled(s, step) && (step.FinishSweepRollback? || step.FinishSweepClose?)
    ensures Work(ApplyOwn(s, step)) < Work(s)
  {
    hide CallWork, CloserWork, IsWellTyped;
    CleanupAdvances(s.cleanups, step.swept);
  }

  lemma MovingOnUsesWork(s: State, cursor: nat)
    requires s.connections.Keys <= s.history.Keys
    requires (s.closer.Draining? && cursor == 0) || s.closer == VisitClose(cursor)
    ensures Work(Advance(s, cursor)) < Work(s)
  {
    AdvanceUsesWork(s, cursor);
    AboveIsPart(s.connections, cursor);
    hide Advance, CallWork, CleanupWork, Above;
  }

  lemma VisitRollbackUsesWork(s: State)
    requires s.closer.VisitRollback? && s.closer.conn in s.history
    ensures var t := s.(closer := VisitClose(s.closer.conn), history := Recorded(s.history, s.closer.conn, [CloseTried]));
      Work(t) < Work(s)
  {
    hide CallWork, CleanupWork, Above, Recorded;
  }

  lemma VisitStepUsesWork(s: State, step: Step)
    requires IsEnabled(s, step) && (step.FinishDrain? || step.FinishVisitRollback? || step.FinishVisitClose?)
    ensures Work(ApplyOwn(s, step)) < Work(s)
  {
    assert s.connections.Keys <= s.history.Keys;
    hide Work, IsWellTyped, Advance;
    match step
    case FinishDrain => MovingOnUsesWork(s, 0);
    case FinishVisitRollback => VisitRollbackUsesWork(s);
    case FinishVisitClose => MovingOnUsesWork(s, s.closer.conn);
  }

  lemma OwnStepUsesWork(s: State, step: Step)
    requires IsEnabled(s, step) && IsCompletion(step) && !IsRequest(step) && SettledCall(step).None?
    ensures Work(ApplyOwn(s, step)) < Work(s)
  {
    hide Work, ApplyOwn, IsEnabled;
    if step.FinishSweepRollback? || step.FinishSweepClose? {
      CleanupStepUsesWork(s, step);
    } else {
      VisitStepUsesWork(s, step);
    }
  }

  lemma CompletionUsesWork(s: State, step: Step)
    requires IsEnabled(s, step) && IsCompletion(step)
    ensures Work(Apply(s, step)) < Work(s)
  {
    if SettledCall(step).Some? { SettleCallUsesWork(s, step); } else { OwnStepUsesWork(s, step); }
  }

  /** However the completions are scheduled, there are at most `Work(s)` of them. */
  lemma {:induction false} CompletionsRunOut(s: State, steps: seq<Step>)
    requires IsRun(s, steps) && forall k :: 0 <= k < |steps| ==> IsCompletion(steps[k])
    ensures |steps| <= Work(s)
    decreases |steps|
  {
    if steps != [] {
      CompletionUsesWork(s, steps[0]);
      CompletionsRunOut(Apply(s, steps[0]), steps[1..]);
    }
  }

  // ---------- waiters are refused ----------

  /** Still waiting, or told that the manager is shutting down. */
  ghost predicate WaitsOrIsRefused(s: State, call: nat, p: Pending) {
    || (call in s.pending && s.pending[call] == p && call in s.replies && s.replies[call] == [])
    || (call !in s.pending && call in s.replies && s.replies[call] == [Failure(ShuttingDown)])
  }

  lemma StepRefusesWaiters(s: State, step: Step, call: nat, p: Pending)
    requires Bookkeeping(s) && s.IsShutDown() && IsEnabled(s, step) && p.Waiting? && WaitsOrIsRefused(s, call, p)
    ensures WaitsOrIsRefused(Apply(s, step), call, p)
  {
    if SettledCall(step) == Some(call) {
      RefusalAnswers(s, call);
    } else {
      assert IsUntouched(s, Apply(s, step), call);
    }
  }

  lemma RefusalAnswers(s: State, call: nat)
    requires IsWellTyped(s) && CanGrant(s, call) && s.replies[call] == []
    ensures var t := Refuse(s, call); call !in t.pending && call in t.replies && t.replies[call] == [Failure(ShuttingDown)]
  {
  }

  /** Every acquire queued at shutdown that is no longer waiting was answered SHUTTING_DOWN. */
  lemma {:induction false} ShutdownRefusesWaiters(s: State, steps: seq<Step>, call: nat, p: Pending)
    requires Inv(s) && s.IsShutDown() && IsRun(s, steps) && p.Waiting? && WaitsOrIsRefused(s, call, p)
    ensures WaitsOrIsRefused(RunAll(s, steps), call, p)
    decreases |steps|
  {
    if steps != [] {
      StepKeepsInv(s, steps[0]);
      StepRefusesWaiters(s, steps[0], call, p);
      ShutdownRefusesWaiters(Apply(s, steps[0]), steps[1..], call, p);
    }
  }

  /** No new serial connection is handed out after shutdown has started. */
  lemma {:induction false} ShutdownAdmitsNoSerialConnection(s: State, steps: seq<Step>)
    requires s.serial && s.IsShutDown() && IsRun(s, steps)
    ensures RunAll(s, steps).connections.Keys <= s.connections.Keys
    decreases |steps|
  {
    if steps != [] {
      ShutdownAdmitsNoSerialConnection(Apply(s, steps[0]), steps[1..]);
    }
  }

  /**
   The whole chain unwinds: a serial manager in which shutdown has started, whatever else happens in
   between, ends - once completions have run out - with an empty table and every queued acquire refused.
   */
  lemma ShutdownUnwindsTheQueue(s: State, steps: seq<Step>)
    requires Inv(s) && s.serial && s.IsShutDown() && IsRun(s, steps) && IsSettled(RunAll(s, steps))
    ensures var t := RunAll(s, steps);
      && t.connections == map[] && t.pending == map[] && t.closer.Closed?
      && forall c :: c in s.pending && s.pending[c].Waiting? ==> c in t.replies && t.replies[c] == [Failure(ShuttingDown)]
  {
    RunKeepsInv(s, steps);
    RunKeepsMode(s, steps);
    var t := RunAll(s, steps);
    var step := ShutdownNeverSticks(t);
    forall c | c in s.pending && s.pending[c].Waiting?
      ensures c in t.replies && t.replies[c] == [Failure(ShuttingDown)]
    {
      ShutdownRefusesWaiters(s, steps, c, s.pending[c]);
    }
  }
}
