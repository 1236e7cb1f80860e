/**
 Short runs of the storage protocol from which longer ones are put together: acquiring a connection
 and beginning a transaction while the manager is live and no call is suspended.
 */
module StorageRuns {
  import opened Wrappers
  import opened StorageProtocol
  import opened StorageSafety

  lemma {:induction false} RunsConcatenate(s: State, first: seq<Step>, second: seq<Step>)
    requires IsRun(s, first) && IsRun(RunAll(s, first), second)
    ensures IsRun(s, first + second) && RunAll(s, first + second) == RunAll(RunAll(s, first), second)
    decreases |first|
  {
    hide Apply, IsEnabled;
    if first == [] {
      assert first + second == second;
    } else {
      RunsConcatenate(Apply(s, first[0]), first[1..], second);
      assert (first + second)[1..] == first[1..] + second;
    }
  }

  lemma TwoSteps(s: State, first: Step, second: Step)
    requires IsEnabled(s, first) && IsEnabled(Apply(s, first), second)
    ensures IsRun(s, [first, second])
    ensures RunAll(s, [first, second]) == Apply(Apply(s, first), second)
  {
    var t := Apply(s, first);
    assert [first, second][1..] == [second] && [second][1..] == [];
    assert IsRun(Apply(t, second), []) && IsRun(t, [second]);
    assert RunAll(t, [second]) == RunAll(Apply(t, second), []);
  }

  /** A live manager with no call suspended, no cleanup in flight and no entry for a sweep at time 0. */
  ghost predicate IsIdle(s: State) {
    && Inv(s) && s.closer.NotClosing? && s.pending == map[] && s.cleanups == map[]
    && forall i :: i in s.connections ==> s.connections[i].lastUsed == 0
  }

  // ---------- beginning ----------

  function BeginRun(s: State, id: nat, ok: bool): seq<Step> {
    [CallOperation(Begin, id, 0), FinishOperation(s.nextCall, ok, 0)]
  }

  lemma BeginIsSent(s: State, id: nat) returns (t: State)
    requires Inv(s) && s.closer.NotClosing? && s.pending == map[] && id in s.connections
    ensures IsEnabled(s, CallOperation(Begin, id, 0)) && t == Apply(s, CallOperation(Begin, id, 0))
    ensures Inv(t) && t == RunOperation(s, Begin, id, 0)
  {
    InvIsWellTyped(s);
    StepKeepsInv(s, CallOperation(Begin, id, 0));
    t := Apply(s, CallOperation(Begin, id, 0));
  }

  lemma BeginReturns(s: State, id: nat, call: nat, ok: bool) returns (t: State)
    requires Inv(s) && id in s.connections && s.pending == map[call := Running(id, Begin)]
    ensures IsEnabled(s, FinishOperation(call, ok, 0)) && t == Apply(s, FinishOperation(call, ok, 0))
    ensures Inv(t) && t == SettleOperation(s, call, ok, 0)
  {
    InvIsWellTyped(s);
    StepKeepsInv(s, FinishOperation(call, ok, 0));
    t := Apply(s, FinishOperation(call, ok, 0));
  }

  lemma SettledTransaction(s: State, u: State, id: nat, ok: bool) returns (t: State)
    requires IsWellTyped(s) && id in s.connections && s.pending == map[]
    requires u == RunOperation(s, Begin, id, 0) && IsWellTyped(u)
    ensures t == SettleOperation(u, s.nextCall, ok, 0)
    ensures t.pending == map[] && t.closer == s.closer && t.cleanups == s.cleanups && t.serial == s.serial
    ensures t.connections == s.connections[id := AfterOperation(s.connections[id], Begin, ok, 0)]
    ensures t.history == s.history[id := s.history[id] + if ok then [Began] else []]
    ensures t.released == if ok then s.released else Release(s.released, s.connections[id].lock)
    ensures t.nextConnId == s.nextConnId && t.nextTicket == s.nextTicket
  {
    assert s.history[id] + [] == s.history[id];
    t := SettleOperation(u, s.nextCall, ok, 0);
  }

  lemma BeginOne(s: State, id: nat, ok: bool) returns (t: State)
    requires IsIdle(s) && id in s.connections && id in s.history
    ensures IsRun(s, BeginRun(s, id, ok)) && t == RunAll(s, BeginRun(s, id, ok))
    ensures IsIdle(t) && t.serial == s.serial
    ensures t.connections == s.connections[id := AfterOperation(s.connections[id], Begin, ok, 0)]
    ensures t.history == s.history[id := s.history[id] + if ok then [Began] else []]
    ensures t.released == if ok then s.released else Release(s.released, s.connections[id].lock)
    ensures t.nextConnId == s.nextConnId && t.nextTicket == s.nextTicket
  {
    hide CallsAnsweredOnce, ConnectionsSeparate, ClosesAreClean, Tickets, Transactions;
    InvIsWellTyped(s);
    var u := BeginIsSent(s, id);
    InvIsWellTyped(u);
    t := SettledTransaction(s, u, id, ok);
    var _ := BeginReturns(u, id, s.nextCall, ok);
    TwoSteps(s, CallOperation(Begin, id, 0), FinishOperation(s.nextCall, ok, 0));
  }

  // ---------- acquiring ----------

  lemma NothingIsSwept(s: State)
    requires IsWellTyped(s) && forall i :: i in s.connections ==> s.connections[i].lastUsed == 0
    ensures Sweep(s, 0, None) == s
  {
    var t := Sweep(s, 0, None);
    assert SweptBy(s.connections, 0, None) == {};
    assert t.connections == s.connections && t.cleanups == s.cleanups && t.history == s.history;
    assert t.released == s.released;
  }

  function ConnectRun(s: State): seq<Step> {
    [CallAcquire(0, None, true), Grant(s.nextCall, 0)]
  }

  lemma AcquireQueues(s: State) returns (t: State)
    requires IsIdle(s) && s.serial
    ensures IsEnabled(s, CallAcquire(0, None, true)) && t == Apply(s, CallAcquire(0, None, true))
    ensures Inv(t) && t == DrawTicket(s)
  {
    InvIsWellTyped(s);
    NothingIsSwept(s);
    StepKeepsInv(s, CallAcquire(0, None, true));
    t := Apply(s, CallAcquire(0, None, true));
  }

  lemma WaiterGoesOn(s: State, call: nat, now: int) returns (t: State)
    requires Inv(s) && CanGrant(s, call) && s.closer.NotClosing?
    ensures IsEnabled(s, Grant(call, now)) && t == Apply(s, Grant(call, now))
    ensures Inv(t) && t == Admit(s, call, now)
  {
    InvIsWellTyped(s);
    StepKeepsInv(s, Grant(call, now));
    t := Apply(s, Grant(call, now));
  }

  lemma AdmittedWaiter(s: State) returns (t: State)
    requires IsIdle(s) && s.serial && s.nextTicket - 1 in s.released && IsWellTyped(DrawTicket(s))
    ensures CanGrant(DrawTicket(s), s.nextCall)
    ensures t == Admit(DrawTicket(s), s.nextCall, 0)
    ensures t.pending == map[] && t.closer == s.closer && t.cleanups == s.cleanups && t.serial
    ensures t.connections == s.connections[s.nextConnId := TrackedAdapter(0, false, false, Some(s.nextTicket))]
    ensures t.history == s.history[s.nextConnId := []] && t.released == s.released
    ensures t.nextConnId == s.nextConnId + 1 && t.nextTicket == s.nextTicket + 1
  {
    t := Admit(DrawTicket(s), s.nextCall, 0);
  }

  lemma ConnectOne(s: State) returns (t: State)
    requires IsIdle(s) && s.serial && s.nextTicket - 1 in s.released
    ensures IsRun(s, ConnectRun(s)) && t == RunAll(s, ConnectRun(s))
    ensures IsIdle(t) && t.serial
    ensures t.connections == s.connections[s.nextConnId := TrackedAdapter(0, false, false, Some(s.nextTicket))]
    ensures t.history == s.history[s.nextConnId := []] && t.released == s.released
    ensures t.nextConnId == s.nextConnId + 1 && t.nextTicket == s.nextTicket + 1
  {
    var u := AcquireQueues(s);
    InvIsWellTyped(u);
    t := AdmittedWaiter(s);
    var _ := WaiterGoesOn(u, s.nextCall, 0);
    TwoSteps(s, CallAcquire(0, None, true), Grant(s.nextCall, 0));
  }
}
