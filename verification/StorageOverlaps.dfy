/**
 Runs from the initial state that break the exclusion of transactions: each of the two duties of a
 caller is needed, and a sweep lets the next connection in while it is still rolling back.
 */
module StorageOverlaps {
  import opened Wrappers
  import opened StorageProtocol
  import opened StorageSafety
  import opened StorageExclusion
  import opened StorageRuns

  // ---------- both duties are needed ----------

  lemma {:induction false} DutyConcatenates(s: State, first: seq<Step>, second: seq<Step>, duty: Duty)
    requires IsRun(s, first) && IsRun(RunAll(s, first), second) && IsRun(s, first + second)
    requires RunObeys(s, first, duty) && RunObeys(RunAll(s, first), second, duty)
    ensures RunObeys(s, first + second, duty)
    decreases |first|
  {
    if first == [] {
      assert first + second == second;
    } else {
      assert (first + second)[1..] == first[1..] + second;
      DutyConcatenates(Apply(s, first[0]), first[1..], second, duty);
    }
  }

  lemma TwoStepsObey(s: State, first: Step, second: Step, duty: Duty)
    requires IsRun(s, [first, second]) && Obeys(s, first, duty) && Obeys(Apply(s, first), second, duty)
    ensures RunObeys(s, [first, second], duty)
  {
    var t := Apply(s, first);
    assert [first, second][1..] == [second] && [second][1..] == [];
    assert RunObeys(Apply(t, second), [], duty) && RunObeys(t, [second], duty);
  }

  /** A run that obeys `duty` so far goes on to an idle state. */
  ghost predicate Leads(steps: seq<Step>, duty: Duty, s: State) {
    && IsRun(Init(true), steps) && RunAll(Init(true), steps) == s
    && RunObeys(Init(true), steps, duty) && IsIdle(s) && s.serial
  }

  lemma LeadsOn(steps: seq<Step>, duty: Duty, s: State, first: Step, second: Step)
    requires Leads(steps, duty, s)
    requires IsRun(s, [first, second]) && IsIdle(RunAll(s, [first, second])) && RunAll(s, [first, second]).serial
    requires Obeys(s, first, duty) && !second.CallOperation?
    ensures Leads(steps + [first, second], duty, RunAll(s, [first, second]))
  {
    TwoStepsObey(s, first, second, duty);
    RunsConcatenate(Init(true), steps, [first, second]);
    DutyConcatenates(Init(true), steps, [first, second], duty);
  }

  lemma LeadsToConnect(steps: seq<Step>, duty: Duty, s: State) returns (steps': seq<Step>, t: State)
    requires Leads(steps, duty, s) && s.nextTicket - 1 in s.released
    ensures Leads(steps', duty, t) && t.nextConnId == s.nextConnId + 1 && t.nextTicket == s.nextTicket + 1
    ensures t.connections == s.connections[s.nextConnId := TrackedAdapter(0, false, false, Some(s.nextTicket))]
    ensures t.history == s.history[s.nextConnId := []] && t.released == s.released
  {
    t := ConnectOne(s);
    steps' := steps + ConnectRun(s);
    LeadsOn(steps, duty, s, CallAcquire(0, None, true), Grant(s.nextCall, 0));
  }

  lemma LeadsToBegin(steps: seq<Step>, duty: Duty, s: State, id: nat, ok: bool) returns (steps': seq<Step>, t: State)
    requires Leads(steps, duty, s) && id in s.connections && id in s.history
    requires Obeys(s, CallOperation(Begin, id, 0), duty)
    ensures Leads(steps', duty, t) && t.nextConnId == s.nextConnId && t.nextTicket == s.nextTicket
    ensures t.connections == s.connections[id := AfterOperation(s.connections[id], Begin, ok, 0)]
    ensures t.history == s.history[id := s.history[id] + if ok then [Began] else []]
    ensures t.released == if ok then s.released else Release(s.released, s.connections[id].lock)
  {
    t := BeginOne(s, id, ok);
    steps' := steps + BeginRun(s, id, ok);
    LeadsOn(steps, duty, s, CallOperation(Begin, id, 0), FinishOperation(s.nextCall, ok, 0));
  }

  lemma NothingDoneYet(duty: Duty)
    ensures Leads([], duty, Init(true))
  {
    InitInv(true);
  }

  ghost predicate IsOpen(s: State, i: nat) {
    i in s.history && InOpenTransaction(s.history[i])
  }

  /** Two different connections have begun and nobody has tried to end either transaction. */
  ghost predicate TwoAreOpen(s: State) {
    !s.IsShutDown() && exists i, j :: i != j && IsOpen(s, i) && IsOpen(s, j)
  }

  lemma SecondBeginOverlaps(steps: seq<Step>, duty: Duty, s: State, first: nat, second: nat, late: nat)
    returns (steps': seq<Step>)
    requires Leads(steps, duty, s) && late in {first, second} && first != second
    requires late in s.connections && first in s.history && second in s.history
    requires Obeys(s, CallOperation(Begin, late, 0), duty)
    requires InOpenTransaction(s.history[if late == first then second else first])
    ensures IsRun(Init(true), steps') && RunObeys(Init(true), steps', duty) && TwoAreOpen(RunAll(Init(true), steps'))
  {
    var t;
    steps', t := LeadsToBegin(steps, duty, s, late, true);
    CleanAfterCall(s.history[late], Began);
    assert IsOpen(t, first) && IsOpen(t, second);
  }

  /**
   No begin is nested, but one is sent again on a connection whose first begin failed: by then the
   lock has been passed on, and two transactions are open.
   */
  lemma RetryWithoutTheLockOverlaps() returns (steps: seq<Step>)
    ensures IsRun(Init(true), steps) && RunObeys(Init(true), steps, IsOutside) && TwoAreOpen(RunAll(Init(true), steps))
  {
    NothingDoneYet(IsOutside);
    var s;
    steps, s := LeadsToConnect([], IsOutside, Init(true));
    steps, s := LeadsToBegin(steps, IsOutside, s, 1, false);
    steps, s := LeadsToConnect(steps, IsOutside, s);
    steps, s := LeadsToBegin(steps, IsOutside, s, 2, true);
    CleanAfterCall([], Began);
    steps := SecondBeginOverlaps(steps, IsOutside, s, 1, 2, 1);
  }

  /**
   Every begin finds the lock held, but one is nested and fails: it gives up the lock of the
   transaction that is open around it, and the next connection begins beside it.
   */
  lemma NestedBeginOverlaps() returns (steps: seq<Step>)
    ensures IsRun(Init(true), steps) && RunObeys(Init(true), steps, HasTheLock) && TwoAreOpen(RunAll(Init(true), steps))
  {
    hide IdsNeverReused, TransactionsTracked, ShutdownOrderly;
    NothingDoneYet(HasTheLock);
    var s;
    steps, s := LeadsToConnect([], HasTheLock, Init(true));
    steps, s := LeadsToBegin(steps, HasTheLock, s, 1, true);
    CleanAfterCall([], Began);
    steps, s := LeadsToBegin(steps, HasTheLock, s, 1, false);
    steps, s := LeadsToConnect(steps, HasTheLock, s);
    steps := SecondBeginOverlaps(steps, HasTheLock, s, 1, 2, 2);
  }
}
