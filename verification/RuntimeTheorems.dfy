/**
 What `submit`, `flush` and `shutdown` promise, over every run of the worker runtime.
 */
module RuntimeTheorems {
  import opened Wrappers
  import opened RuntimeProtocol
  import opened RuntimeSafety

  lemma Reachable<J>(capacity: nat, maxConcurrency: nat, workers: nat, steps: seq<Step<J>>)
    requires IsConfig(capacity, maxConcurrency, workers) && IsRun(Init(capacity, maxConcurrency, workers), steps)
    ensures Inv(RunAll(Init(capacity, maxConcurrency, workers), steps))
  {
    InitInv<J>(capacity, maxConcurrency, workers);
    RunKeepsInv(Init<J>(capacity, maxConcurrency, workers), steps);
  }

  // ---------- capacity and order ----------

  /** The backlog is bounded by the queue, the dispatcher's hand and the permits. */
  lemma UnfinishedIsBounded<J>(s: State<J>)
    requires Inv(s)
    ensures Unfinished(s) <= s.capacity + 1 + s.maxConcurrency
    ensures Unfinished(s) == |s.accepted| - |s.finishing| - |s.finished|
  {
    TasksAddUp(s);
  }

  lemma TasksAddUp<J>(s: State<J>)
    requires TasksPartition(s)
    ensures |s.running| + |s.finishing| + |s.finished| == |s.dispatched|
  {
    var all := s.running + s.finishing + s.finished;
    assert all == UpTo(|s.dispatched|);
    assert |s.running + s.finishing| == |s.running| + |s.finishing|;
    assert |all| == |s.running + s.finishing| + |s.finished|;
  }

  ghost function UpTo(n: nat): (r: set<nat>)
    ensures |r| == n && forall i :: i in r <==> 0 <= i < n
  {
    if n == 0 then {} else UpTo(n - 1) + {n - 1}
  }

  // ---------- flush ----------

  /**
   The counter reads zero exactly when the live jobs are as many as the submitters that have taken
   the queue slot but not yet counted it.
   */
  lemma ZeroMeansBalanced<J>(s: State<J>)
    requires Inv(s) && |s.counting| < USIZE
    ensures s.outstanding == 0 <==> Live(s) == |s.counting|
  {
    assert Balance(s) < USIZE && 0 < Balance(s) + USIZE;
  }

  ghost predicate AllFinished<J>(s: State<J>) {
    s.dispatched == s.accepted && forall i :: 0 <= i < |s.accepted| ==> i in s.finished
  }

  lemma NothingLiveMeansFinished<J>(s: State<J>)
    requires Inv(s) && Live(s) == 0
    ensures AllFinished(s)
  {
    assert s.running == {} && s.finishing == {} && s.queue == [];
    forall i | 0 <= i < |s.accepted| ensures i in s.finished {
      assert i in s.running + s.finishing + s.finished;
    }
  }

  /** With no submitter in that window, a flush that returns has seen every accepted job through. */
  lemma FlushWaitsForAll<J>(s: State<J>, deadlinePassed: bool)
    requires Inv(s) && s.counting == {}
    requires FlushPoll(s, deadlinePassed) == Some(Flushed) || FlushOnEntry(s) == Some(Flushed)
    ensures AllFinished(s)
  {
    ZeroMeansBalanced(s);
    NothingLiveMeansFinished(s);
  }

  /** So a flush that answers has seen every accepted job through exactly if nobody is in that window. */
  lemma FlushIsHonestExactly<J>(s: State<J>, deadlinePassed: bool)
    requires Inv(s) && |s.counting| < USIZE
    requires FlushPoll(s, deadlinePassed) == Some(Flushed) || FlushOnEntry(s) == Some(Flushed)
    ensures AllFinished(s) <==> s.counting == {}
  {
    ZeroMeansBalanced(s);
    if s.counting == {} { NothingLiveMeansFinished(s); }
    if AllFinished(s) { FinishedMeansNothingLive(s); }
  }

  lemma FinishedMeansNothingLive<J>(s: State<J>)
    requires Inv(s) && AllFinished(s)
    ensures Live(s) == 0
  {
    assert |s.accepted| == |s.dispatched| + |InHand(s.dispatcher)| + |s.queue|;
    assert forall i :: i in s.running + s.finishing + s.finished ==> 0 <= i < |s.accepted|;
    assert s.running <= s.finished && s.finishing <= s.finished;
    assert s.running * s.finished == {} && s.finishing * s.finished == {};
  }

  // ---------- shutdown ----------

  predicate IsClosed(s: State) {
    s.lifecycle.ShuttingDown? || s.lifecycle.Stopped?
  }

  lemma ClosedStaysClosed<J>(s: State<J>, step: Step<J>)
    requires Inv(s) && IsClosed(s) && IsEnabled(s, step)
    ensures IsClosed(Apply(s, step)) && Apply(s, step).accepted == s.accepted
    ensures Apply(s, step).counting <= s.counting
  {
  }

  /** Once the lifecycle says so, nothing more is accepted. */
  lemma {:induction false} NothingAcceptedAfterClose<J>(s: State<J>, steps: seq<Step<J>>)
    requires Inv(s) && IsClosed(s) && IsRun(s, steps)
    ensures IsClosed(RunAll(s, steps)) && RunAll(s, steps).accepted == s.accepted
    decreases |steps|
  {
    if steps != [] {
      StepKeepsInv(s, steps[0]);
      ClosedStaysClosed(s, steps[0]);
      NothingAcceptedAfterClose(Apply(s, steps[0]), steps[1..]);
    }
  }

  /** When the dispatcher has left, every job that was ever accepted has been handed to a task, in order. */
  lemma QueueIsDrained<J>(s: State<J>)
    requires Inv(s) && s.dispatcher.Exited?
    ensures s.dispatched == s.accepted
  {
  }

  ghost predicate DrainIsHonest<J>(s: State<J>) {
    IsClosed(s) && s.counting == {} && (s.dispatcher.Exited? ==> Live(s) == 0)
  }

  lemma StepKeepsDrainHonest<J>(s: State<J>, step: Step<J>)
    requires Inv(s) && DrainIsHonest(s) && IsEnabled(s, step)
    ensures DrainIsHonest(Apply(s, step))
  {
    ClosedStaysClosed(s, step);
    if step.ExitDrain? { ZeroMeansBalanced(s); }
  }

  /**
   If no submitter is between its send and its count when the queue is closed and not yet drained,
   then whenever a caller of `shutdown` returns, every accepted job has finished.
   */
  lemma {:induction false} ShutdownDrains<J>(s: State<J>, steps: seq<Step<J>>, caller: nat)
    requires Inv(s) && DrainIsHonest(s) && IsRun(s, steps)
    requires IsAt(RunAll(s, steps), caller, Returned)
    ensures AllFinished(RunAll(s, steps))
    decreases |steps|
  {
    if steps == [] {
      if s.dispatcher.Exited? { NothingLiveMeansFinished(s); }
    } else {
      StepKeepsInv(s, steps[0]);
      StepKeepsDrainHonest(s, steps[0]);
      ShutdownDrains(Apply(s, steps[0]), steps[1..], caller);
    }
  }

  /** At the moment the dispatcher leaves, every accepted job is through exactly if nobody is in that window. */
  lemma DrainIsHonestExactly<J>(s: State<J>)
    requires Inv(s) && IsEnabled(s, ExitDrain) && |s.counting| < USIZE
    ensures AllFinished(s) <==> s.counting == {}
  {
    FlushIsHonestExactly(s, false);
  }

  /** Among all callers one tears down; nobody returns early, and nobody waits for a teardown that is not there. */
  lemma OneCallerTearsDown<J>(s: State<J>, c: nat, d: nat)
    requires Inv(s) && c in s.callers && d in s.callers
    ensures IsTearingDown(s.callers[c]) && IsTearingDown(s.callers[d]) ==> c == d
    ensures s.callers[c].Returned? ==> s.stage.Done? && s.lifecycle.Stopped? && !IsTearingDown(s.callers[d])
    ensures s.callers[c].Waiting? ==> s.stage.Done? || exists e :: e in s.callers && IsTearingDown(s.callers[e])
  {
  }

  // ---------- the window matters ----------

  lemma RunStarts<J>(s: State<J>, step: Step<J>, rest: seq<Step<J>>)
    requires IsEnabled(s, step) && IsRun(Apply(s, step), rest)
    ensures IsRun(s, [step] + rest) && RunAll(s, [step] + rest) == RunAll(Apply(s, step), rest)
  {
    assert ([step] + rest)[1..] == rest;
  }

  lemma {:induction false} RunsConcatenate<J>(s: State<J>, first: seq<Step<J>>, second: seq<Step<J>>)
    requires IsRun(s, first) && IsRun(RunAll(s, first), second)
    ensures IsRun(s, first + second) && RunAll(s, first + second) == RunAll(RunAll(s, first), second)
    decreases |first|
  {
    if first == [] {
      assert first + second == second;
    } else {
      RunsConcatenate(Apply(s, first[0]), first[1..], second);
      assert (first + second)[1..] == first[1..] + second;
    }
  }

  /** A running runtime with nothing in flight, over the given logs. */
  function Idle<J>(capacity: nat, maxConcurrency: nat, workers: nat): State<J> {
    Init<J>(capacity, maxConcurrency, workers).(lifecycle := Running, sender := true, dispatcher := Receiving)
  }

  lemma StartsIdle<J>(capacity: nat, maxConcurrency: nat, workers: nat)
    ensures var s0 := Init<J>(capacity, maxConcurrency, workers); var steps := [OpenQueue] + ([BecomeRunning] + []);
      IsRun(s0, steps) && RunAll(s0, steps) == Idle<J>(capacity, maxConcurrency, workers)
  {
    var s0 := Init<J>(capacity, maxConcurrency, workers);
    var s1 := Apply(s0, OpenQueue);
    RunStarts(s1, BecomeRunning, []);
    RunStarts(s0, OpenQueue, [BecomeRunning] + []);
  }

  lemma TaskTakesJob<J>(s: State<J>, a: J)
    requires s == Idle<J>(s.capacity, s.maxConcurrency, s.workers) && 1 <= s.capacity && 1 <= s.maxConcurrency
    ensures var steps := [Submit(a)] + ([Receive] + ([Spawn] + []));
      && IsRun(s, steps)
      && RunAll(s, steps) == s.(accepted := [a], dispatched := [a], counting := {0}, running := {0}, permits := s.permits - 1)
  {
    var s1 := s.(queue := [a], accepted := [a], counting := {0});
    assert Apply(s, Submit(a)) == s1;
    var s2 := s1.(dispatcher := Holding(a), queue := []);
    assert Apply(s1, Receive) == s2;
    assert Apply(s2, Spawn) == s2.(permits := s.permits - 1, dispatched := [a], running := {0}, dispatcher := Receiving);
    RunStarts(s2, Spawn, []);
    RunStarts(s1, Receive, [Spawn] + []);
    RunStarts(s, Submit(a), [Receive] + ([Spawn] + []));
  }

  /** The job finishes before its submitter has counted it, so the counter wraps below zero. */
  lemma TaskFinishesUncounted<J>(s: State<J>)
    requires s.running == {0} && s.finishing == {} && s.finished == {} && 1 <= s.workers && s.outstanding == 0
    ensures var steps := [EndHandler(0)] + ([DropGuard(0)] + []);
      && IsRun(s, steps)
      && RunAll(s, steps) == s.(running := {}, finished := {0}, permits := s.permits + 1, outstanding := USIZE - 1)
  {
    var s1 := Apply(s, EndHandler(0));
    assert s1.running == {} && s1.finishing == {0};
    var s2 := Apply(s1, DropGuard(0));
    assert s2.finishing == {} && s2.finished == {0};
    RunStarts(s1, DropGuard(0), []);
    RunStarts(s, EndHandler(0), [DropGuard(0)] + []);
  }

  lemma SecondJobCancelsOut<J>(s: State<J>, b: J)
    requires s.lifecycle.Running? && s.sender && s.dispatcher.Receiving? && s.queue == [] && 1 <= s.capacity
    requires |s.accepted| == 1 && s.counting == {0} && s.outstanding == USIZE - 1
    ensures var steps := [Submit(b)] + ([Count(1)] + []);
      IsRun(s, steps) && RunAll(s, steps) == s.(queue := [b], accepted := s.accepted + [b], outstanding := 0)
  {
    var s1 := s.(queue := [b], accepted := s.accepted + [b], counting := {0, 1});
    assert Apply(s, Submit(b)) == s1;
    assert Apply(s1, Count(1)) == s1.(counting := {0}, outstanding := 0);
    RunStarts(s1, Count(1), []);
    RunStarts(s, Submit(b), [Count(1)] + []);
  }

  /** One job has finished uncounted, and a second one, accepted and counted, has not been received. */
  ghost predicate IsOffByOne<J>(s: State<J>, a: J, b: J) {
    && s.lifecycle.Running? && s.sender && !s.starting && s.stage.NotShutdown? && s.callers == map[]
    && s.dispatcher.Receiving? && s.outstanding == 0 && 1 <= s.permits && s.running == {} && s.counting == {0}
    && s.accepted == [a, b] && s.dispatched == [a] && s.queue == [b]
  }

  lemma GetsOffByOne<J>(capacity: nat, maxConcurrency: nat, workers: nat, a: J, b: J) returns (steps: seq<Step<J>>)
    requires IsConfig(capacity, maxConcurrency, workers)
    ensures IsRun(Init<J>(capacity, maxConcurrency, workers), steps)
    ensures IsOffByOne(RunAll(Init<J>(capacity, maxConcurrency, workers), steps), a, b)
  {
    var s0 := Init<J>(capacity, maxConcurrency, workers);
    var idle := Idle<J>(capacity, maxConcurrency, workers);
    StartsIdle<J>(capacity, maxConcurrency, workers);
    steps := [OpenQueue] + ([BecomeRunning] + []);
    TaskTakesJob(idle, a);
    RunsConcatenate(s0, steps, [Submit(a)] + ([Receive] + ([Spawn] + [])));
    steps := steps + ([Submit(a)] + ([Receive] + ([Spawn] + [])));
    TaskFinishesUncounted(RunAll(s0, steps));
    RunsConcatenate(s0, steps, [EndHandler(0)] + ([DropGuard(0)] + []));
    steps := steps + ([EndHandler(0)] + ([DropGuard(0)] + []));
    SecondJobCancelsOut(RunAll(s0, steps), b);
    RunsConcatenate(s0, steps, [Submit(b)] + ([Count(1)] + []));
    steps := steps + ([Submit(b)] + ([Count(1)] + []));
  }

  /**
   The window cannot be ignored: with one job finished but uncounted, a flush returns while a second
   job, accepted and counted, has not even been received.
   */
  lemma FlushCanReturnEarly<J>(capacity: nat, maxConcurrency: nat, workers: nat, a: J, b: J) returns (steps: seq<Step<J>>)
    requires IsConfig(capacity, maxConcurrency, workers)
    ensures var s0 := Init<J>(capacity, maxConcurrency, workers);
      && IsRun(s0, steps)
      && var s := RunAll(s0, steps);
        && FlushPoll(s, false) == Some(Flushed)
        && s.accepted == [a, b] && 1 !in s.counting && s.queue == [b]
  {
    steps := GetsOffByOne(capacity, maxConcurrency, workers, a, b);
  }

  lemma QueueIsClosed<J>(s: State<J>, a: J, b: J)
    requires IsOffByOne(s, a, b)
    ensures var steps := [EnterShutdown(0)] + ([CloseQueue(0)] + ([Receive] + ([Spawn] + [])));
      && IsRun(s, steps)
      && RunAll(s, steps) == s.(stage := InProgress, callers := map[0 := JoiningDispatcher], lifecycle := ShuttingDown,
                                sender := false, queue := [], dispatched := [a, b], running := {1}, permits := s.permits - 1)
  {
    var s1 := s.(stage := InProgress, callers := map[0 := ClosingQueue]);
    assert Apply(s, EnterShutdown(0)) == s1;
    var s2 := s1.(lifecycle := ShuttingDown, sender := false, callers := map[0 := JoiningDispatcher]);
    assert Apply(s1, CloseQueue(0)) == s2;
    var s3 := s2.(dispatcher := Holding(b), queue := []);
    assert Apply(s2, Receive) == s3;
    var s4 := s3.(permits := s.permits - 1, dispatched := [a, b], running := {1}, dispatcher := Receiving);
    assert Apply(s3, Spawn) == s4;
    RunStarts(s3, Spawn, []);
    RunStarts(s2, Receive, [Spawn] + []);
    RunStarts(s1, CloseQueue(0), [Receive] + ([Spawn] + []));
    RunStarts(s, EnterShutdown(0), [CloseQueue(0)] + ([Receive] + ([Spawn] + [])));
  }

  lemma DispatcherLeaves<J>(s: State<J>)
    requires s.dispatcher.Receiving? && s.queue == [] && !s.sender && s.outstanding == 0
    ensures var steps := [ReceiveClosed] + ([ExitDrain] + []);
      IsRun(s, steps) && RunAll(s, steps) == s.(dispatcher := Exited)
  {
    var s1 := s.(dispatcher := Draining);
    RunStarts(s1, ExitDrain, []);
    RunStarts(s, ReceiveClosed, [ExitDrain] + []);
  }

  lemma CallerReturns<J>(s: State<J>)
    requires s.dispatcher.Exited? && s.callers == map[0 := JoiningDispatcher]
    ensures var steps := [JoinDispatcher(0)] + ([StopLifecycle(0)] + ([MarkDone(0)] + []));
      && IsRun(s, steps)
      && RunAll(s, steps) == s.(lifecycle := Stopped, stage := Done, callers := map[0 := Returned])
  {
    var s1 := s.(callers := map[0 := StoppingLifecycle]);
    assert Apply(s, JoinDispatcher(0)) == s1;
    var s2 := s1.(lifecycle := Stopped, callers := map[0 := MarkingDone]);
    assert Apply(s1, StopLifecycle(0)) == s2;
    assert Apply(s2, MarkDone(0)) == s2.(stage := Done, callers := map[0 := Returned]);
    RunStarts(s2, MarkDone(0), []);
    RunStarts(s1, StopLifecycle(0), [MarkDone(0)] + []);
    RunStarts(s, JoinDispatcher(0), [StopLifecycle(0)] + ([MarkDone(0)] + []));
  }

  /** Nor can it be for a shutdown: from there it returns while the handler of the second job still runs. */
  lemma ShutdownCanReturnEarly<J>(capacity: nat, maxConcurrency: nat, workers: nat, a: J, b: J) returns (steps: seq<Step<J>>)
    requires IsConfig(capacity, maxConcurrency, workers)
    ensures var s0 := Init<J>(capacity, maxConcurrency, workers);
      && IsRun(s0, steps)
      && IsAt(RunAll(s0, steps), 0, Returned) && RunAll(s0, steps).running == {1}
  {
    var s0 := Init<J>(capacity, maxConcurrency, workers);
    steps := GetsOffByOne(capacity, maxConcurrency, workers, a, b);
    QueueIsClosed(RunAll(s0, steps), a, b);
    RunsConcatenate(s0, steps, [EnterShutdown(0)] + ([CloseQueue(0)] + ([Receive] + ([Spawn] + []))));
    steps := steps + ([EnterShutdown(0)] + ([CloseQueue(0)] + ([Receive] + ([Spawn] + []))));
    DispatcherLeaves(RunAll(s0, steps));
    RunsConcatenate(s0, steps, [ReceiveClosed] + ([ExitDrain] + []));
    steps := steps + ([ReceiveClosed] + ([ExitDrain] + []));
    CallerReturns(RunAll(s0, steps));
    var rest := [JoinDispatcher(0)] + ([StopLifecycle(0)] + ([MarkDone(0)] + []));
    RunsConcatenate(s0, steps, rest);
    steps := steps + rest;
  }
}
