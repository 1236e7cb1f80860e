/**
 When a submit is taken and when it is refused, over every run of the worker runtime. The answers
 are told apart by the lifecycle and the backlog alone, and the lifecycle by what has happened.
 */
module RuntimeAdmission {
  import opened RuntimeProtocol
  import opened RuntimeSafety
  import opened RuntimeTheorems

  /** The answer to a submit in a reachable state: each refusal has its one reason, and without one the job is taken. */
  lemma AnswersHaveReasons<J>(s: State<J>)
    requires Inv(s)
    ensures SubmitOutcome(s).NotRunning? <==> s.lifecycle.NotStarted?
    ensures SubmitOutcome(s).RejectedShuttingDown? <==> s.lifecycle.ShuttingDown?
    ensures SubmitOutcome(s).RejectedStopped? <==> s.lifecycle.Stopped?
    ensures SubmitOutcome(s).QueueFull? <==> s.lifecycle.Running? && |s.queue| == s.capacity
    ensures SubmitOutcome(s).Accepted? <==> s.lifecycle.Running? && |s.queue| < s.capacity
  {
  }

  predicate IsClosing(step: Step) { step.CloseQueue? }

  ghost predicate HasClosed<J>(steps: seq<Step<J>>) {
    exists k :: 0 <= k < |steps| && IsClosing(steps[k])
  }

  lemma StepRuns<J>(s: State<J>, step: Step<J>)
    requires Inv(s) && IsEnabled(s, step)
    ensures Apply(s, step).lifecycle.Running? <==> (s.lifecycle.Running? || step.BecomeRunning?) && !IsClosing(step)
    ensures IsClosing(step) ==> IsClosed(Apply(s, step))
    ensures IsClosed(s) ==> !step.BecomeRunning?
  {
  }

  lemma ClosedNeverRuns<J>(s: State<J>, steps: seq<Step<J>>)
    requires Inv(s) && IsRun(s, steps) && IsClosed(s)
    ensures !RunAll(s, steps).lifecycle.Running?
  {
    NothingAcceptedAfterClose(s, steps);
  }

  lemma {:induction false} RunningSince<J>(s: State<J>, steps: seq<Step<J>>)
    requires Inv(s) && IsRun(s, steps)
    ensures RunAll(s, steps).lifecycle.Running? <==>
      (s.lifecycle.Running? || BecomeRunning in steps) && !HasClosed(steps)
    decreases |steps|
  {
    if steps != [] {
      var t := Apply(s, steps[0]);
      StepKeepsInv(s, steps[0]);
      StepRuns(s, steps[0]);
      if IsClosing(steps[0]) {
        ClosedNeverRuns(t, steps[1..]);
      } else {
        RunningSince(t, steps[1..]);
        ClosesLater(steps);
      }
    }
  }

  lemma ClosesLater<J>(steps: seq<Step<J>>)
    requires steps != [] && !IsClosing(steps[0])
    ensures HasClosed(steps) <==> HasClosed(steps[1..])
    ensures BecomeRunning in steps <==> steps[0].BecomeRunning? || BecomeRunning in steps[1..]
  {
    if HasClosed(steps) {
      var k :| 0 <= k < |steps| && IsClosing(steps[k]);
      assert IsClosing(steps[1..][k - 1]);
    }
    if HasClosed(steps[1..]) {
      var k :| 0 <= k < |steps| - 1 && IsClosing(steps[1..][k]);
      assert IsClosing(steps[k + 1]);
    }
  }

  /**
   Over all runs of a runtime, a submit is taken exactly if the runtime has started, no shutdown has
   closed the queue and fewer jobs than its capacity are in the queue; it finds the queue full exactly
   if as many are.
   */
  lemma SubmitsAreAnswered<J>(capacity: nat, maxConcurrency: nat, workers: nat, steps: seq<Step<J>>)
    requires IsConfig(capacity, maxConcurrency, workers) && IsRun(Init(capacity, maxConcurrency, workers), steps)
    ensures var s := RunAll(Init(capacity, maxConcurrency, workers), steps);
      && (SubmitOutcome(s).Accepted? <==> BecomeRunning in steps && !HasClosed(steps) && |s.queue| < capacity)
      && (SubmitOutcome(s).QueueFull? <==> BecomeRunning in steps && !HasClosed(steps) && |s.queue| == capacity)
      && (SubmitOutcome(s).NotRunning? ==> BecomeRunning !in steps)
  {
    hide JobsInOrder, TasksPartition, CounterConserved, OneTeardown, TeardownOwned, CallersFit;
    var s0 := Init<J>(capacity, maxConcurrency, workers);
    Reachable(capacity, maxConcurrency, workers, steps);
    InitInv<J>(capacity, maxConcurrency, workers);
    RunningSince(s0, steps);
    RunKeepsConfig(s0, steps);
    AnswersHaveReasons(RunAll(s0, steps));
    StartedStays(s0, steps);
  }

  lemma {:induction false} StartedStays<J>(s: State<J>, steps: seq<Step<J>>)
    requires Inv(s) && IsRun(s, steps)
    ensures !s.lifecycle.NotStarted? || BecomeRunning in steps ==> !RunAll(s, steps).lifecycle.NotStarted?
    decreases |steps|
  {
    if steps != [] {
      StepKeepsInv(s, steps[0]);
      StartedStays(Apply(s, steps[0]), steps[1..]);
    }
  }

  lemma {:induction false} RunKeepsConfig<J>(s: State<J>, steps: seq<Step<J>>)
    requires IsRun(s, steps)
    ensures RunAll(s, steps).capacity == s.capacity
    decreases |steps|
  {
    if steps != [] { RunKeepsConfig(Apply(s, steps[0]), steps[1..]); }
  }

  // ---------- bursts ----------

  function Submits<J>(jobs: seq<J>): seq<Step<J>> {
    if jobs == [] then [] else [Submit(jobs[0])] + Submits(jobs[1..])
  }

  /**
   A running runtime takes every job of a burst that fits behind its queue, in order and without a
   loss, and one more job after a burst that fills it up is refused.
   */
  lemma {:induction false} BurstIsAccepted<J>(s: State<J>, jobs: seq<J>)
    requires Inv(s) && s.lifecycle.Running? && |s.queue| + |jobs| <= s.capacity
    ensures IsRun(s, Submits(jobs))
    ensures var t := RunAll(s, Submits(jobs));
      && Inv(t) && t.lifecycle.Running? && t.capacity == s.capacity
      && t.accepted == s.accepted + jobs && t.queue == s.queue + jobs
      && (|s.queue| + |jobs| == s.capacity ==> SubmitOutcome(t) == QueueFull)
    decreases |jobs|
  {
    AnswersHaveReasons(s);
    hide TasksPartition, CounterConserved, OneTeardown, TeardownOwned, CallersFit, LifecycleFollows;
    if jobs == [] {
      assert s.accepted + jobs == s.accepted && s.queue + jobs == s.queue;
    } else {
      var t := Apply(s, Submit(jobs[0]));
      StepKeepsInv(s, Submit(jobs[0]));
      assert t.accepted + jobs[1..] == s.accepted + jobs && t.queue + jobs[1..] == s.queue + jobs;
      BurstIsAccepted(t, jobs[1..]);
      RunStarts(s, Submit(jobs[0]), Submits(jobs[1..]));
    }
  }

  /** A fresh runtime that has been started takes as many jobs in a row as its capacity says, and no more. */
  lemma CapacityIsUsable<J>(capacity: nat, maxConcurrency: nat, workers: nat, jobs: seq<J>)
    requires IsConfig(capacity, maxConcurrency, workers) && |jobs| == capacity
    ensures var s0 := Init<J>(capacity, maxConcurrency, workers);
      var steps := [OpenQueue] + ([BecomeRunning] + []) + Submits(jobs);
      && IsRun(s0, steps)
      && RunAll(s0, steps).accepted == jobs && RunAll(s0, steps).queue == jobs
      && SubmitOutcome(RunAll(s0, steps)) == QueueFull
  {
    var s0 := Init<J>(capacity, maxConcurrency, workers);
    var start: seq<Step<J>> := [OpenQueue] + ([BecomeRunning] + []);
    StartsIdle<J>(capacity, maxConcurrency, workers);
    Reachable(capacity, maxConcurrency, workers, start);
    BurstIsAccepted(RunAll(s0, start), jobs);
    assert [] + jobs == jobs;
    RunsConcatenate(s0, start, Submits(jobs));
  }
}
