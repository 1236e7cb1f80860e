/**
 What the worker runtime gets done. Once nobody submits, the steps that submitters, the dispatcher,
 the tasks and the callers of `shutdown` still have to take run out, and then every job is through,
 a flush answers and every caller of `shutdown` has returned.
 */
module RuntimeProgress {
  import opened Wrappers
  import opened RuntimeProtocol
  import opened RuntimeSafety
  import opened RuntimeTheorems

  /** The steps that finish what has been started. A woken caller counts when it has something to see. */
  predicate IsCompletion(s: State, step: Step) {
    match step
    case OpenQueue => false
    case FailToStart => false
    case BecomeRunning => false
    case Submit(_) => false
    case EnterShutdown(_) => false
    case WakeCaller(_) => s.stage.Done?
    case _ => true
  }

  // ---------- at rest ----------

  ghost predicate IsAtRest<J(!new)>(s: State<J>) {
    forall step: Step<J> :: IsEnabled(s, step) ==> !IsCompletion(s, step)
  }

  lemma TasksAtRest<J(!new)>(s: State<J>)
    requires Inv(s) && IsAtRest(s)
    ensures s.counting == {} && s.running == {} && s.finishing == {}
  {
    if i :| i in s.counting { assert IsEnabled(s, Count(i)); }
    if i :| i in s.finishing { assert IsEnabled(s, DropGuard(i)); }
    if i :| i in s.running { assert IsEnabled(s, EndHandler(i)); }
  }

  lemma DispatcherAtRest<J(!new)>(s: State<J>)
    requires Inv(s) && IsAtRest(s)
    ensures Live(s) == 0 && s.outstanding == 0
    ensures IsClosed(s) && !s.sender ==> s.dispatcher.Exited? || s.dispatcher.NotSpawned?
  {
    hide OneTeardown, TeardownOwned, CallersFit;
    TasksAtRest(s);
    assert !IsEnabled(s, Spawn) && !IsEnabled(s, Receive);
    ZeroMeansBalanced(s);
    assert !IsEnabled(s, ReceiveClosed) && !IsEnabled(s, ExitDrain);
  }

  lemma CallersAtRest<J(!new)>(s: State<J>, c: nat)
    requires Inv(s) && IsAtRest(s) && c in s.callers
    ensures s.callers[c].Returned?
  {
    hide JobsInOrder, TasksPartition, CounterConserved, PermitsConserved;
    assert IsEnabled(s, WakeCaller(c)) ==> !s.stage.Done?;
    forall e | e in s.callers ensures !IsTearingDown(s.callers[e]) { NobodyTearsDownAtRest(s, e); }
    OneCallerTearsDown(s, c, c);
  }

  lemma NobodyTearsDownAtRest<J(!new)>(s: State<J>, c: nat)
    requires Inv(s) && IsAtRest(s) && c in s.callers
    ensures !IsTearingDown(s.callers[c])
  {
    hide JobsInOrder, TasksPartition, CounterConserved, PermitsConserved, OneTeardown, TeardownOwned;
    DispatcherAtRest(s);
    assert !IsEnabled(s, CloseQueue(c)) && !IsEnabled(s, JoinDispatcher(c));
    assert !IsEnabled(s, StopLifecycle(c)) && !IsEnabled(s, MarkDone(c));
  }

  /**
   Nothing gets stuck: in a reachable state in which none of these steps can be taken every accepted
   job has finished, a flush answers, and every caller of `shutdown` has returned.
   */
  lemma RestMeansDone<J(!new)>(s: State<J>)
    requires Inv(s) && IsAtRest(s)
    ensures AllFinished(s)
    ensures FlushPoll(s, false) == Some(Flushed)
    ensures forall c :: c in s.callers ==> s.callers[c].Returned?
  {
    DispatcherAtRest(s);
    NothingLiveMeansFinished(s);
    forall c | c in s.callers ensures s.callers[c].Returned? { CallersAtRest(s, c); }
  }

  // ---------- getting there ----------

  ghost function At(callers: map<nat, Caller>, at: Caller): set<nat> {
    set c | c in callers && callers[c] == at
  }

  /** How many steps the callers of `shutdown` still have to take. */
  ghost function CallersLeft(callers: map<nat, Caller>): nat {
    |At(callers, Waiting)| + |At(callers, MarkingDone)| + 2 * |At(callers, StoppingLifecycle)|
    + 3 * |At(callers, JoiningDispatcher)| + 4 * |At(callers, ClosingQueue)|
  }

  function DispatcherLeft<J>(d: Dispatcher<J>): nat {
    match d
    case Draining => 1
    case Exited => 0
    case _ => 2
  }

  /** How many completions there can still be. */
  ghost function Work<J>(s: State<J>): nat {
    |s.counting| + 4 * |s.queue| + 3 * |InHand(s.dispatcher)| + 2 * |s.running| + |s.finishing|
    + DispatcherLeft(s.dispatcher) + CallersLeft(s.callers)
  }

  lemma Moves(callers: map<nat, Caller>, c: nat, at: Caller, x: Caller)
    requires c in callers
    ensures |At(callers[c := at], x)|
         == |At(callers, x)| - (if callers[c] == x then 1 else 0) + (if at == x then 1 else 0)
  {
    var rest := At(callers, x) - {c};
    assert callers[c] == x ==> At(callers, x) == rest + {c};
    assert callers[c] != x ==> At(callers, x) == rest;
    assert At(callers[c := at], x) == if at == x then rest + {c} else rest;
  }

  function Rank(at: Caller): nat {
    match at
    case Waiting => 1
    case ClosingQueue => 4
    case JoiningDispatcher => 3
    case StoppingLifecycle => 2
    case MarkingDone => 1
    case Returned => 0
  }

  lemma CallerLowers(callers: map<nat, Caller>, c: nat, at: Caller)
    requires c in callers
    ensures CallersLeft(callers[c := at]) == CallersLeft(callers) - Rank(callers[c]) + Rank(at)
  {
    hide At;
    Moves(callers, c, at, Waiting);
    Moves(callers, c, at, MarkingDone);
    Moves(callers, c, at, StoppingLifecycle);
    Moves(callers, c, at, JoiningDispatcher);
    Moves(callers, c, at, ClosingQueue);
  }

  lemma CallerUsesWork<J>(s: State<J>, step: Step<J>)
    requires IsEnabled(s, step) && IsCompletion(s, step)
    requires step.WakeCaller? || step.CloseQueue? || step.JoinDispatcher? || step.StopLifecycle? || step.MarkDone?
    ensures CallersLeft(Apply(s, step).callers) < CallersLeft(s.callers)
  {
    hide CallersLeft;
    match step
    case WakeCaller(c) => CallerLowers(s.callers, c, Returned);
    case CloseQueue(c) => CallerLowers(s.callers, c, JoiningDispatcher);
    case JoinDispatcher(c) => CallerLowers(s.callers, c, StoppingLifecycle);
    case StopLifecycle(c) => CallerLowers(s.callers, c, MarkingDone);
    case MarkDone(c) => CallerLowers(s.callers, c, Returned);
  }

  lemma TaskUsesWork<J>(s: State<J>, step: Step<J>)
    requires IsEnabled(s, step) && (step.Spawn? || step.EndHandler? || step.DropGuard? || step.Count?)
    ensures Work(Apply(s, step)) < Work(s)
  {
    hide CallersLeft;
    match step
    case Count(i) => Adding(s.counting, i);
    case Spawn => Adding(s.running, |s.dispatched|);
    case EndHandler(i) => Adding(s.running, i); Adding(s.finishing, i);
    case DropGuard(i) => Adding(s.finishing, i);
  }

  /** Each completion uses up work, so that between two submits there are only so many. */
  lemma CompletionUsesWork<J>(s: State<J>, step: Step<J>)
    requires IsEnabled(s, step) && IsCompletion(s, step)
    ensures Work(Apply(s, step)) < Work(s)
  {
    hide CallersLeft;
    match step
    case Count(_) => TaskUsesWork(s, step);
    case Spawn => TaskUsesWork(s, step);
    case EndHandler(_) => TaskUsesWork(s, step);
    case DropGuard(_) => TaskUsesWork(s, step);
    case Receive =>
    case ReceiveClosed =>
    case ExitDrain =>
    case _ => CallerUsesWork(s, step);
  }

  ghost predicate AreCompletions<J>(s: State<J>, steps: seq<Step<J>>)
    requires IsRun(s, steps)
    decreases |steps|
  {
    steps == [] || (IsCompletion(s, steps[0]) && AreCompletions(Apply(s, steps[0]), steps[1..]))
  }

  /** Whatever the schedule, there are no more completions in a row than the work at their start. */
  lemma {:induction false} CompletionsRunOut<J>(s: State<J>, steps: seq<Step<J>>)
    requires Inv(s) && IsRun(s, steps) && AreCompletions(s, steps)
    ensures Inv(RunAll(s, steps)) && |steps| + Work(RunAll(s, steps)) <= Work(s)
    decreases |steps|
  {
    hide Inv, Work, IsCompletion;
    if steps != [] {
      StepKeepsInv(s, steps[0]);
      CompletionUsesWork(s, steps[0]);
      CompletionsRunOut(Apply(s, steps[0]), steps[1..]);
    }
  }

  lemma {:induction false} CompletionsKeepJobs<J>(s: State<J>, steps: seq<Step<J>>)
    requires IsRun(s, steps) && AreCompletions(s, steps)
    ensures RunAll(s, steps).accepted == s.accepted && RunAll(s, steps).callers.Keys == s.callers.Keys
    decreases |steps|
  {
    if steps != [] {
      CompletionsKeepJobs(Apply(s, steps[0]), steps[1..]);
    }
  }

  /**
   So from any reachable state, when nobody submits and completions are taken in any order until none
   is left, there are at most `Work` of them, every job accepted so far has finished, a flush answers,
   and every call of `shutdown` so far has returned.
   */
  lemma EverythingGetsDone<J(!new)>(capacity: nat, maxConcurrency: nat, workers: nat, before: seq<Step<J>>, steps: seq<Step<J>>)
    requires IsConfig(capacity, maxConcurrency, workers) && IsRun(Init(capacity, maxConcurrency, workers), before)
    requires var s := RunAll(Init(capacity, maxConcurrency, workers), before);
      IsRun(s, steps) && AreCompletions(s, steps) && IsAtRest(RunAll(s, steps))
    ensures var s := RunAll(Init(capacity, maxConcurrency, workers), before); var t := RunAll(s, steps);
      && |steps| <= Work(s)
      && t.accepted == s.accepted && AllFinished(t) && FlushPoll(t, false) == Some(Flushed)
      && forall c :: c in s.callers ==> IsAt(t, c, Returned)
  {
    hide Inv, Work, AreCompletions, IsAtRest, AllFinished;
    Reachable(capacity, maxConcurrency, workers, before);
    var s := RunAll(Init(capacity, maxConcurrency, workers), before);
    CompletionsRunOut(s, steps);
    CompletionsKeepJobs(s, steps);
    RestMeansDone(RunAll(s, steps));
  }
}
