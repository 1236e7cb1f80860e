/**
 What every run of the worker runtime keeps, and what `flush` and `shutdown` may conclude from the
 outstanding counter.
 */
module RuntimeSafety {
  import opened RuntimeProtocol

  function InHand<J>(d: Dispatcher<J>): seq<J> {
    if d.Holding? then [d.job] else []
  }

  /** Accepted jobs whose guard has not been dropped. */
  function Live(s: State): nat {
    |s.queue| + |InHand(s.dispatcher)| + |s.running| + |s.finishing|
  }

  /** Accepted jobs whose handler has not finished. */
  function Unfinished(s: State): nat {
    |s.queue| + |InHand(s.dispatcher)| + |s.running|
  }

  /** Live jobs less the submitters that have yet to count theirs. */
  function Balance(s: State): int {
    Live(s) - |s.counting|
  }

  /** Jobs are handed over in the order in which they were accepted, each exactly once. */
  ghost predicate JobsInOrder<J>(s: State<J>) {
    s.accepted == s.dispatched + InHand(s.dispatcher) + s.queue
  }

  ghost predicate TasksPartition(s: State) {
    && IsPartition(|s.dispatched|, s.running, s.finishing, s.finished)
    && (forall i :: i in s.counting ==> i < |s.accepted|)
  }

  ghost predicate IsPartition(n: nat, a: set<nat>, b: set<nat>, c: set<nat>) {
    (forall i :: 0 <= i < n <==> i in a + b + c) && a !! b && a !! c && b !! c
  }

  /** The counter lags behind by the submitters that have not yet counted their job. */
  ghost predicate CounterConserved(s: State) {
    s.outstanding < USIZE && s.outstanding == Balance(s) % USIZE
  }

  ghost predicate PermitsConserved(s: State) {
    && s.permits + |s.running| == s.maxConcurrency
    && |s.queue| <= s.capacity
    && |s.finishing| <= s.workers
  }

  predicate IsTearingDown(c: Caller) {
    c.ClosingQueue? || c.JoiningDispatcher? || c.StoppingLifecycle? || c.MarkingDone?
  }

  /** At most one caller tears down, and nobody returns before the stage is done. */
  ghost predicate OneTeardown(stage: Stage, callers: map<nat, Caller>) {
    && (forall c, d :: c in callers && d in callers && IsTearingDown(callers[c]) && IsTearingDown(callers[d]) ==> c == d)
    && (forall c :: c in callers && IsTearingDown(callers[c]) ==> stage.InProgress?)
    && (forall c :: c in callers && callers[c].Returned? ==> stage.Done?)
    && (forall c :: c in callers && callers[c].Waiting? ==> !stage.NotShutdown?)
  }

  /** A teardown in progress belongs to some caller. */
  ghost predicate TeardownOwned(stage: Stage, callers: map<nat, Caller>) {
    stage.InProgress? ==> exists c :: c in callers && IsTearingDown(callers[c])
  }

  predicate CallerFits(caller: Caller, lifecycle: Lifecycle, exited: bool) {
    match caller
    case ClosingQueue => lifecycle.Running?
    case JoiningDispatcher => lifecycle.ShuttingDown?
    case StoppingLifecycle => lifecycle.ShuttingDown? && exited
    case MarkingDone => lifecycle.Stopped? && exited
    case _ => true
  }

  ghost predicate CallersFit(s: State) {
    forall c :: c in s.callers ==> CallerFits(s.callers[c], s.lifecycle, s.dispatcher.Exited?)
  }

  ghost predicate LifecycleFollows(s: State) {
    && (s.starting ==> s.lifecycle.NotStarted? && s.stage.NotShutdown? && s.sender)
    && (s.stage.NotShutdown? ==> s.lifecycle.NotStarted? || s.lifecycle.Running?)
    && (s.stage.Done? ==> s.lifecycle.Stopped?)
    && (s.lifecycle.Running? ==> s.sender)
    && (s.lifecycle.ShuttingDown? ==> !s.sender)
    && (s.dispatcher.NotSpawned? ==> !s.starting && !s.lifecycle.Running? && !s.lifecycle.ShuttingDown?)
    && (s.lifecycle.NotStarted? && !s.starting ==> s.dispatcher.NotSpawned?)
    && (s.lifecycle.Stopped? ==> s.dispatcher.NotSpawned? || s.dispatcher.Exited?)
    && (s.dispatcher.NotSpawned? ==> s.queue == [] && s.accepted == [])
    && (s.dispatcher.Draining? || s.dispatcher.Exited? ==>
         s.queue == [] && (s.lifecycle.ShuttingDown? || s.lifecycle.Stopped?))
  }

  ghost predicate Inv<J>(s: State<J>) {
    && IsConfig(s.capacity, s.maxConcurrency, s.workers)
    && JobsInOrder(s) && TasksPartition(s) && CounterConserved(s) && PermitsConserved(s)
    && OneTeardown(s.stage, s.callers) && TeardownOwned(s.stage, s.callers) && CallersFit(s) && LifecycleFollows(s)
  }

  lemma InitInv<J>(capacity: nat, maxConcurrency: nat, workers: nat)
    requires IsConfig(capacity, maxConcurrency, workers)
    ensures Inv(Init<J>(capacity, maxConcurrency, workers))
  {
  }

  lemma StepKeepsOrder<J>(s: State<J>, step: Step<J>)
    requires JobsInOrder(s) && LifecycleFollows(s) && IsEnabled(s, step)
    ensures JobsInOrder(Apply(s, step))
  {
    match step
    case Submit(job) => OneMoreBehind(s.dispatched, InHand(s.dispatcher), s.queue, job);
    case Receive => FirstInHand(s.dispatched, s.queue);
    case Spawn => HandedOver(s.dispatched, s.dispatcher.job, s.queue);
    case _ =>
  }

  // The three ways in which a job moves along.

  lemma OneMoreBehind<J>(dispatched: seq<J>, hand: seq<J>, queue: seq<J>, job: J)
    ensures dispatched + hand + queue + [job] == dispatched + hand + (queue + [job])
  {
  }

  lemma FirstInHand<J>(dispatched: seq<J>, queue: seq<J>)
    requires queue != []
    ensures dispatched + [] + queue == dispatched + [queue[0]] + queue[1..]
  {
  }

  lemma HandedOver<J>(dispatched: seq<J>, job: J, queue: seq<J>)
    ensures dispatched + [job] + queue == dispatched + [job] + [] + queue
  {
  }

  lemma StepKeepsPartition<J>(s: State<J>, step: Step<J>)
    requires Inv(s) && IsEnabled(s, step)
    ensures TasksPartition(Apply(s, step))
  {
    if step.Spawn? {
      SpawnKeepsPartition(s);
    } else if step.EndHandler? || step.DropGuard? {
      TaskKeepsPartition(s, step);
    }
  }

  lemma SpawnKeepsPartition<J>(s: State<J>)
    requires TasksPartition(s) && IsEnabled(s, Spawn)
    ensures TasksPartition(Apply(s, Spawn))
  {
    var n := |s.dispatched|;
    assert n !in s.running + s.finishing + s.finished;
    assert Apply(s, Spawn).running == s.running + {n};
  }

  lemma TaskKeepsPartition<J>(s: State<J>, step: Step<J>)
    requires TasksPartition(s) && IsEnabled(s, step) && (step.EndHandler? || step.DropGuard?)
    ensures TasksPartition(Apply(s, step))
  {
    var i := step.index;
    if step.EndHandler? {
      Moved(|s.dispatched|, s.running, s.finishing, s.finished, i);
    } else {
      assert s.finishing + s.finished + s.running == s.running + s.finishing + s.finished;
      Moved(|s.dispatched|, s.finishing, s.finished, s.running, i);
      assert (s.finishing - {i}) + (s.finished + {i}) + s.running == s.running + (s.finishing - {i}) + (s.finished + {i});
    }
  }

  /** Moving an element from one part to another. */
  lemma Moved(n: nat, a: set<nat>, b: set<nat>, c: set<nat>, i: nat)
    requires IsPartition(n, a, b, c) && i in a
    ensures IsPartition(n, a - {i}, b + {i}, c)
  {
    assert a + b + c == (a - {i}) + (b + {i}) + c;
  }

  lemma ModularStep(n: int)
    ensures (n % USIZE + 1) % USIZE == (n + 1) % USIZE
    ensures (n % USIZE + USIZE - 1) % USIZE == (n - 1) % USIZE
  {
  }

  lemma Adding<T>(a: set<T>, x: T)
    ensures x !in a ==> |a + {x}| == |a| + 1
    ensures x in a ==> |a - {x}| == |a| - 1
  {
  }

  lemma TaskBalance<J>(s: State<J>, step: Step<J>)
    requires TasksPartition(s) && IsEnabled(s, step) && (step.Spawn? || step.EndHandler? || step.DropGuard?)
    ensures Balance(Apply(s, step)) == Balance(s) + (if step.DropGuard? then -1 else 0)
  {
    if step.Spawn? {
      assert |s.dispatched| !in s.running + s.finishing + s.finished;
      Adding(s.running, |s.dispatched|);
    } else {
      Adding(s.running, step.index);
      Adding(s.finishing, step.index);
    }
  }

  /** Only the fetch_add and the fetch_sub move the balance, by one each. */
  lemma BalanceAfter<J>(s: State<J>, step: Step<J>)
    requires TasksPartition(s) && LifecycleFollows(s) && IsEnabled(s, step)
    ensures Balance(Apply(s, step)) == Balance(s) + (if step.Count? then 1 else if step.DropGuard? then -1 else 0)
  {
    match step
    case Spawn => TaskBalance(s, step);
    case EndHandler(_) => TaskBalance(s, step);
    case DropGuard(_) => TaskBalance(s, step);
    case Submit(job) => SubmitBalance(s, job);
    case Count(i) => CountBalance(s, i);
    case _ => CallerBalance(s, step);
  }

  lemma SubmitBalance<J>(s: State<J>, job: J)
    requires |s.accepted| !in s.counting
    ensures Balance(Apply(s, Submit(job))) == Balance(s)
  {
    Adding(s.counting, |s.accepted|);
  }

  lemma CountBalance<J>(s: State<J>, i: nat)
    requires i in s.counting
    ensures Balance(Apply(s, Count(i))) == Balance(s) + 1
  {
    Adding(s.counting, i);
  }

  lemma CallerBalance<J>(s: State<J>, step: Step<J>)
    requires LifecycleFollows(s) && IsEnabled(s, step) && !step.Submit? && !step.Count?
    requires !step.Spawn? && !step.EndHandler? && !step.DropGuard?
    ensures Balance(Apply(s, step)) == Balance(s)
  {
  }

  lemma StepKeepsCounter<J>(s: State<J>, step: Step<J>)
    requires TasksPartition(s) && LifecycleFollows(s) && CounterConserved(s) && IsEnabled(s, step)
    ensures CounterConserved(Apply(s, step))
  {
    BalanceAfter(s, step);
    OutstandingAfter(s, step);
    ModularStep(Balance(s));
  }

  lemma OutstandingAfter<J>(s: State<J>, step: Step<J>)
    requires IsEnabled(s, step)
    ensures Apply(s, step).outstanding
         == if step.Count? then (s.outstanding + 1) % USIZE
            else if step.DropGuard? then (s.outstanding + USIZE - 1) % USIZE
            else s.outstanding
  {
  }

  lemma StepKeepsPermits<J>(s: State<J>, step: Step<J>)
    requires Inv(s) && IsEnabled(s, step)
    ensures PermitsConserved(Apply(s, step))
  {
    match step
    case Spawn => Adding(s.running, |s.dispatched|); assert |s.dispatched| !in s.running + s.finishing + s.finished;
    case EndHandler(i) => Adding(s.running, i); Adding(s.finishing, i);
    case DropGuard(i) => Adding(s.finishing, i);
    case _ =>
  }

  lemma StepKeepsTeardown<J>(s: State<J>, step: Step<J>)
    requires OneTeardown(s.stage, s.callers) && IsEnabled(s, step)
    ensures OneTeardown(Apply(s, step).stage, Apply(s, step).callers)
  {
    match step
    case EnterShutdown(c) => EnterKeepsTeardown(s, c);
    case WakeCaller(c) => if s.stage.Done? { CallerMoves(s.stage, s.callers, s.stage, c, Returned); }
    case CloseQueue(c) => CallerMoves(s.stage, s.callers, s.stage, c, JoiningDispatcher);
    case JoinDispatcher(c) => CallerMoves(s.stage, s.callers, s.stage, c, StoppingLifecycle);
    case StopLifecycle(c) => CallerMoves(s.stage, s.callers, s.stage, c, MarkingDone);
    case MarkDone(c) => CallerMoves(s.stage, s.callers, Done, c, Returned);
    case _ =>
  }

  lemma EnterKeepsTeardown<J>(s: State<J>, c: nat)
    requires OneTeardown(s.stage, s.callers) && c !in s.callers
    ensures OneTeardown(Enter(s, c).stage, Enter(s, c).callers)
  {
    match s.stage
    case Done => CallerMoves(s.stage, s.callers, Done, c, Returned);
    case InProgress => CallerMoves(s.stage, s.callers, InProgress, c, Waiting);
    case NotShutdown =>
      CallerMoves(s.stage, s.callers, Done, c, Returned);
      CallerMoves(s.stage, s.callers, InProgress, c, ClosingQueue);
  }

  /** One caller moves on, alone in tearing down if it is tearing down, and the stage with it. */
  lemma CallerMoves(stage: Stage, callers: map<nat, Caller>, stage': Stage, c: nat, at: Caller)
    requires OneTeardown(stage, callers)
    requires stage' == stage || stage.NotShutdown? || (c in callers && IsTearingDown(callers[c]) && stage'.Done?)
    requires IsTearingDown(at) ==> stage'.InProgress? && (stage.NotShutdown? || (c in callers && IsTearingDown(callers[c])))
    requires at.Returned? ==> stage'.Done?
    requires at.Waiting? || stage != stage' ==> !stage'.NotShutdown?
    ensures OneTeardown(stage', callers[c := at])
  {
  }

  lemma StepKeepsOwner<J>(s: State<J>, step: Step<J>)
    requires Inv(s) && IsEnabled(s, step)
    ensures TeardownOwned(Apply(s, step).stage, Apply(s, step).callers)
  {
    var t := Apply(s, step);
    if t.stage.InProgress? {
      if s.stage.InProgress? {
        var c :| c in s.callers && IsTearingDown(s.callers[c]);
        assert c in t.callers && IsTearingDown(t.callers[c]);
      } else {
        assert IsTearingDown(t.callers[step.caller]);
      }
    }
  }

  lemma StepKeepsCallers<J>(s: State<J>, step: Step<J>)
    requires Inv(s) && IsEnabled(s, step)
    ensures CallersFit(Apply(s, step))
  {
  }

  lemma StepKeepsLifecycle<J>(s: State<J>, step: Step<J>)
    requires Inv(s) && IsEnabled(s, step)
    ensures LifecycleFollows(Apply(s, step))
  {
  }

  lemma StepKeepsInv<J>(s: State<J>, step: Step<J>)
    requires Inv(s) && IsEnabled(s, step)
    ensures Inv(Apply(s, step))
  {
    StepKeepsOrder(s, step);
    StepKeepsPartition(s, step);
    StepKeepsCounter(s, step);
    StepKeepsPermits(s, step);
    StepKeepsTeardown(s, step);
    StepKeepsOwner(s, step);
    StepKeepsCallers(s, step);
    StepKeepsLifecycle(s, step);
  }

  lemma {:induction false} RunKeepsInv<J>(s: State<J>, steps: seq<Step<J>>)
    requires Inv(s) && IsRun(s, steps)
    ensures Inv(RunAll(s, steps))
    decreases |steps|
  {
    if steps != [] {
      StepKeepsInv(s, steps[0]);
      RunKeepsInv(Apply(s, steps[0]), steps[1..]);
    }
  }
}
