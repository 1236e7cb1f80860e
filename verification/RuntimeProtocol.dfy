/**
 The background worker runtime as a transition system over many submitters, one dispatcher, the
 tasks it spawns, flushers and shutdown callers. One step is one critical section or one atomic
 access. Jobs are known by their position in the order in which they were accepted.
 */
module RuntimeProtocol {
  import opened Wrappers

  const USIZE: nat := 0x1_0000_0000_0000_0000

  datatype Lifecycle = NotStarted | Running | ShuttingDown | Stopped

  datatype Stage = NotShutdown | InProgress | Done

  datatype Dispatcher<J> = NotSpawned | Receiving | Holding(job: J) | Draining | Exited

  /** Where a caller of `shutdown` stands. */
  datatype Caller =
    | Waiting            // on the shutdown condition variable
    | ClosingQueue       // it claimed the teardown and is about to take the sender away
    | JoiningDispatcher
    | StoppingLifecycle
    | MarkingDone
    | Returned

  datatype SubmitResult = Accepted | NotRunning | RejectedShuttingDown | RejectedStopped | QueueFull

  datatype State<J> = State(
    capacity: nat,
    maxConcurrency: nat,
    workers: nat,               // threads of the async runtime
    lifecycle: Lifecycle,
    starting: bool,             // inside `start`, after the sender was installed
    sender: bool,               // `job_tx` is Some
    queue: seq<J>,
    dispatcher: Dispatcher<J>,
    permits: nat,               // free permits of the semaphore
    outstanding: nat,           // the atomic counter, modulo 2^64
    accepted: seq<J>,           // every job `try_send` took, in order
    dispatched: seq<J>,         // every job handed to a task, in order
    counting: set<nat>,         // accepted, but the submitter has not reached its fetch_add
    running: set<nat>,          // its permit is held
    finishing: set<nat>,        // handler done and permit dropped, guard not yet
    finished: set<nat>,
    stage: Stage,
    callers: map<nat, Caller>)

  predicate IsConfig(capacity: nat, maxConcurrency: nat, workers: nat) {
    1 <= capacity && 1 <= maxConcurrency && 1 <= workers && capacity + 1 + maxConcurrency + workers < USIZE
  }

  function Init<J>(capacity: nat, maxConcurrency: nat, workers: nat): State<J> {
    State(capacity, maxConcurrency, workers, NotStarted, false, false, [], NotSpawned, maxConcurrency, 0,
          [], [], {}, {}, {}, {}, NotShutdown, map[])
  }

  datatype Step<J> =
    | OpenQueue                  // start: install the sender and spawn the dispatcher
    | FailToStart                // start: the async runtime could not be built
    | BecomeRunning              // start: publish the lifecycle
    | Submit(job: J)             // submit: the section under the sender's lock
    | Count(index: nat)          // submit: the fetch_add after it
    | Receive                    // dispatcher
    | ReceiveClosed
    | Spawn
    | EndHandler(index: nat)     // task: handler done, permit dropped
    | DropGuard(index: nat)      // task: the fetch_sub
    | ExitDrain                  // dispatcher: read zero and leave
    | EnterShutdown(caller: nat)
    | WakeCaller(caller: nat)
    | CloseQueue(caller: nat)
    | JoinDispatcher(caller: nat)
    | StopLifecycle(caller: nat)
    | MarkDone(caller: nat)

  /** The answer of the section under the sender's lock. */
  function SubmitOutcome(s: State): SubmitResult {
    match s.lifecycle
    case NotStarted => NotRunning
    case ShuttingDown => RejectedShuttingDown
    case Stopped => RejectedStopped
    case Running =>
      if !s.sender then NotRunning
      else if s.dispatcher.Exited? then RejectedShuttingDown
      else if |s.queue| >= s.capacity then QueueFull
      else Accepted
  }

  predicate IsAt(s: State, caller: nat, at: Caller) {
    caller in s.callers && s.callers[caller] == at
  }

  /** `start` never overlaps `shutdown`; a finishing task occupies a thread. */
  predicate IsEnabled<J>(s: State<J>, step: Step<J>) {
    match step
    case OpenQueue => s.lifecycle.NotStarted? && !s.starting && s.stage.NotShutdown?
    case FailToStart => s.lifecycle.NotStarted? && !s.starting && s.stage.NotShutdown?
    case BecomeRunning => s.starting
    case Submit(_) => true
    case Count(i) => i in s.counting
    case Receive => s.dispatcher.Receiving? && s.queue != []
    case ReceiveClosed => s.dispatcher.Receiving? && s.queue == [] && !s.sender
    case Spawn => s.dispatcher.Holding? && 0 < s.permits
    case EndHandler(i) => i in s.running && |s.finishing| < s.workers
    case DropGuard(i) => i in s.finishing
    case ExitDrain => s.dispatcher.Draining? && s.outstanding == 0
    case EnterShutdown(c) => c !in s.callers && !s.starting
    case WakeCaller(c) => IsAt(s, c, Waiting)
    case CloseQueue(c) => IsAt(s, c, ClosingQueue)
    case JoinDispatcher(c) => IsAt(s, c, JoiningDispatcher) && s.dispatcher.Exited?
    case StopLifecycle(c) => IsAt(s, c, StoppingLifecycle)
    case MarkDone(c) => IsAt(s, c, MarkingDone)
  }

  function Enter(s: State, c: nat): State {
    match s.stage
    case Done => s.(callers := s.callers[c := Returned])
    case InProgress => s.(callers := s.callers[c := Waiting])
    case NotShutdown =>
      if s.lifecycle.Stopped? || s.lifecycle.NotStarted?
      then s.(lifecycle := Stopped, stage := Done, callers := s.callers[c := Returned])
      else s.(stage := InProgress, callers := s.callers[c := ClosingQueue])
  }

  function Apply<J>(s: State<J>, step: Step<J>): State<J>
    requires IsEnabled(s, step)
  {
    match step
    case OpenQueue => s.(sender := true, dispatcher := Receiving, starting := true)
    case FailToStart => s.(sender := true)
    case BecomeRunning => s.(lifecycle := Running, starting := false)
    case Submit(job) =>
      if SubmitOutcome(s).Accepted?
      then s.(queue := s.queue + [job], accepted := s.accepted + [job], counting := s.counting + {|s.accepted|})
      else s
    case Count(i) => s.(counting := s.counting - {i}, outstanding := (s.outstanding + 1) % USIZE)
    case Receive => s.(dispatcher := Holding(s.queue[0]), queue := s.queue[1..])
    case ReceiveClosed => s.(dispatcher := Draining)
    case Spawn =>
      s.(permits := s.permits - 1, dispatched := s.dispatched + [s.dispatcher.job],
         running := s.running + {|s.dispatched|}, dispatcher := Receiving)
    case EndHandler(i) => s.(running := s.running - {i}, finishing := s.finishing + {i}, permits := s.permits + 1)
    case DropGuard(i) =>
      s.(finishing := s.finishing - {i}, finished := s.finished + {i}, outstanding := (s.outstanding + USIZE - 1) % USIZE)
    case ExitDrain => s.(dispatcher := Exited)
    case EnterShutdown(c) => Enter(s, c)
    case WakeCaller(c) => if s.stage.Done? then s.(callers := s.callers[c := Returned]) else s
    case CloseQueue(c) => s.(lifecycle := ShuttingDown, sender := false, callers := s.callers[c := JoiningDispatcher])
    case JoinDispatcher(c) => s.(callers := s.callers[c := StoppingLifecycle])
    case StopLifecycle(c) => s.(lifecycle := Stopped, callers := s.callers[c := MarkingDone])
    case MarkDone(c) => s.(stage := Done, callers := s.callers[c := Returned])
  }

  /** What `flush` answers when it looks at the counter; none means it goes on waiting. */
  datatype FlushAnswer = Flushed | FlushNotRunning | TimedOut

  function FlushOnEntry(s: State): Option<FlushAnswer> {
    if s.lifecycle.NotStarted? then Some(FlushNotRunning)
    else if s.lifecycle.Stopped? && s.outstanding == 0 then Some(Flushed)
    else None
  }

  function FlushPoll(s: State, deadlinePassed: bool): Option<FlushAnswer> {
    if s.outstanding == 0 then Some(Flushed) else if deadlinePassed then Some(TimedOut) else None
  }

  predicate IsRun<J>(s: State<J>, steps: seq<Step<J>>)
    decreases |steps|
  {
    steps == [] || (IsEnabled(s, steps[0]) && IsRun(Apply(s, steps[0]), steps[1..]))
  }

  function RunAll<J>(s: State<J>, steps: seq<Step<J>>): State<J>
    requires IsRun(s, steps)
    decreases |steps|
  {
    if steps == [] then s else RunAll(Apply(s, steps[0]), steps[1..])
  }
}
