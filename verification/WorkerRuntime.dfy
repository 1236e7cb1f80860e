/**
 The worker runtime as an object. A method is one critical section or one atomic access of the
 source; each is proved to take the protocol's step, so the theorems about runs of the protocol
 speak about any interleaving of these calls.
 */
module WorkerRuntimeObject {
  import opened Wrappers
  import opened RuntimeProtocol
  import opened RuntimeSafety
  import opened RuntimeTheorems
  import opened RuntimeAdmission

  /** The dispatcher's next step, if it can move; it never has a choice. */
  function NextDispatch<J>(s: State<J>): (step: Option<Step<J>>)
    ensures step.Some? ==> IsEnabled(s, step.value)
    ensures IsEnabled(s, Receive) ==> step == Some(Receive)
    ensures IsEnabled(s, ReceiveClosed) ==> step == Some(ReceiveClosed)
    ensures IsEnabled(s, Spawn) ==> step == Some(Spawn)
    ensures IsEnabled(s, ExitDrain) ==> step == Some(ExitDrain)
  {
    match s.dispatcher
    case Receiving => if s.queue != [] then Some(Receive) else if !s.sender then Some(ReceiveClosed) else None
    case Holding(_) => if 0 < s.permits then Some(Spawn) else None
    case Draining => if s.outstanding == 0 then Some(ExitDrain) else None
    case _ => None
  }

  class WorkerRuntime<J(==)> {
    const capacity: nat
    const maxConcurrency: nat
    const workers: nat
    var lifecycle: Lifecycle
    var starting: bool
    var sender: bool
    var queue: seq<J>
    var dispatcher: Dispatcher<J>
    var permits: nat
    var outstanding: nat
    var accepted: seq<J>
    var dispatched: seq<J>
    var counting: set<nat>
    var running: set<nat>
    var finishing: set<nat>
    var finished: set<nat>
    var stage: Stage
    var callers: map<nat, Caller>

    ghost function Model(): State<J>
      reads this
    {
      State(capacity, maxConcurrency, workers, lifecycle, starting, sender, queue, dispatcher, permits, outstanding,
            accepted, dispatched, counting, running, finishing, finished, stage, callers)
    }

    constructor (capacity: nat, maxConcurrency: nat, workers: nat)
      ensures Model() == Init(capacity, maxConcurrency, workers)
    {
      this.capacity, this.maxConcurrency, this.workers := capacity, maxConcurrency, workers;
      lifecycle, starting, sender, queue, dispatcher := NotStarted, false, false, [], NotSpawned;
      permits, outstanding := maxConcurrency, 0;
      accepted, dispatched, counting, running, finishing, finished := [], [], {}, {}, {}, {};
      stage, callers := NotShutdown, map[];
    }

    /** The first half of `start`. Reports whether the caller may go on to `FinishStart`. */
    method BeginStart(runtimeBuilds: bool) returns (ok: bool)
      requires !starting && stage.NotShutdown?
      modifies `sender, `dispatcher, `starting
      ensures ok <==> lifecycle.NotStarted? && runtimeBuilds
      ensures Model() == if !lifecycle.NotStarted? then old(Model())
                         else Apply(old(Model()), if runtimeBuilds then OpenQueue else FailToStart)
    {
      ok := lifecycle.NotStarted? && runtimeBuilds;
      if lifecycle.NotStarted? {
        sender := true;
        if runtimeBuilds {
          dispatcher, starting := Receiving, true;
        }
      }
    }

    method FinishStart()
      requires starting
      modifies `lifecycle, `starting
      ensures Model() == Apply(old(Model()), BecomeRunning)
    {
      lifecycle, starting := Running, false;
    }

    /**
     The part of `submit` under the sender's lock. In a reachable state a job is taken exactly while the
     runtime runs and its queue has room, and each refusal has its one reason.
     */
    method TrySubmit(job: J) returns (r: SubmitResult)
      modifies `queue, `accepted, `counting
      ensures r == SubmitOutcome(old(Model())) && Model() == Apply(old(Model()), Submit(job))
      ensures Inv(old(Model())) ==>
        && (r.Accepted? <==> lifecycle.Running? && |old(queue)| < capacity)
        && (r.QueueFull? <==> lifecycle.Running? && |old(queue)| == capacity)
        && (r.NotRunning? <==> lifecycle.NotStarted?)
        && (r.RejectedShuttingDown? <==> lifecycle.ShuttingDown?)
        && (r.RejectedStopped? <==> lifecycle.Stopped?)
      ensures queue == (if r.Accepted? then old(queue) + [job] else old(queue))
      ensures accepted == (if r.Accepted? then old(accepted) + [job] else old(accepted))
    {
      if Inv(Model()) { AnswersHaveReasons(Model()); }
      match lifecycle {
        case NotStarted => r := NotRunning;
        case ShuttingDown => r := RejectedShuttingDown;
        case Stopped => r := RejectedStopped;
        case Running =>
          if !sender {
            r := NotRunning;
          } else if dispatcher.Exited? {
            r := RejectedShuttingDown;
          } else if |queue| >= capacity {
            r := QueueFull;
          } else {
            r := Accepted;
            queue, counting, accepted := queue + [job], counting + {|accepted|}, accepted + [job];
          }
      }
    }

    /** The fetch_add that follows it. */
    method CountSubmission(index: nat)
      requires index in counting
      modifies `counting, `outstanding
      ensures Model() == Apply(old(Model()), Count(index))
    {
      counting := counting - {index};
      outstanding := (outstanding + 1) % USIZE;
    }

    /** One turn of the dispatcher, if it can move. */
    method DispatcherTurn() returns (moved: bool)
      modifies `dispatcher, `queue, `permits, `dispatched, `running
      ensures moved <==> NextDispatch(old(Model())).Some?
      ensures Model() == if moved then Apply(old(Model()), NextDispatch(old(Model())).value) else old(Model())
    {
      moved := true;
      if dispatcher.Receiving? && queue != [] {
        dispatcher, queue := Holding(queue[0]), queue[1..];
      } else if dispatcher.Receiving? && !sender {
        dispatcher := Draining;
      } else if dispatcher.Holding? && 0 < permits {
        permits := permits - 1;
        running := running + {|dispatched|};
        dispatched := dispatched + [dispatcher.job];
        dispatcher := Receiving;
      } else if dispatcher.Draining? && outstanding == 0 {
        dispatcher := Exited;
      } else {
        moved := false;
      }
    }

    /** A handler returned: its permit drops first, its guard second. */
    method DropPermit(index: nat)
      requires IsEnabled(Model(), EndHandler(index))
      modifies `running, `finishing, `permits
      ensures Model() == Apply(old(Model()), EndHandler(index))
    {
      running, finishing, permits := running - {index}, finishing + {index}, permits + 1;
    }

    method DropOutstandingGuard(index: nat)
      requires index in finishing
      modifies `finishing, `finished, `outstanding
      ensures Model() == Apply(old(Model()), DropGuard(index))
    {
      finishing, finished := finishing - {index}, finished + {index};
      outstanding := (outstanding + USIZE - 1) % USIZE;
    }

    /** A caller of `shutdown` looks at the stage, for the first time or after a wake-up. */
    method LookAtStage(caller: nat)
      requires !starting && (caller !in callers || callers[caller].Waiting?)
      modifies `lifecycle, `stage, `callers
      ensures caller !in old(callers) ==> Model() == Apply(old(Model()), EnterShutdown(caller))
      ensures caller in old(callers) && !old(stage).NotShutdown? ==> Model() == Apply(old(Model()), WakeCaller(caller))
    {
      match stage {
        case Done => callers := callers[caller := Returned];
        case InProgress => callers := callers[caller := Waiting];
        case NotShutdown =>
          if lifecycle.Stopped? || lifecycle.NotStarted? {
            lifecycle, stage := Stopped, Done;
            callers := callers[caller := Returned];
          } else {
            stage := InProgress;
            callers := callers[caller := ClosingQueue];
          }
      }
    }

    method TakeSender(caller: nat)
      requires IsAt(Model(), caller, ClosingQueue)
      modifies `lifecycle, `sender, `callers
      ensures Model() == Apply(old(Model()), CloseQueue(caller))
    {
      lifecycle, sender := ShuttingDown, false;
      callers := callers[caller := JoiningDispatcher];
    }

    /** The dispatcher has been joined; the lifecycle and then the stage are published. */
    method PublishStopped(caller: nat)
      requires IsAt(Model(), caller, JoiningDispatcher) && dispatcher.Exited?
      modifies `lifecycle, `callers
      ensures var s := old(Model()); Model() == Apply(Apply(s, JoinDispatcher(caller)), StopLifecycle(caller))
    {
      lifecycle := Stopped;
      callers := callers[caller := MarkingDone];
    }

    method PublishDone(caller: nat)
      requires IsAt(Model(), caller, MarkingDone)
      modifies `stage, `callers
      ensures Model() == Apply(old(Model()), MarkDone(caller))
    {
      stage := Done;
      callers := callers[caller := Returned];
    }

    /**
     One look of `flush_impl` at the state, on entry or inside its loop. A success says that the live
     jobs are exactly as many as the submitters that have yet to count theirs, and that every job is
     through if there is none of these; a timeout says that the two differ, and so does going on waiting.
     */
    method LookForFlush(onEntry: bool, deadlinePassed: bool) returns (r: Option<FlushAnswer>)
      ensures r == if onEntry then FlushOnEntry(Model()) else FlushPoll(Model(), deadlinePassed)
      ensures r == Some(FlushNotRunning) <==> onEntry && lifecycle.NotStarted?
      ensures Inv(Model()) && |counting| < USIZE && r == Some(Flushed) ==>
        Live(Model()) == |counting| && (AllFinished(Model()) <==> counting == {})
      ensures Inv(Model()) && |counting| < USIZE && r == Some(TimedOut) ==>
        Live(Model()) != |counting| && deadlinePassed
      ensures Inv(Model()) && |counting| < USIZE && r.None? && !onEntry ==>
        Live(Model()) != |counting| && !deadlinePassed
      ensures r == Some(Flushed) && onEntry ==> lifecycle.Stopped?
    {
      if Inv(Model()) && |counting| < USIZE {
        ZeroMeansBalanced(Model());
        if outstanding == 0 { FlushIsHonestExactly(Model(), false); }
      }
      if onEntry {
        if lifecycle.NotStarted? { return Some(FlushNotRunning); }
        if lifecycle.Stopped? && outstanding == 0 { return Some(Flushed); }
        return None;
      }
      if outstanding == 0 { return Some(Flushed); }
      r := if deadlinePassed then Some(TimedOut) else None;
    }
  }
}
