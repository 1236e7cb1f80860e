/**
 The connection protocol of the TypeScript storage manager, as a transition system.

 One step is one stretch of JavaScript between two suspension points, so a step is atomic.
 Adapter calls may succeed or fail; the completion steps carry the outcome. Tickets number the
 promises of the serial queue: ticket t waits for ticket t - 1, and ticket 0 is the resolved
 promise the queue starts from.
 */
module StorageProtocol {
  import opened Wrappers

  const CONN_TTL_MS := 30_000
  const STALE_TX_TTL_MS := 60_000

  datatype ErrorCode = JsonErr | UnknownOp | NoConn | ShuttingDown | AdapterErr

  /** What `resolve` is called with. */
  datatype Reply = Connected(id: nat) | Rows | Acknowledged | Failure(code: ErrorCode)

  datatype AdapterOp = Execute | Begin | Commit | Rollback

  /** The transaction-relevant calls one adapter has seen. `Began` is a begin that succeeded. */
  datatype AdapterCall = Began | CommitTried | RollbackTried | CloseTried

  datatype TrackedAdapter = TrackedAdapter(
    lastUsed: int,
    isBusy: bool,
    inTransaction: bool,
    lock: Option<nat>)  // the ticket `releaseSerialLock` would release

  /** A storage call whose `dispatchOp` promise has not settled. */
  datatype Pending =
    | Waiting(conn: nat, ticket: nat)                    // acquire, awaiting the previous ticket
    | Running(conn: nat, op: AdapterOp)                  // an adapter operation is in flight
    | ClosingRollback(conn: nat, lock: Option<nat>)      // close request, rollback in flight
    | ClosingClose(conn: nat, lock: Option<nat>)         // close request, adapter close in flight

  datatype CleanupPhase = RollingBack | Closing

  /** How far `StorageManager.close` has got. */
  datatype Closer =
    | NotClosing
    | Draining(calls: set<nat>, sweeps: set<nat>)
    | VisitRollback(conn: nat)
    | VisitClose(conn: nat)
    | Closed

  datatype State = State(
    serial: bool,                               // needsSerialAccess
    connections: map<nat, TrackedAdapter>,
    nextConnId: nat,
    nextTicket: nat,                            // the serial queue ends in ticket nextTicket - 1
    released: set<nat>,                         // tickets whose promise is resolved
    pending: map<nat, Pending>,                 // by call number
    nextCall: nat,
    replies: map<nat, seq<Reply>>,              // everything `resolve` was called with, by call number
    cleanups: map<nat, CleanupPhase>,           // sweeper promises, by connection
    history: map<nat, seq<AdapterCall>>,        // per adapter ever handed out
    acquiredBy: map<nat, nat>,                  // the acquire call each connection id was drawn by
    closer: Closer,
    lateBegin: bool)                            // a begin was admitted after shutdown had started
  {
    predicate IsShutDown() { !closer.NotClosing? }
  }

  function Init(serial: bool): State {
    State(serial, map[], 1, 1, {0}, map[], 0, map[], map[], map[], map[], NotClosing, false)
  }

  datatype Step =
    | CallMalformed                                                       // unparsable JSON
    | CallUnknown                                                         // an op outside the protocol
    | CallAcquire(now: int, throwsAt: Option<nat>, factoryOk: bool)
    | CallOperation(op: AdapterOp, conn: int, now: int)
    | CallClose(conn: int)
    | Grant(call: nat, now: int)
    | FinishOperation(call: nat, ok: bool, now: int)
    | FinishCloseRollback(call: nat, ok: bool)
    | FinishClose(call: nat)
    | TimerSweep(now: int, throwsAt: Option<nat>)
    | FinishSweepRollback(swept: nat)
    | FinishSweepClose(swept: nat)
    | StartShutdown
    | FinishDrain
    | FinishVisitRollback
    | FinishVisitClose

  // ---------- pieces ----------

  predicate IsStale(e: TrackedAdapter, now: int) {
    !e.isBusy && e.lastUsed < now - (if e.inTransaction then STALE_TX_TTL_MS else CONN_TTL_MS)
  }

  function Release(released: set<nat>, lock: Option<nat>): set<nat> {
    if lock.Some? then released + {lock.value} else released
  }

  function LocksOf(connections: map<nat, TrackedAdapter>, ids: set<nat>): set<nat> {
    set id | id in ids && id in connections && connections[id].lock.Some? :: connections[id].lock.value
  }

  /** The replies once `call` has been answered, or once more, with `r`. */
  function Answered(replies: map<nat, seq<Reply>>, call: nat, r: Reply): map<nat, seq<Reply>> {
    replies[call := (if call in replies then replies[call] else []) + [r]]
  }

  function Recorded(history: map<nat, seq<AdapterCall>>, conn: nat, calls: seq<AdapterCall>): map<nat, seq<AdapterCall>>
    requires conn in history
  {
    history[conn := history[conn] + calls]
  }

  /** A new call that is answered before its first suspension point. */
  function AnswerNew(s: State, r: Reply): State {
    s.(nextCall := s.nextCall + 1, replies := s.replies[s.nextCall := [r]])
  }

  /** The first adapter call that cleaning up an entry makes. */
  function FirstCleanup(e: TrackedAdapter): AdapterCall {
    if e.inTransaction then RollbackTried else CloseTried
  }

  /** Table entries are visited in increasing id, the insertion order of the source's map. */
  function SweptBy(connections: map<nat, TrackedAdapter>, now: int, throwsAt: Option<nat>): set<nat> {
    set id | id in connections && IsStale(connections[id], now) && (throwsAt.Some? ==> id <= throwsAt.value)
  }

  predicate CanThrowAt(connections: map<nat, TrackedAdapter>, now: int, throwsAt: Option<nat>) {
    throwsAt.Some? ==> throwsAt.value in connections && IsStale(connections[throwsAt.value], now)
  }

  /**
   One sweep. An adapter may throw synchronously, at entry `throwsAt`; the sweep then stops there,
   with that entry removed and its lock released but no cleanup promise left behind.
   */
  function Sweep(s: State, now: int, throwsAt: Option<nat>): State
    requires s.connections.Keys <= s.history.Keys
  {
    SweepEntries(s, SweptBy(s.connections, now, throwsAt), throwsAt)
  }

  function SweepEntries(s: State, swept: set<nat>, throwsAt: Option<nat>): State
    requires swept <= s.connections.Keys <= s.history.Keys
  {
    s.(connections := Without(s.connections, swept),
       released := s.released + LocksOf(s.connections, swept),
       cleanups := SweptCleanups(s.cleanups, s.connections, swept, throwsAt),
       history := SweptHistory(s.history, s.connections, swept))
  }

  function Without(connections: map<nat, TrackedAdapter>, ids: set<nat>): map<nat, TrackedAdapter> {
    map id | id in connections && id !in ids :: connections[id]
  }

  function CleanupOf(e: TrackedAdapter): CleanupPhase {
    if e.inTransaction then RollingBack else Closing
  }

  function SweptCleanups(cleanups: map<nat, CleanupPhase>, connections: map<nat, TrackedAdapter>, swept: set<nat>,
                         throwsAt: Option<nat>): map<nat, CleanupPhase>
    requires swept <= connections.Keys
  {
    map id | id in cleanups.Keys + swept && (id in swept ==> throwsAt != Some(id)) ::
      if id in swept then CleanupOf(connections[id]) else cleanups[id]
  }

  function SweptHistory(history: map<nat, seq<AdapterCall>>, connections: map<nat, TrackedAdapter>, swept: set<nat>):
    map<nat, seq<AdapterCall>>
    requires swept <= connections.Keys
  {
    map id | id in history :: if id in swept then history[id] + [FirstCleanup(connections[id])] else history[id]
  }

  /** Is `id` the first entry that `close` visits after `cursor`? */
  ghost predicate IsNextVisit(connections: map<nat, TrackedAdapter>, cursor: nat, id: nat) {
    id in connections && cursor < id && forall other :: other in connections && cursor < other ==> id <= other
  }

  lemma NextVisitExists(connections: map<nat, TrackedAdapter>, cursor: nat, id: nat)
    requires id in connections && cursor < id
    ensures exists first :: IsNextVisit(connections, cursor, first)
  {
    if !IsNextVisit(connections, cursor, id) {
      var other :| other in connections && cursor < other < id;
      NextVisitExists(connections, cursor, other);
    }
  }

  function Above(connections: map<nat, TrackedAdapter>, cursor: nat): set<nat> {
    set id | id in connections && cursor < id
  }

  ghost function NextVisit(connections: map<nat, TrackedAdapter>, cursor: nat): (id: nat)
    requires Above(connections, cursor) != {}
    ensures IsNextVisit(connections, cursor, id)
  {
    var some :| some in Above(connections, cursor);
    NextVisitExists(connections, cursor, some);
    var id :| IsNextVisit(connections, cursor, id);
    id
  }

  /** `close` moves on from entry `cursor`: to the next entry, or past the end of the table. */
  ghost function Advance(s: State, cursor: nat): State
    requires s.connections.Keys <= s.history.Keys
  {
    if Above(s.connections, cursor) == {} then
      s.(connections := map[], closer := Closed)
    else
      Visit(s, NextVisit(s.connections, cursor))
  }

  function Visit(s: State, id: nat): State
    requires id in s.connections && id in s.history
  {
    var e := s.connections[id];
    s.(closer := if e.inTransaction then VisitRollback(id) else VisitClose(id),
       history := Recorded(s.history, id, [FirstCleanup(e)]))
  }

  // ---------- the transition function ----------

  /** Rust issues one operation at a time on a connection. */
  predicate IsQuiet(s: State, conn: int) {
    forall c :: c in s.pending ==> s.pending[c].conn != conn
  }

  predicate IsWellTyped(s: State) {
    && s.connections.Keys <= s.history.Keys
    && s.pending.Keys <= s.replies.Keys
    && (forall c :: c in s.pending ==> s.pending[c].conn in s.history)
    && s.cleanups.Keys <= s.history.Keys
    && (s.closer.VisitRollback? || s.closer.VisitClose? ==> s.closer.conn in s.history)
  }

  predicate IsEnabled(s: State, step: Step) {
    && IsWellTyped(s)
    && match step
       case CallMalformed => true
       case CallUnknown => true
       case CallAcquire(now, throwsAt, _) => CanThrowAt(s.connections, now, throwsAt)
       case CallOperation(_, conn, _) => IsQuiet(s, conn)
       case CallClose(conn) => IsQuiet(s, conn)
       case Grant(c, _) => CanGrant(s, c)
       case FinishOperation(c, _, _) => c in s.pending && s.pending[c].Running?
       case FinishCloseRollback(c, _) => c in s.pending && s.pending[c].ClosingRollback?
       case FinishClose(c) => c in s.pending && s.pending[c].ClosingClose?
       case TimerSweep(now, throwsAt) => !s.IsShutDown() && CanThrowAt(s.connections, now, throwsAt)
       case FinishSweepRollback(conn) => conn in s.cleanups && s.cleanups[conn].RollingBack?
       case FinishSweepClose(conn) => conn in s.cleanups && s.cleanups[conn].Closing?
       case StartShutdown => !s.IsShutDown()
       case FinishDrain =>
         s.closer.Draining? && s.closer.calls !! s.pending.Keys && s.closer.sweeps !! s.cleanups.Keys
       case FinishVisitRollback => s.closer.VisitRollback?
       case FinishVisitClose => s.closer.VisitClose?
  }

  /** A waiting acquire goes on once the ticket before its own is released. */
  predicate CanGrant(s: State, call: nat) {
    call in s.pending && s.pending[call].Waiting? && s.pending[call].ticket - 1 in s.released
  }

  /** The part of an acquire that follows its sweep, when access is serialised. */
  function DrawTicket(s: State): State {
    var id := s.nextConnId;
    s.(nextConnId := id + 1,
       history := s.history[id := []],
       acquiredBy := s.acquiredBy[id := s.nextCall],
       nextTicket := s.nextTicket + 1,
       nextCall := s.nextCall + 1,
       replies := s.replies[s.nextCall := []],
       pending := s.pending[s.nextCall := Waiting(id, s.nextTicket)])
  }

  /** The same part when it is not: the connection is handed out at once. */
  function ConnectAtOnce(s: State, now: int): State {
    var id := s.nextConnId;
    s.(nextConnId := id + 1,
       history := s.history[id := []],
       acquiredBy := s.acquiredBy[id := s.nextCall],
       connections := s.connections[id := TrackedAdapter(now, false, false, None)],
       nextCall := s.nextCall + 1,
       replies := s.replies[s.nextCall := [Connected(id)]])
  }

  function Acquire(s: State, now: int, throwsAt: Option<nat>, factoryOk: bool): State
    requires IsWellTyped(s)
  {
    var t := Sweep(s, now, throwsAt);
    if throwsAt.Some? || !factoryOk then AnswerNew(t, Failure(AdapterErr))
    else if s.serial then DrawTicket(t) else ConnectAtOnce(t, now)
  }

  function GrantTicket(s: State, call: nat, now: int): State
    requires IsWellTyped(s) && CanGrant(s, call)
  {
    if s.IsShutDown() then Refuse(s, call) else Admit(s, call, now)
  }

  /** A waiter that finds the manager shut down passes its ticket on and gives up. */
  function Refuse(s: State, call: nat): State
    requires IsWellTyped(s) && CanGrant(s, call)
  {
    s.(released := s.released + {s.pending[call].ticket},
       pending := s.pending - {call},
       replies := Answered(s.replies, call, Failure(ShuttingDown)))
  }

  function Admit(s: State, call: nat, now: int): State
    requires IsWellTyped(s) && CanGrant(s, call)
  {
    var Waiting(conn, ticket) := s.pending[call];
    s.(connections := s.connections[conn := TrackedAdapter(now, false, false, Some(ticket))],
       pending := s.pending - {call},
       replies := Answered(s.replies, call, Connected(conn)))
  }

  function StartOperation(s: State, op: AdapterOp, conn: int, now: int): State
    requires IsWellTyped(s)
  {
    if conn !in s.connections then
      AnswerNew(s, if op.Rollback? then Acknowledged else Failure(NoConn))
    else if op.Begin? && s.serial && s.IsShutDown() then
      AnswerNew(s, Failure(ShuttingDown))
    else
      RunOperation(s, op, conn, now)
  }

  function CallsAtStart(op: AdapterOp): seq<AdapterCall> {
    if op.Commit? then [CommitTried] else if op.Rollback? then [RollbackTried] else []
  }

  function RunOperation(s: State, op: AdapterOp, id: nat, now: int): State
    requires id in s.connections && id in s.history
  {
    s.(connections := s.connections[id := s.connections[id].(lastUsed := now, isBusy := true)],
       lateBegin := s.lateBegin || (op.Begin? && s.IsShutDown()),
       history := Recorded(s.history, id, CallsAtStart(op)),
       nextCall := s.nextCall + 1,
       replies := s.replies[s.nextCall := []],
       pending := s.pending[s.nextCall := Running(id, op)])
  }

  function AfterOperation(e: TrackedAdapter, op: AdapterOp, ok: bool, now: int): TrackedAdapter {
    var settled := e.(isBusy := false, lastUsed := now);
    match op
    case Execute => settled
    case Begin => if ok then settled.(inTransaction := true) else settled.(lock := None)
    case Commit => settled.(inTransaction := false)
    case Rollback => settled.(inTransaction := false)
  }

  function SettledTable(connections: map<nat, TrackedAdapter>, conn: nat, op: AdapterOp, ok: bool, now: int):
    map<nat, TrackedAdapter>
  {
    if conn in connections
    then connections[conn := AfterOperation(connections[conn], op, ok, now)]
    else connections
  }

  function ReplyAfter(op: AdapterOp, ok: bool): Reply {
    if op.Rollback? then Acknowledged
    else if !ok then Failure(AdapterErr)
    else if op.Execute? then Rows
    else Acknowledged
  }

  /** What the outcome of an adapter operation says about its answer. */
  predicate IsOutcome(op: AdapterOp, ok: bool, r: Reply) {
    && (!r.Failure? <==> ok || op.Rollback?)
    && (r.Rows? <==> ok && op.Execute?)
    && (r.Failure? ==> r.code.AdapterErr?)
    && !r.Connected?
  }

  function SettleOperation(s: State, call: nat, ok: bool, now: int): State
    requires IsWellTyped(s) && call in s.pending && s.pending[call].Running?
  {
    var Running(conn, op) := s.pending[call];
    s.(connections := SettledTable(s.connections, conn, op, ok, now),
       released := if op.Begin? && !ok && conn in s.connections
                   then Release(s.released, s.connections[conn].lock) else s.released,
       history := Recorded(s.history, conn, if op.Begin? && ok then [Began] else []),
       pending := s.pending - {call},
       replies := Answered(s.replies, call, ReplyAfter(op, ok)))
  }

  function StartClose(s: State, conn: int): State
    requires IsWellTyped(s)
  {
    if conn !in s.connections then AnswerNew(s, Acknowledged) else CloseEntry(s, conn)
  }

  function CloseEntry(s: State, id: nat): State
    requires id in s.connections && id in s.history
  {
    var e := s.connections[id];
    s.(connections := s.connections - {id},
       history := Recorded(s.history, id, [FirstCleanup(e)]),
       nextCall := s.nextCall + 1,
       replies := s.replies[s.nextCall := []],
       pending := s.pending[s.nextCall :=
         if e.inTransaction then ClosingRollback(id, e.lock) else ClosingClose(id, e.lock)])
  }

  /** A rollback that throws skips the adapter's close: both sit in one `try`. */
  function SettleCloseRollback(s: State, call: nat, ok: bool): State
    requires IsWellTyped(s) && call in s.pending && s.pending[call].ClosingRollback?
  {
    var ClosingRollback(conn, lock) := s.pending[call];
    if ok then
      s.(pending := s.pending[call := ClosingClose(conn, lock)],
         history := Recorded(s.history, conn, [CloseTried]))
    else
      SettleClosing(s, call)
  }

  /** The end of a close request: its ticket, if it has one, is released. */
  function SettleClosing(s: State, call: nat): State
    requires call in s.pending && (s.pending[call].ClosingRollback? || s.pending[call].ClosingClose?)
  {
    s.(released := Release(s.released, s.pending[call].lock),
       pending := s.pending - {call},
       replies := Answered(s.replies, call, Acknowledged))
  }

  function BeginShutdown(s: State): State {
    s.(connections := map id | id in s.connections :: s.connections[id].(lock := None),
       released := s.released + LocksOf(s.connections, s.connections.Keys),
       closer := Draining(s.pending.Keys, s.cleanups.Keys))
  }

  /** The suspended call that a step lets go on, if any. */
  function SettledCall(step: Step): Option<nat> {
    match step
    case Grant(call, _) => Some(call)
    case FinishOperation(call, _, _) => Some(call)
    case FinishCloseRollback(call, _) => Some(call)
    case FinishClose(call) => Some(call)
    case _ => None
  }

  predicate IsUntouched(s: State, t: State, call: nat)
    requires call in s.replies
  {
    && call in t.replies && t.replies[call] == s.replies[call]
    && (call in t.pending <==> call in s.pending)
    && (call in s.pending ==> t.pending[call] == s.pending[call])
  }

  /** What a step keeps: the mode, a shutdown, the closed serial table, and every call but the one it settles. */
  predicate IsLocal(s: State, t: State, settled: Option<nat>) {
    && t.serial == s.serial
    && (s.IsShutDown() ==> t.IsShutDown())
    && (s.IsShutDown() && s.serial ==> t.connections.Keys <= s.connections.Keys)
    && forall c :: c in s.replies && c != s.nextCall && settled != Some(c) ==> IsUntouched(s, t, c)
  }

  lemma AcquireIsLocal(s: State, now: int, throwsAt: Option<nat>, factoryOk: bool)
    requires IsWellTyped(s)
    ensures IsLocal(s, Acquire(s, now, throwsAt, factoryOk), None)
  {
    hide SweptBy, LocksOf, SweptCleanups, SweptHistory;
  }

  lemma SweepIsLocal(s: State, now: int, throwsAt: Option<nat>)
    requires IsWellTyped(s)
    ensures IsLocal(s, Sweep(s, now, throwsAt), None)
  {
    hide SweptBy, LocksOf, SweptCleanups, SweptHistory;
  }

  lemma BeginShutdownIsLocal(s: State)
    ensures IsLocal(s, BeginShutdown(s), None)
  {
    hide LocksOf;
  }

  lemma AdvanceIsLocal(s: State, cursor: nat)
    requires IsWellTyped(s)
    ensures IsLocal(s, Advance(s, cursor), None)
  {
    hide FirstCleanup, Recorded, IsNextVisit;
  }

  lemma StartOperationIsLocal(s: State, op: AdapterOp, conn: int, now: int)
    requires IsWellTyped(s)
    ensures IsLocal(s, StartOperation(s, op, conn, now), None)
  {
    assert conn in s.connections ==> conn in s.history;
    hide CallsAtStart, Recorded, IsWellTyped;
  }

  lemma StartCloseIsLocal(s: State, conn: int)
    requires IsWellTyped(s)
    ensures IsLocal(s, StartClose(s, conn), None)
  {
    hide FirstCleanup, Recorded;
  }

  predicate IsRequest(step: Step) {
    step.CallMalformed? || step.CallUnknown? || step.CallAcquire? || step.CallOperation? || step.CallClose?
  }

  function ApplyRequest(s: State, step: Step): (t: State)
    requires IsEnabled(s, step) && IsRequest(step)
    ensures IsLocal(s, t, SettledCall(step))
  {
    hide Acquire, StartOperation, StartClose;
    match step
    case CallMalformed => AnswerNew(s, Failure(JsonErr))
    case CallUnknown => AnswerNew(s, Failure(UnknownOp))
    case CallAcquire(now, throwsAt, factoryOk) =>
      AcquireIsLocal(s, now, throwsAt, factoryOk);
      Acquire(s, now, throwsAt, factoryOk)
    case CallOperation(op, conn, now) =>
      StartOperationIsLocal(s, op, conn, now);
      StartOperation(s, op, conn, now)
    case CallClose(conn) =>
      StartCloseIsLocal(s, conn);
      StartClose(s, conn)
  }

  function SettleCall(s: State, step: Step): (t: State)
    requires IsEnabled(s, step) && SettledCall(step).Some?
    ensures IsLocal(s, t, SettledCall(step))
    ensures step.FinishOperation? ==>
      && step.call !in t.pending && step.call in s.replies && step.call in t.replies
      && exists r :: t.replies[step.call] == s.replies[step.call] + [r] && IsOutcome(s.pending[step.call].op, step.ok, r)
  {
    match step
    case Grant(call, now) => GrantTicket(s, call, now)
    case FinishOperation(call, ok, now) => SettleOperation(s, call, ok, now)
    case FinishCloseRollback(call, ok) => SettleCloseRollback(s, call, ok)
    case FinishClose(call) => SettleClosing(s, call)
  }

  /** Sweeps and the shutdown sequence, which answer nobody. */
  ghost function ApplyOwn(s: State, step: Step): (t: State)
    requires IsEnabled(s, step) && !IsRequest(step) && SettledCall(step).None?
    ensures IsLocal(s, t, SettledCall(step))
  {
    hide Sweep, BeginShutdown, Advance;
    match step
    case TimerSweep(now, throwsAt) =>
      SweepIsLocal(s, now, throwsAt);
      Sweep(s, now, throwsAt)
    case FinishSweepRollback(conn) =>
      s.(cleanups := s.cleanups[conn := Closing], history := Recorded(s.history, conn, [CloseTried]))
    case FinishSweepClose(conn) => s.(cleanups := s.cleanups - {conn})
    case StartShutdown =>
      BeginShutdownIsLocal(s);
      BeginShutdown(s)
    case FinishDrain =>
      AdvanceIsLocal(s, 0);
      Advance(s, 0)
    case FinishVisitRollback =>
      s.(closer := VisitClose(s.closer.conn), history := Recorded(s.history, s.closer.conn, [CloseTried]))
    case FinishVisitClose =>
      AdvanceIsLocal(s, s.closer.conn);
      Advance(s, s.closer.conn)
  }

  ghost function Apply(s: State, step: Step): (t: State)
    requires IsEnabled(s, step)
    ensures IsLocal(s, t, SettledCall(step))
  {
    if IsRequest(step) then ApplyRequest(s, step)
    else if SettledCall(step).Some? then SettleCall(s, step)
    else ApplyOwn(s, step)
  }

  /** Every step is taken when it is enabled. */
  ghost predicate IsRun(s: State, steps: seq<Step>)
    decreases |steps|
  {
    steps == [] || (IsEnabled(s, steps[0]) && IsRun(Apply(s, steps[0]), steps[1..]))
  }

  ghost function RunAll(s: State, steps: seq<Step>): State
    requires IsRun(s, steps)
    decreases |steps|
  {
    if steps == [] then s else RunAll(Apply(s, steps[0]), steps[1..])
  }
}
