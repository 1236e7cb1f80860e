/**
 What every run of the connection protocol keeps: each call is answered once, connection ids and
 serial tickets are never shared, no ticket is lost, grants follow acquire order, and an adapter's
 open transaction is ended before the adapter is closed.
 */
module StorageSafety {
  import opened Wrappers
  import opened StorageProtocol
  import opened StorageTickets

  // ---------- calls and connection ids ----------

  ghost predicate CallsAnsweredOnce(replies: map<nat, seq<Reply>>, nextCall: nat, pending: Calls) {
    && (forall c: nat :: c in replies <==> c < nextCall)
    && pending.Keys <= replies.Keys
    && (forall c :: c in replies ==> |replies[c]| == (if c in pending then 0 else 1))
  }

  ghost predicate ConnectionsSeparate(ids: set<nat>, nextConnId: nat, connections: Table,
                                      sweeping: set<nat>, pending: Calls)
  {
    && 1 <= nextConnId
    && (forall i: nat :: i in ids <==> 1 <= i < nextConnId)
    && connections.Keys <= ids
    && sweeping <= ids
    && sweeping !! connections.Keys
    && (forall c :: c in pending ==> pending[c].conn in ids && pending[c].conn !in sweeping)
    && (forall c, d :: c in pending && d in pending && pending[c].conn == pending[d].conn ==> c == d)
    && (forall c :: c in pending && pending[c].conn in connections ==>
         pending[c].Running? && connections[pending[c].conn].isBusy)
  }

  ghost predicate IdsNeverReused(acquiredBy: map<nat, nat>, ids: set<nat>, replies: map<nat, seq<Reply>>, pending: Calls) {
    && acquiredBy.Keys == ids
    && (forall c :: c in replies && |replies[c]| == 1 && replies[c][0].Connected? ==>
         replies[c][0].id in acquiredBy && acquiredBy[replies[c][0].id] == c)
    && (forall c :: c in pending && pending[c].Waiting? ==>
         pending[c].conn in acquiredBy && acquiredBy[pending[c].conn] == c)
  }

  // ---------- transactions ----------

  /** Does the adapter hold a transaction that nobody has tried to end? */
  function InOpenTransaction(h: seq<AdapterCall>): bool {
    if h == [] then false
    else match h[|h| - 1]
      case Began => true
      case CommitTried => false
      case RollbackTried => false
      case CloseTried => InOpenTransaction(h[..|h| - 1])
  }

  /** Every close attempt comes after an attempt to end the last begun transaction. */
  ghost predicate ClosesAreClean(h: seq<AdapterCall>) {
    forall k :: 0 <= k < |h| && h[k].CloseTried? ==> !InOpenTransaction(h[..k])
  }

  lemma CleanAfterCall(h: seq<AdapterCall>, c: AdapterCall)
    ensures InOpenTransaction(h + [c]) == (c.Began? || (c.CloseTried? && InOpenTransaction(h)))
    ensures ClosesAreClean(h) && (c.CloseTried? ==> !InOpenTransaction(h)) ==> ClosesAreClean(h + [c])
  {
    var g := h + [c];
    assert g[..|h|] == h;
    forall k | ClosesAreClean(h) && (c.CloseTried? ==> !InOpenTransaction(h)) && 0 <= k < |g| && g[k].CloseTried?
      ensures !InOpenTransaction(g[..k])
    {
      assert g[..k] == h[..k];
    }
  }

  predicate MayBeginOrRun(p: Pending) { p.Running? && (p.op.Execute? || p.op.Begin?) }

  predicate IsBegin(p: Pending) { p.Running? && p.op.Begin? }

  ghost predicate TransactionsTracked(history: map<nat, seq<AdapterCall>>, connections: Table,
                                      pending: Calls, sweeping: set<nat>)
  {
    && (forall i :: i in connections && i in history && InOpenTransaction(history[i]) ==> connections[i].inTransaction)
    && (forall c :: c in pending && pending[c].conn in history && !MayBeginOrRun(pending[c]) ==>
         !InOpenTransaction(history[pending[c].conn]))
    && (forall i :: i in sweeping && i in history ==> !InOpenTransaction(history[i]))
  }

  ghost predicate HistoriesClean(history: map<nat, seq<AdapterCall>>) {
    forall i :: i in history ==> ClosesAreClean(history[i])
  }

  /** After the drain no begin is in flight, unless one was admitted after shutdown had started. */
  ghost predicate BeginsDrained(closer: Closer, pending: Calls) {
    match closer
    case NotClosing => true
    case Draining(calls, _) => forall c :: c in pending && IsBegin(pending[c]) ==> c in calls
    case _ => forall c :: c in pending ==> !IsBegin(pending[c])
  }

  ghost predicate ShutdownOrderly(s: State) {
    && (s.closer.VisitRollback? || s.closer.VisitClose? ==> s.closer.conn in s.history)
    && (s.IsShutDown() ==> forall i :: i in s.connections ==> s.connections[i].lock.None?)
    && (s.closer.Closed? && s.serial ==> s.connections == map[])
    && (s.serial || s.closer.NotClosing? ==> !s.lateBegin)
    && (!s.lateBegin ==>
         && BeginsDrained(s.closer, s.pending)
         && HistoriesClean(s.history)
         && (s.closer.VisitRollback? && s.closer.conn in s.history ==> !InOpenTransaction(s.history[s.closer.conn])))
  }

  // ---------- the invariant ----------

  ghost predicate Bookkeeping(s: State) {
    && CallsAnsweredOnce(s.replies, s.nextCall, s.pending)
    && ConnectionsSeparate(s.history.Keys, s.nextConnId, s.connections, s.cleanups.Keys, s.pending)
    && IdsNeverReused(s.acquiredBy, s.history.Keys, s.replies, s.pending)
  }

  ghost predicate Tickets(s: State) {
    && s.nextTicket == (if s.serial then s.nextConnId else 1)
    && TicketsKept(s.released, s.nextTicket, s.connections, s.pending)
  }

  ghost predicate Transactions(s: State) {
    && TransactionsTracked(s.history, s.connections, s.pending, s.cleanups.Keys)
    && ShutdownOrderly(s)
  }

  ghost predicate Inv(s: State) {
    Bookkeeping(s) && Tickets(s) && Transactions(s)
  }

  lemma InvIsWellTyped(s: State)
    requires Inv(s)
    ensures IsWellTyped(s)
  {
  }

  lemma InitInv(serial: bool)
    ensures Inv(Init(serial))
  {
  }

  // ---------- steps keep the transactions ----------

  lemma CleanAfterCalls(h: seq<AdapterCall>, calls: seq<AdapterCall>)
    requires |calls| <= 1
    requires CloseTried in calls ==> !InOpenTransaction(h)
    ensures ClosesAreClean(h) ==> ClosesAreClean(h + calls)
    ensures InOpenTransaction(h + calls) ==> Began in calls || (InOpenTransaction(h) && calls == [])
  {
    if calls == [] { assert h + calls == h; } else { assert calls == [calls[0]]; CleanAfterCall(h, calls[0]); }
  }

  lemma StartedCallsAreClean(h: seq<AdapterCall>, op: AdapterOp)
    ensures ClosesAreClean(h) ==> ClosesAreClean(h + CallsAtStart(op))
    ensures InOpenTransaction(h + CallsAtStart(op)) ==> InOpenTransaction(h) && (op.Execute? || op.Begin?)
  {
    CleanAfterCalls(h, CallsAtStart(op));
  }

  // ---------- every step keeps the invariant ----------

  lemma AnswerKeepsInv(s: State, r: Reply)
    requires IsWellTyped(s) && Inv(s)
    requires !r.Connected?
    ensures Inv(AnswerNew(s, r))
  {
    hide ConnectionsSeparate, TicketsKept, TransactionsTracked, IsWellTyped;
    var t := AnswerNew(s, r);
  }

  lemma FreshIdWaits(ids: set<nat>, n: nat, connections: Table, sweeping: set<nat>, pending: Calls, call: nat, t: nat)
    requires ConnectionsSeparate(ids, n, connections, sweeping, pending) && call !in pending
    ensures n !in ids && ConnectionsSeparate(ids + {n}, n + 1, connections, sweeping, pending[call := Waiting(n, t)])
  {
  }

  lemma FreshIdConnects(ids: set<nat>, n: nat, connections: Table, sweeping: set<nat>, pending: Calls, e: TrackedAdapter)
    requires ConnectionsSeparate(ids, n, connections, sweeping, pending)
    ensures ConnectionsSeparate(ids + {n}, n + 1, connections[n := e], sweeping, pending)
  {
  }

  lemma FreshIdIsNotReused(acquiredBy: map<nat, nat>, ids: set<nat>, n: nat, replies: map<nat, seq<Reply>>, call: nat,
                           pending: Calls, t: nat)
    requires IdsNeverReused(acquiredBy, ids, replies, pending)
    requires n !in ids && call !in replies && pending.Keys <= replies.Keys
    ensures IdsNeverReused(acquiredBy[n := call], ids + {n}, replies[call := []], pending[call := Waiting(n, t)])
    ensures IdsNeverReused(acquiredBy[n := call], ids + {n}, replies[call := [Connected(n)]], pending)
  {
  }

  lemma DrawTicketKeepsBookkeeping(s: State) returns (t: State)
    requires IsWellTyped(s) && Bookkeeping(s)
    requires s.serial
    ensures t == DrawTicket(s)
    ensures Bookkeeping(t)
  {
    t := DrawTicket(s);
    hide ConnectionsSeparate, IdsNeverReused;
    FreshIdWaits(s.history.Keys, s.nextConnId, s.connections, s.cleanups.Keys, s.pending, s.nextCall, s.nextTicket);
    FreshIdIsNotReused(s.acquiredBy, s.history.Keys, s.nextConnId, s.replies, s.nextCall, s.pending, s.nextTicket);
    assert t.history.Keys == s.history.Keys + {s.nextConnId};
  }

  lemma DrawTicketKeepsTransactions(s: State) returns (t: State)
    requires IsWellTyped(s) && Bookkeeping(s) && Transactions(s)
    requires s.serial
    ensures t == DrawTicket(s)
    ensures Transactions(t)
  {
    hide Bookkeeping;
    t := DrawTicket(s);
  }

  lemma DrawTicketKeepsQueue(s: State)
    requires IsWellTyped(s) && Bookkeeping(s) && Tickets(s)
    requires s.serial
    ensures Tickets(DrawTicket(s))
  {
    DrawKeepsTickets(s.released, s.nextTicket, s.connections, s.pending, s.nextCall);
  }

  lemma DrawTicketKeepsInv(s: State)
    requires IsWellTyped(s) && Inv(s)
    requires s.serial
    ensures Inv(DrawTicket(s))
  {
    var _ := DrawTicketKeepsBookkeeping(s);
    var _ := DrawTicketKeepsTransactions(s);
    DrawTicketKeepsQueue(s);
  }

  lemma ConnectAtOnceKeepsBookkeeping(s: State, now: int) returns (t: State)
    requires IsWellTyped(s) && Bookkeeping(s)
    requires !s.serial
    ensures t == ConnectAtOnce(s, now)
    ensures Bookkeeping(t)
  {
    t := ConnectAtOnce(s, now);
    FreshIdConnects(s.history.Keys, s.nextConnId, s.connections, s.cleanups.Keys, s.pending, t.connections[s.nextConnId]);
    FreshIdIsNotReused(s.acquiredBy, s.history.Keys, s.nextConnId, s.replies, s.nextCall, s.pending, s.nextTicket);
    assert t.history.Keys == s.history.Keys + {s.nextConnId};
  }

  lemma ConnectAtOnceKeepsTransactions(s: State, now: int) returns (t: State)
    requires IsWellTyped(s) && Bookkeeping(s) && Transactions(s)
    requires !s.serial
    ensures t == ConnectAtOnce(s, now)
    ensures Transactions(t)
  {
    t := ConnectAtOnce(s, now);
  }

  lemma ConnectAtOnceKeepsInv(s: State, now: int)
    requires IsWellTyped(s) && Inv(s)
    requires !s.serial
    ensures Inv(ConnectAtOnce(s, now))
  {
    hide CallsAnsweredOnce, ConnectionsSeparate, IdsNeverReused, TransactionsTracked, ShutdownOrderly;
    var _ := ConnectAtOnceKeepsBookkeeping(s, now);
    var _ := ConnectAtOnceKeepsTransactions(s, now);
    var connections := s.connections[s.nextConnId := TrackedAdapter(now, false, false, None)];
    UnlockedKeepsTickets(s.released, s.nextTicket, s.connections, connections, s.pending);
  }

  lemma RefuseKeepsBookkeeping(s: State, call: nat) returns (t: State)
    requires IsWellTyped(s) && Bookkeeping(s)
    requires CanGrant(s, call) && s.IsShutDown()
    ensures t == Refuse(s, call)
    ensures Bookkeeping(t)
  {
    t := Refuse(s, call);
  }

  lemma RefuseKeepsTransactions(s: State, call: nat) returns (t: State)
    requires IsWellTyped(s) && Bookkeeping(s) && Transactions(s)
    requires CanGrant(s, call) && s.IsShutDown()
    ensures t == Refuse(s, call)
    ensures Transactions(t)
  {
    t := Refuse(s, call);
  }

  lemma RefuseKeepsQueue(s: State, call: nat)
    requires IsWellTyped(s) && Bookkeeping(s) && Tickets(s)
    requires CanGrant(s, call) && s.IsShutDown()
    ensures Tickets(Refuse(s, call))
  {
    RefuseKeepsTickets(s.released, s.nextTicket, s.connections, s.pending, call);
  }

  lemma RefuseKeepsInv(s: State, call: nat)
    requires IsWellTyped(s) && Inv(s)
    requires CanGrant(s, call) && s.IsShutDown()
    ensures Inv(Refuse(s, call))
  {
    var _ := RefuseKeepsBookkeeping(s, call);
    var _ := RefuseKeepsTransactions(s, call);
    RefuseKeepsQueue(s, call);
  }

  lemma AdmitKeepsBookkeeping(s: State, call: nat, now: int) returns (t: State)
    requires IsWellTyped(s) && Bookkeeping(s)
    requires CanGrant(s, call) && !s.IsShutDown()
    ensures t == Admit(s, call, now)
    ensures Bookkeeping(t)
  {
    t := Admit(s, call, now);
  }

  lemma AdmitKeepsTransactions(s: State, call: nat, now: int) returns (t: State)
    requires IsWellTyped(s) && Bookkeeping(s) && Transactions(s)
    requires CanGrant(s, call) && !s.IsShutDown()
    ensures t == Admit(s, call, now)
    ensures Transactions(t)
  {
    t := Admit(s, call, now);
  }

  lemma AdmitKeepsQueue(s: State, call: nat, now: int)
    requires IsWellTyped(s) && Bookkeeping(s) && Tickets(s)
    requires CanGrant(s, call) && !s.IsShutDown()
    ensures Tickets(Admit(s, call, now))
  {
    AdmitKeepsTickets(s.released, s.nextTicket, s.connections, s.pending, call, TrackedAdapter(now, false, false, Some(s.pending[call].ticket)));
  }

  lemma AdmitKeepsInv(s: State, call: nat, now: int)
    requires IsWellTyped(s) && Inv(s)
    requires CanGrant(s, call) && !s.IsShutDown()
    ensures Inv(Admit(s, call, now))
  {
    var _ := AdmitKeepsBookkeeping(s, call, now);
    var _ := AdmitKeepsTransactions(s, call, now);
    AdmitKeepsQueue(s, call, now);
  }

  // What one more suspended call, drawing no id, does to each part of the bookkeeping.

  lemma SuspendKeepsAnswers(replies: map<nat, seq<Reply>>, n: nat, pending: Calls, p: Pending)
    requires CallsAnsweredOnce(replies, n, pending)
    ensures n !in replies && n !in pending
    ensures CallsAnsweredOnce(replies[n := []], n + 1, pending[n := p])
  {
  }

  lemma SuspendKeepsIds(acquiredBy: map<nat, nat>, ids: set<nat>, replies: map<nat, seq<Reply>>, n: nat, pending: Calls, p: Pending)
    requires IdsNeverReused(acquiredBy, ids, replies, pending) && n !in replies && n !in pending && !p.Waiting?
    ensures IdsNeverReused(acquiredBy, ids, replies[n := []], pending[n := p])
  {
  }

  lemma RunKeepsSeparate(ids: set<nat>, n: nat, connections: Table, sweeping: set<nat>, pending: Calls, call: nat,
                         id: nat, e: TrackedAdapter, op: AdapterOp)
    requires ConnectionsSeparate(ids, n, connections, sweeping, pending) && call !in pending && id in connections
    requires e.isBusy && forall c :: c in pending ==> pending[c].conn != id
    ensures ConnectionsSeparate(ids, n, connections[id := e], sweeping, pending[call := Running(id, op)])
  {
  }

  lemma ClosingKeepsSeparate(ids: set<nat>, n: nat, connections: Table, sweeping: set<nat>, pending: Calls, call: nat,
                             id: nat, p: Pending)
    requires ConnectionsSeparate(ids, n, connections, sweeping, pending) && call !in pending && id in connections
    requires p.conn == id && forall c :: c in pending ==> pending[c].conn != id
    ensures ConnectionsSeparate(ids, n, connections - {id}, sweeping, pending[call := p])
  {
  }

  lemma RunOperationKeepsBookkeeping(s: State, op: AdapterOp, id: nat, now: int) returns (t: State)
    requires IsWellTyped(s) && Bookkeeping(s)
    requires id in s.connections && IsQuiet(s, id) && !(op.Begin? && s.serial && s.IsShutDown())
    ensures t == RunOperation(s, op, id, now)
    ensures Bookkeeping(t)
  {
    t := RunOperation(s, op, id, now);
    hide CallsAnsweredOnce, ConnectionsSeparate, IdsNeverReused;
    SuspendKeepsAnswers(s.replies, s.nextCall, s.pending, Running(id, op));
    SuspendKeepsIds(s.acquiredBy, s.history.Keys, s.replies, s.nextCall, s.pending, Running(id, op));
    RunKeepsSeparate(s.history.Keys, s.nextConnId, s.connections, s.cleanups.Keys, s.pending, s.nextCall, id, t.connections[id], op);
    assert t.history.Keys == s.history.Keys;
  }

  lemma RunOperationKeepsTransactions(s: State, op: AdapterOp, id: nat, now: int) returns (t: State)
    requires IsWellTyped(s) && Bookkeeping(s) && Transactions(s)
    requires id in s.connections && IsQuiet(s, id) && !(op.Begin? && s.serial && s.IsShutDown())
    ensures t == RunOperation(s, op, id, now)
    ensures Transactions(t)
  {
    hide Bookkeeping;
    t := RunOperation(s, op, id, now);
    StartedCallsAreClean(s.history[id], op);
  }

  lemma RunOperationKeepsInv(s: State, op: AdapterOp, id: nat, now: int)
    requires IsWellTyped(s) && Inv(s)
    requires id in s.connections && IsQuiet(s, id) && !(op.Begin? && s.serial && s.IsShutDown())
    ensures Inv(RunOperation(s, op, id, now))
  {
    var _ := RunOperationKeepsBookkeeping(s, op, id, now);
    var _ := RunOperationKeepsTransactions(s, op, id, now);
    RunKeepsTickets(s.released, s.nextTicket, s.connections, s.pending, s.nextCall, id, RunOperation(s, op, id, now).connections[id], op);
  }

  lemma SettleOperationKeepsBookkeeping(s: State, call: nat, ok: bool, now: int) returns (t: State)
    requires IsWellTyped(s) && Bookkeeping(s)
    requires call in s.pending && s.pending[call].Running?
    ensures t == SettleOperation(s, call, ok, now)
    ensures Bookkeeping(t)
  {
    t := SettleOperation(s, call, ok, now);
  }

  lemma SettleOperationKeepsTransactions(s: State, call: nat, ok: bool, now: int) returns (t: State)
    requires IsWellTyped(s) && Bookkeeping(s) && Transactions(s)
    requires call in s.pending && s.pending[call].Running?
    ensures t == SettleOperation(s, call, ok, now)
    ensures Transactions(t)
  {
    t := SettleOperation(s, call, ok, now);
    var Running(conn, op) := s.pending[call];
    CleanAfterCalls(s.history[conn], if op.Begin? && ok then [Began] else []);
  }

  lemma SettleOperationKeepsInv(s: State, call: nat, ok: bool, now: int)
    requires IsWellTyped(s) && Inv(s)
    requires call in s.pending && s.pending[call].Running?
    ensures Inv(SettleOperation(s, call, ok, now))
  {
    var _ := SettleOperationKeepsBookkeeping(s, call, ok, now);
    var _ := SettleOperationKeepsTransactions(s, call, ok, now);
    SettleOperationKeepsTickets(s, call, ok, now);
  }

  lemma SettleOperationKeepsTickets(s: State, call: nat, ok: bool, now: int)
    requires IsWellTyped(s) && Bookkeeping(s) && Tickets(s)
    requires call in s.pending && s.pending[call].Running?
    ensures Tickets(SettleOperation(s, call, ok, now))
  {
    hide CallsAnsweredOnce, TicketsKept;
    var Running(conn, op) := s.pending[call];
    var connections := SettledTable(s.connections, conn, op, ok, now);
    if conn in s.connections && op.Begin? && !ok {
      ReleaseLocksKeepsTickets(s.released, s.nextTicket, s.connections, connections, s.pending, {conn});
      assert Release(s.released, s.connections[conn].lock) == s.released + LocksOf(s.connections, {conn});
    } else {
      UnlockedKeepsTickets(s.released, s.nextTicket, s.connections, connections, s.pending);
    }
    DropRunningKeepsTickets(SettleOperation(s, call, ok, now).released, s.nextTicket, connections, s.pending, call);
  }

  lemma CloseEntryKeepsBookkeeping(s: State, id: nat) returns (t: State)
    requires IsWellTyped(s) && Bookkeeping(s)
    requires id in s.connections && IsQuiet(s, id)
    ensures t == CloseEntry(s, id)
    ensures Bookkeeping(t)
  {
    t := CloseEntry(s, id);
    hide CallsAnsweredOnce, ConnectionsSeparate, IdsNeverReused;
    var p := t.pending[s.nextCall];
    SuspendKeepsAnswers(s.replies, s.nextCall, s.pending, p);
    SuspendKeepsIds(s.acquiredBy, s.history.Keys, s.replies, s.nextCall, s.pending, p);
    ClosingKeepsSeparate(s.history.Keys, s.nextConnId, s.connections, s.cleanups.Keys, s.pending, s.nextCall, id, p);
    assert t.history.Keys == s.history.Keys;
  }

  lemma CloseEntryKeepsTransactions(s: State, id: nat) returns (t: State)
    requires IsWellTyped(s) && Bookkeeping(s) && Transactions(s)
    requires id in s.connections && IsQuiet(s, id)
    ensures t == CloseEntry(s, id)
    ensures Transactions(t)
  {
    t := CloseEntry(s, id);
    CleanAfterCall(s.history[id], FirstCleanup(s.connections[id]));
  }

  lemma CloseEntryKeepsInv(s: State, id: nat)
    requires IsWellTyped(s) && Inv(s)
    requires id in s.connections && IsQuiet(s, id)
    ensures Inv(CloseEntry(s, id))
  {
    var _ := CloseEntryKeepsBookkeeping(s, id);
    var _ := CloseEntryKeepsTransactions(s, id);
    CloseKeepsTickets(s.released, s.nextTicket, s.connections, s.pending, s.nextCall, id, CloseEntry(s, id).pending[s.nextCall]);
  }

  lemma StartAdapterCloseKeepsBookkeeping(s: State, call: nat) returns (t: State)
    requires IsWellTyped(s) && Bookkeeping(s)
    requires call in s.pending && s.pending[call].ClosingRollback?
    ensures t == SettleCloseRollback(s, call, true)
    ensures Bookkeeping(t)
  {
    hide TicketsKept;
    t := SettleCloseRollback(s, call, true);
  }

  lemma StartAdapterCloseKeepsTransactions(s: State, call: nat) returns (t: State)
    requires IsWellTyped(s) && Bookkeeping(s) && Transactions(s)
    requires call in s.pending && s.pending[call].ClosingRollback?
    ensures t == SettleCloseRollback(s, call, true)
    ensures Transactions(t)
  {
    t := SettleCloseRollback(s, call, true);
    CleanAfterCall(s.history[s.pending[call].conn], CloseTried);
  }

  lemma StartAdapterCloseKeepsInv(s: State, call: nat)
    requires IsWellTyped(s) && Inv(s)
    requires call in s.pending && s.pending[call].ClosingRollback?
    ensures Inv(SettleCloseRollback(s, call, true))
  {
    var _ := StartAdapterCloseKeepsBookkeeping(s, call);
    var _ := StartAdapterCloseKeepsTransactions(s, call);
    StartCloseKeepsTickets(s.released, s.nextTicket, s.connections, s.pending, call);
  }

  lemma SettleClosingKeepsBookkeeping(s: State, call: nat) returns (t: State)
    requires IsWellTyped(s) && Bookkeeping(s)
    requires call in s.pending && (s.pending[call].ClosingRollback? || s.pending[call].ClosingClose?)
    ensures t == SettleClosing(s, call)
    ensures Bookkeeping(t)
  {
    t := SettleClosing(s, call);
  }

  lemma SettleClosingKeepsTransactions(s: State, call: nat) returns (t: State)
    requires IsWellTyped(s) && Bookkeeping(s) && Transactions(s)
    requires call in s.pending && (s.pending[call].ClosingRollback? || s.pending[call].ClosingClose?)
    ensures t == SettleClosing(s, call)
    ensures Transactions(t)
  {
    t := SettleClosing(s, call);
  }

  lemma SettleClosingKeepsInv(s: State, call: nat)
    requires IsWellTyped(s) && Inv(s)
    requires call in s.pending && (s.pending[call].ClosingRollback? || s.pending[call].ClosingClose?)
    ensures Inv(SettleClosing(s, call))
  {
    var _ := SettleClosingKeepsBookkeeping(s, call);
    var _ := SettleClosingKeepsTransactions(s, call);
    EndCloseKeepsTickets(s.released, s.nextTicket, s.connections, s.pending, call);
  }

  lemma SweepKeepsBookkeeping(s: State, now: int, throwsAt: Option<nat>) returns (t: State)
    requires IsWellTyped(s) && Bookkeeping(s)
    requires CanThrowAt(s.connections, now, throwsAt)
    ensures t == Sweep(s, now, throwsAt)
    ensures Bookkeeping(t)
  {
    t := Sweep(s, now, throwsAt);
  }

  lemma SweepKeepsTransactions(s: State, now: int, throwsAt: Option<nat>) returns (t: State)
    requires IsWellTyped(s) && Bookkeeping(s) && Transactions(s)
    requires CanThrowAt(s.connections, now, throwsAt)
    ensures t == Sweep(s, now, throwsAt)
    ensures Transactions(t)
  {
    t := Sweep(s, now, throwsAt);
    forall i | i in s.connections
      ensures InOpenTransaction(s.history[i] + [FirstCleanup(s.connections[i])]) ==>
        InOpenTransaction(s.history[i]) && !s.connections[i].inTransaction
      ensures ClosesAreClean(s.history[i]) && (InOpenTransaction(s.history[i]) ==> s.connections[i].inTransaction) ==>
        ClosesAreClean(s.history[i] + [FirstCleanup(s.connections[i])])
    {
      CleanAfterCall(s.history[i], FirstCleanup(s.connections[i]));
    }
  }

  lemma SweepKeepsQueue(s: State, now: int, throwsAt: Option<nat>)
    requires IsWellTyped(s) && Bookkeeping(s) && Tickets(s)
    requires CanThrowAt(s.connections, now, throwsAt)
    ensures Tickets(Sweep(s, now, throwsAt))
  {
    var swept := SweptBy(s.connections, now, throwsAt);
    ReleaseLocksKeepsTickets(s.released, s.nextTicket, s.connections, Sweep(s, now, throwsAt).connections, s.pending, swept);
  }

  lemma SweepKeepsInv(s: State, now: int, throwsAt: Option<nat>)
    requires IsWellTyped(s) && Inv(s)
    requires CanThrowAt(s.connections, now, throwsAt)
    ensures Inv(Sweep(s, now, throwsAt))
  {
    var _ := SweepKeepsBookkeeping(s, now, throwsAt);
    var _ := SweepKeepsTransactions(s, now, throwsAt);
    SweepKeepsQueue(s, now, throwsAt);
  }

  lemma BeginShutdownKeepsTransactions(s: State)
    requires IsWellTyped(s) && Bookkeeping(s) && Transactions(s) && !s.IsShutDown()
    ensures Transactions(BeginShutdown(s))
  {
    hide CallsAnsweredOnce, IdsNeverReused, ConnectionsSeparate, IsWellTyped;
  }

  lemma UnlockingKeepsSeparate(ids: set<nat>, n: nat, connections: Table, sweeping: set<nat>, pending: Calls)
    requires ConnectionsSeparate(ids, n, connections, sweeping, pending)
    ensures ConnectionsSeparate(ids, n, map i | i in connections :: connections[i].(lock := None), sweeping, pending)
  {
  }

  lemma BeginShutdownKeepsInv(s: State)
    requires IsWellTyped(s) && Inv(s)
    requires !s.IsShutDown()
    ensures Inv(BeginShutdown(s))
  {
    var t := BeginShutdown(s);
    BeginShutdownKeepsTransactions(s);
    UnlockingKeepsSeparate(s.history.Keys, s.nextConnId, s.connections, s.cleanups.Keys, s.pending);
    CallsAreApart(s);
    hide TransactionsTracked, ShutdownOrderly, ConnectionsSeparate, CallsAnsweredOnce, IdsNeverReused, TicketsKept, Apart;
    ReleaseLocksKeepsTickets(s.released, s.nextTicket, s.connections, t.connections, s.pending, s.connections.Keys);
  }

  /** What the tickets need to know of the bookkeeping. */
  lemma CallsAreApart(s: State)
    requires Bookkeeping(s)
    ensures Apart(s.connections, s.pending)
  {
    hide CallsAnsweredOnce, IdsNeverReused;
  }

  /** `close` is past its drain, or just about to be. */
  predicate IsClosing(s: State) {
    || (s.closer.Draining? && s.closer.calls !! s.pending.Keys)
    || s.closer.VisitRollback? || s.closer.VisitClose?
  }

  lemma VisitKeepsTransactions(s: State, id: nat)
    requires IsWellTyped(s) && Bookkeeping(s) && Transactions(s)
    requires id in s.connections && IsClosing(s)
    ensures Transactions(Visit(s, id)) && Visit(s, id).history.Keys == s.history.Keys
  {
    hide CallsAnsweredOnce, IdsNeverReused, InOpenTransaction, ClosesAreClean;
    CleanAfterCall(s.history[id], FirstCleanup(s.connections[id]));
  }

  lemma VisitKeepsInv(s: State, id: nat)
    requires IsWellTyped(s) && Inv(s)
    requires id in s.connections && IsClosing(s)
    ensures Inv(Visit(s, id))
  {
    VisitKeepsTransactions(s, id);
    hide TransactionsTracked, ShutdownOrderly, CallsAnsweredOnce, ConnectionsSeparate, IdsNeverReused, TicketsKept;
  }

  lemma ClearTableKeepsInv(s: State)
    requires IsWellTyped(s) && Inv(s)
    requires IsClosing(s)
    ensures Inv(s.(connections := map[], closer := Closed))
  {
    var t := s.(connections := map[], closer := Closed);
    UnlockedKeepsTickets(s.released, s.nextTicket, s.connections, map[], s.pending);
  }

  /** A close behind everything that was begun and ended changes none of the records' properties. */
  lemma CloseKeepsRecords(history: map<nat, seq<AdapterCall>>, connections: Table, pending: Calls, sweeping: set<nat>, conn: nat)
    requires TransactionsTracked(history, connections, pending, sweeping)
    requires conn in history && !InOpenTransaction(history[conn])
    ensures var later := Recorded(history, conn, [CloseTried]);
      && TransactionsTracked(later, connections, pending, sweeping)
      && later.Keys == history.Keys && !InOpenTransaction(later[conn])
      && (HistoriesClean(history) ==> HistoriesClean(later))
  {
    CleanAfterCall(history[conn], CloseTried);
    hide InOpenTransaction, ClosesAreClean;
  }

  lemma SweepRollbackKeepsTransactions(s: State, conn: nat) returns (t: State)
    requires IsWellTyped(s) && Bookkeeping(s) && Transactions(s)
    requires conn in s.cleanups && s.cleanups[conn].RollingBack?
    ensures t == s.(cleanups := s.cleanups[conn := Closing], history := Recorded(s.history, conn, [CloseTried]))
    ensures Transactions(t) && t.cleanups.Keys == s.cleanups.Keys && t.history.Keys == s.history.Keys
  {
    assert conn in s.history && !InOpenTransaction(s.history[conn]);
    hide CallsAnsweredOnce, IdsNeverReused, ConnectionsSeparate, InOpenTransaction, HistoriesClean, TransactionsTracked, IsWellTyped;
    CloseKeepsRecords(s.history, s.connections, s.pending, s.cleanups.Keys, conn);
    t := s.(cleanups := s.cleanups[conn := Closing], history := Recorded(s.history, conn, [CloseTried]));
    assert t.cleanups.Keys == s.cleanups.Keys;
    ClosersRecord(s.closer, s.history, conn);
  }

  /** What the records say of the connection that `close` visits stays so, too. */
  lemma ClosersRecord(closer: Closer, history: map<nat, seq<AdapterCall>>, conn: nat)
    requires conn in history && !InOpenTransaction(history[conn])
    ensures var later := Recorded(history, conn, [CloseTried]);
      closer.VisitRollback? && closer.conn in history && !InOpenTransaction(history[closer.conn]) ==>
        !InOpenTransaction(later[closer.conn])
  {
    CleanAfterCall(history[conn], CloseTried);
  }

  lemma SweepRollbackKeepsInv(s: State, conn: nat)
    requires IsWellTyped(s) && Inv(s)
    requires conn in s.cleanups && s.cleanups[conn].RollingBack?
    ensures Inv(s.(cleanups := s.cleanups[conn := Closing], history := Recorded(s.history, conn, [CloseTried])))
  {
    var t := SweepRollbackKeepsTransactions(s, conn);
    hide TransactionsTracked, ShutdownOrderly, CallsAnsweredOnce, ConnectionsSeparate, IdsNeverReused, TicketsKept;
  }

  lemma SweepCloseKeepsInv(s: State, conn: nat)
    requires IsWellTyped(s) && Inv(s)
    requires conn in s.cleanups
    ensures Inv(s.(cleanups := s.cleanups - {conn}))
  {
    var t := s.(cleanups := s.cleanups - {conn});
  }

  lemma VisitCloseKeepsTransactions(s: State) returns (t: State)
    requires IsWellTyped(s) && Bookkeeping(s) && Transactions(s)
    requires s.closer.VisitRollback?
    ensures t == s.(closer := VisitClose(s.closer.conn), history := Recorded(s.history, s.closer.conn, [CloseTried]))
    ensures Transactions(t) && t.history.Keys == s.history.Keys
  {
    t := s.(closer := VisitClose(s.closer.conn), history := Recorded(s.history, s.closer.conn, [CloseTried]));
    if s.lateBegin {
      RecordsStayTracked(s.history, s.connections, s.pending, s.cleanups.Keys, s.closer.conn);
    } else {
      CloseKeepsRecords(s.history, s.connections, s.pending, s.cleanups.Keys, s.closer.conn);
    }
    hide CallsAnsweredOnce, IdsNeverReused, ConnectionsSeparate, InOpenTransaction, HistoriesClean, TransactionsTracked, IsWellTyped;
  }

  /** A close adds nothing to what is open, even where it comes too early. */
  lemma RecordsStayTracked(history: map<nat, seq<AdapterCall>>, connections: Table, pending: Calls, sweeping: set<nat>, conn: nat)
    requires TransactionsTracked(history, connections, pending, sweeping) && conn in history
    ensures TransactionsTracked(Recorded(history, conn, [CloseTried]), connections, pending, sweeping)
  {
    CleanAfterCall(history[conn], CloseTried);
    hide InOpenTransaction, ClosesAreClean;
  }

  lemma VisitCloseKeepsInv(s: State)
    requires IsWellTyped(s) && Inv(s)
    requires s.closer.VisitRollback?
    ensures Inv(s.(closer := VisitClose(s.closer.conn), history := Recorded(s.history, s.closer.conn, [CloseTried])))
  {
    var t := VisitCloseKeepsTransactions(s);
    hide TransactionsTracked, ShutdownOrderly, CallsAnsweredOnce, ConnectionsSeparate, IdsNeverReused, TicketsKept;
  }

  lemma AdvanceKeepsInv(s: State, cursor: nat)
    requires Inv(s) && IsClosing(s)
    ensures Inv(Advance(s, cursor))
  {
    InvIsWellTyped(s);
    if Above(s.connections, cursor) == {} {
      ClearTableKeepsInv(s);
    } else {
      VisitKeepsInv(s, NextVisit(s.connections, cursor));
    }
  }

  lemma RequestKeepsInv(s: State, step: Step)
    requires Inv(s) && IsEnabled(s, step) && IsRequest(step)
    ensures Inv(ApplyRequest(s, step))
  {
    match step
    case CallMalformed => AnswerKeepsInv(s, Failure(JsonErr));
    case CallUnknown => AnswerKeepsInv(s, Failure(UnknownOp));
    case CallAcquire(now, throwsAt, factoryOk) => AcquireKeepsInv(s, now, throwsAt, factoryOk);
    case CallOperation(op, conn, now) => StartOperationKeepsInv(s, op, conn, now);
    case CallClose(conn) =>
      if conn in s.connections { CloseEntryKeepsInv(s, conn); } else { AnswerKeepsInv(s, Acknowledged); }
  }

  lemma SettleCallKeepsInv(s: State, step: Step)
    requires Inv(s) && IsEnabled(s, step) && SettledCall(step).Some?
    ensures Inv(SettleCall(s, step))
  {
    match step
    case Grant(call, now) => if s.IsShutDown() { RefuseKeepsInv(s, call); } else { AdmitKeepsInv(s, call, now); }
    case FinishOperation(call, ok, now) => SettleOperationKeepsInv(s, call, ok, now);
    case FinishCloseRollback(call, ok) =>
      if ok { StartAdapterCloseKeepsInv(s, call); } else { SettleClosingKeepsInv(s, call); }
    case FinishClose(call) => SettleClosingKeepsInv(s, call);
  }

  lemma OwnStepKeepsInv(s: State, step: Step)
    requires Inv(s) && IsEnabled(s, step) && !IsRequest(step) && SettledCall(step).None?
    ensures Inv(ApplyOwn(s, step))
  {
    match step
    case TimerSweep(now, throwsAt) => SweepKeepsInv(s, now, throwsAt);
    case FinishSweepRollback(conn) => SweepRollbackKeepsInv(s, conn);
    case FinishSweepClose(conn) => SweepCloseKeepsInv(s, conn);
    case StartShutdown => BeginShutdownKeepsInv(s);
    case FinishDrain => AdvanceKeepsInv(s, 0);
    case FinishVisitRollback => VisitCloseKeepsInv(s);
    case FinishVisitClose => AdvanceKeepsInv(s, s.closer.conn);
  }

  /** One step of any kind keeps the invariant. */
  lemma StepKeepsInv(s: State, step: Step)
    requires Inv(s) && IsEnabled(s, step)
    ensures Inv(Apply(s, step))
  {
    if IsRequest(step) {
      RequestKeepsInv(s, step);
    } else if SettledCall(step).Some? {
      SettleCallKeepsInv(s, step);
    } else {
      OwnStepKeepsInv(s, step);
    }
  }

  lemma AcquireKeepsInv(s: State, now: int, throwsAt: Option<nat>, factoryOk: bool)
    requires Inv(s) && CanThrowAt(s.connections, now, throwsAt)
    ensures Inv(Acquire(s, now, throwsAt, factoryOk))
  {
    InvIsWellTyped(s);
    SweepKeepsInv(s, now, throwsAt);
    var t := Sweep(s, now, throwsAt);
    InvIsWellTyped(t);
    AnswerKeepsInv(t, Failure(AdapterErr));
    if s.serial { DrawTicketKeepsInv(t); } else { ConnectAtOnceKeepsInv(t, now); }
  }

  lemma StartOperationKeepsInv(s: State, op: AdapterOp, conn: int, now: int)
    requires Inv(s) && IsQuiet(s, conn)
    ensures Inv(StartOperation(s, op, conn, now))
  {
    InvIsWellTyped(s);
    if conn !in s.connections {
      AnswerKeepsInv(s, if op.Rollback? then Acknowledged else Failure(NoConn));
    } else if op.Begin? && s.serial && s.IsShutDown() {
      AnswerKeepsInv(s, Failure(ShuttingDown));
    } else {
      RunOperationKeepsInv(s, op, conn, now);
    }
  }
}
