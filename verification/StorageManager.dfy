/**
 The storage manager itself: an object whose methods are the stretches of code between two
 suspension points. Each method is proved to take the protocol's step, so every theorem about runs
 of the protocol is a theorem about sequences of these calls.
 */
module StorageManagerObject {
  import opened Wrappers
  import opened StorageProtocol
  import opened StorageTickets
  import opened StorageSafety

  class StorageManager {
    const needsSerialAccess: bool
    var connections: map<nat, TrackedAdapter>
    var nextConnId: nat
    var nextTicket: nat
    var released: set<nat>
    var pending: map<nat, Pending>
    var nextCall: nat
    var replies: map<nat, seq<Reply>>
    var cleanups: map<nat, CleanupPhase>
    var history: map<nat, seq<AdapterCall>>
    var acquiredBy: map<nat, nat>
    var closer: Closer
    var lateBegin: bool

    ghost function Model(): State
      reads this
    {
      State(needsSerialAccess, connections, nextConnId, nextTicket, released, pending, nextCall, replies,
            cleanups, history, acquiredBy, closer, lateBegin)
    }

    /** The entities the tables speak of exist. Every reachable model satisfies it. */
    ghost predicate Valid()
      reads this
    {
      && IsWellTyped(Model())
      && 1 <= nextConnId
      && (forall i :: i in history ==> 1 <= i < nextConnId)
      && cleanups.Keys !! connections.Keys
    }

    constructor (needsSerialAccess: bool)
      ensures Model() == Init(needsSerialAccess)
    {
      this.needsSerialAccess := needsSerialAccess;
      connections, nextConnId, nextTicket, released := map[], 1, 1, {0};
      pending, nextCall, replies := map[], 0, map[];
      cleanups, history, acquiredBy, closer, lateBegin := map[], map[], map[], NotClosing, false;
    }

    /** A call answered on the spot. */
    method ResolveNow(r: Reply)
      modifies `nextCall, `replies
      ensures Model() == AnswerNew(old(Model()), r)
    {
      replies := replies[nextCall := [r]];
      nextCall := nextCall + 1;
    }

    /** A call that goes on later. */
    method Suspend(p: Pending)
      modifies `pending, `nextCall, `replies
      ensures pending == old(pending)[old(nextCall) := p] && replies == old(replies)[old(nextCall) := []]
      ensures nextCall == old(nextCall) + 1
    {
      pending := pending[nextCall := p];
      replies := replies[nextCall := []];
      nextCall := nextCall + 1;
    }

    /** Drops a stale entry, frees its lock and makes its first cleanup call, which may throw on the spot. */
    method Evict(id: nat, throws: bool)
      requires id in connections && id in history
      modifies `connections, `released, `cleanups, `history
      ensures connections == old(connections) - {id}
      ensures released == Release(old(released), old(connections)[id].lock)
      ensures history == Recorded(old(history), id, [FirstCleanup(old(connections)[id])])
      ensures cleanups == if throws then old(cleanups)
                          else old(cleanups)[id := CleanupOf(old(connections)[id])]
    {
      hide FirstCleanup, CleanupOf;
      var entry := connections[id];
      connections := connections - {id};
      released := Release(released, entry.lock);
      history := Recorded(history, id, [FirstCleanup(entry)]);
      if !throws {
        cleanups := cleanups[id := CleanupOf(entry)];
      }
    }

    /** The tables are as a sweep that began with the given ones leaves them after dealing with `swept`. */
    ghost predicate HasSwept(table: Table, tickets: set<nat>, sweeps: map<nat, CleanupPhase>,
                             calls: map<nat, seq<AdapterCall>>, swept: set<nat>, throwsAt: Option<nat>)
      reads this
      requires swept <= table.Keys
    {
      && connections == Without(table, swept)
      && released == tickets + LocksOf(table, swept)
      && cleanups == SweptCleanups(sweeps, table, swept, throwsAt)
      && history == SweptHistory(calls, table, swept)
    }

    /** One more eviction of a sweep that began with the given tables and has dealt with `swept`. */
    method EvictAfter(id: nat, throwsAt: Option<nat>, ghost table: Table, ghost tickets: set<nat>,
                      ghost sweeps: map<nat, CleanupPhase>, ghost calls: map<nat, seq<AdapterCall>>, ghost swept: set<nat>)
      requires swept <= table.Keys <= calls.Keys && id in table && id !in swept && sweeps.Keys !! table.Keys
      requires HasSwept(table, tickets, sweeps, calls, swept, throwsAt)
      modifies `connections, `released, `cleanups, `history
      ensures HasSwept(table, tickets, sweeps, calls, swept + {id}, throwsAt)
    {
      OneMoreLock(table, swept, id);
      OneMoreCleanup(table, sweeps, swept, id, throwsAt);
      OneMoreCall(table, calls, swept, id);
      Evict(id, throwsAt == Some(id));
    }

    /** Looks at one entry of a sweep that has dealt with everything before it. */
    method VisitEntry(id: nat, now: int, throwsAt: Option<nat>, ghost table: Table, ghost tickets: set<nat>,
                      ghost sweeps: map<nat, CleanupPhase>, ghost calls: map<nat, seq<AdapterCall>>) returns (threw: bool)
      requires table.Keys <= calls.Keys && sweeps.Keys !! table.Keys && CanThrowAt(table, now, throwsAt)
      requires throwsAt.Some? ==> id <= throwsAt.value
      requires HasSwept(table, tickets, sweeps, calls, Below(SweptBy(table, now, throwsAt), id), throwsAt)
      modifies `connections, `released, `cleanups, `history
      ensures HasSwept(table, tickets, sweeps, calls, Below(SweptBy(table, now, throwsAt), id + 1), throwsAt)
      ensures threw == (throwsAt == Some(id))
    {
      ghost var stale := SweptBy(table, now, throwsAt);
      if id in connections && IsStale(connections[id], now) {
        assert Below(stale, id + 1) == Below(stale, id) + {id};
        EvictAfter(id, throwsAt, table, tickets, sweeps, calls, Below(stale, id));
        threw := throwsAt == Some(id);
      } else {
        assert Below(stale, id + 1) == Below(stale, id);
        threw := false;
      }
    }

    /** Visits the entries in insertion order and stops where an adapter throws. */
    method SweepOrphanedConnections(now: int, throwsAt: Option<nat>) returns (threw: bool)
      requires Valid() && CanThrowAt(connections, now, throwsAt)
      modifies `connections, `released, `cleanups, `history
      ensures Model() == Sweep(old(Model()), now, throwsAt)
      ensures threw == throwsAt.Some?
    {
      threw := EvictStale(now, throwsAt);
    }

    method EvictStale(now: int, throwsAt: Option<nat>) returns (threw: bool)
      requires CanThrowAt(connections, now, throwsAt)
      requires connections.Keys <= history.Keys && cleanups.Keys !! connections.Keys
      requires 1 <= nextConnId && forall i :: i in connections ==> 1 <= i < nextConnId
      modifies `connections, `released, `cleanups, `history
      ensures threw == throwsAt.Some?
      ensures HasSwept(old(connections), old(released), old(cleanups), old(history),
                       SweptBy(old(connections), now, throwsAt), throwsAt)
    {
      ghost var table, stale := connections, SweptBy(connections, now, throwsAt);
      threw := false;
      var id := 1;
      NothingSwept(connections, cleanups, history, throwsAt);
      NoneBelow(stale);
      while id < nextConnId && !threw
        invariant 1 <= id <= nextConnId
        invariant threw ==> throwsAt == Some(id - 1)
        invariant !threw && throwsAt.Some? ==> id <= throwsAt.value
        invariant HasSwept(table, old(released), old(cleanups), old(history), Below(stale, id), throwsAt)
      {
        threw := VisitEntry(id, now, throwsAt, table, old(released), old(cleanups), old(history));
        id := id + 1;
      }
      AllBelow(table, now, throwsAt, id, nextConnId);
    }

    method Acquire(now: int, throwsAt: Option<nat>, factoryOk: bool)
      requires Valid() && CanThrowAt(connections, now, throwsAt)
      modifies this
      ensures Model() == StorageProtocol.Acquire(old(Model()), now, throwsAt, factoryOk)
    {
      hide SweptBy, LocksOf, SweptCleanups, SweptHistory, Without, IsStale;
      var threw := SweepOrphanedConnections(now, throwsAt);
      if threw || !factoryOk {
        ResolveNow(Failure(AdapterErr));
        return;
      }
      hide Sweep;
      if needsSerialAccess {
        QueueForTurn();
      } else {
        HandOut(now);
      }
    }

    /** Draws a connection id for the call that is being answered. */
    method DrawId() returns (id: nat)
      modifies `nextConnId, `history, `acquiredBy
      ensures id == old(nextConnId) && nextConnId == id + 1
      ensures history == old(history)[id := []] && acquiredBy == old(acquiredBy)[id := nextCall]
    {
      id := nextConnId;
      nextConnId := id + 1;
      history := history[id := []];
      acquiredBy := acquiredBy[id := nextCall];
    }

    method QueueForTurn()
      modifies this
      ensures Model() == DrawTicket(old(Model()))
    {
      var id := DrawId();
      Suspend(Waiting(id, nextTicket));
      nextTicket := nextTicket + 1;
    }

    method HandOut(now: int)
      modifies this
      ensures Model() == ConnectAtOnce(old(Model()), now)
    {
      var id := DrawId();
      connections := connections[id := TrackedAdapter(now, false, false, None)];
      ResolveNow(Connected(id));
    }

    /** The continuation of an acquire once the previous ticket's promise has resolved. */
    method ContinueAcquire(call: nat, now: int)
      requires Valid() && CanGrant(Model(), call)
      modifies `connections, `released, `pending, `replies
      ensures Model() == GrantTicket(old(Model()), call, now)
    {
      hide Answered;
      var Waiting(conn, ticket) := pending[call];
      if closer.NotClosing? {
        connections := connections[conn := TrackedAdapter(now, false, false, Some(ticket))];
        replies := Answered(replies, call, Connected(conn));
      } else {
        released := released + {ticket};
        replies := Answered(replies, call, Failure(ShuttingDown));
      }
      pending := pending - {call};
    }

    method StartOperation(op: AdapterOp, conn: int, now: int)
      requires Valid() && IsQuiet(Model(), conn)
      modifies this
      ensures Model() == StorageProtocol.StartOperation(old(Model()), op, conn, now)
    {
      if conn !in connections {
        ResolveNow(if op.Rollback? then Acknowledged else Failure(NoConn));
      } else if op.Begin? && needsSerialAccess && !closer.NotClosing? {
        ResolveNow(Failure(ShuttingDown));
      } else {
        RunOperation(op, conn, now);
      }
    }

    method RunOperation(op: AdapterOp, id: nat, now: int)
      requires id in connections && id in history
      modifies `connections, `pending, `replies, `nextCall, `history, `lateBegin
      ensures Model() == StorageProtocol.RunOperation(old(Model()), op, id, now)
    {
      hide CallsAtStart, Recorded;
      lateBegin := lateBegin || (op.Begin? && !closer.NotClosing?);
      connections := connections[id := connections[id].(lastUsed := now, isBusy := true)];
      history := Recorded(history, id, CallsAtStart(op));
      Suspend(Running(id, op));
    }

    /** The adapter call of an operation has returned, or thrown. */
    method FinishOperation(call: nat, ok: bool, now: int)
      requires Valid() && call in pending && pending[call].Running?
      modifies `connections, `released, `pending, `replies, `history
      ensures Model() == SettleOperation(old(Model()), call, ok, now)
    {
      hide AfterOperation, Release, ReplyAfter, Answered, Recorded;
      var Running(conn, op) := pending[call];
      if conn in connections {
        SettleEntry(conn, op, ok, now);
      }
      history := Recorded(history, conn, if op.Begin? && ok then [Began] else []);
      replies := Answered(replies, call, ReplyAfter(op, ok));
      pending := pending - {call};
    }

    method SettleEntry(id: nat, op: AdapterOp, ok: bool, now: int)
      requires id in connections
      modifies `connections, `released
      ensures connections == SettledTable(old(connections), id, op, ok, now)
      ensures released == if op.Begin? && !ok then Release(old(released), old(connections)[id].lock) else old(released)
    {
      if op.Begin? && !ok {
        released := Release(released, connections[id].lock);
      }
      connections := connections[id := AfterOperation(connections[id], op, ok, now)];
    }

    method Close(conn: int)
      requires Valid() && IsQuiet(Model(), conn)
      modifies this
      ensures Model() == StartClose(old(Model()), conn)
    {
      hide FirstCleanup, Recorded;
      if conn !in connections {
        ResolveNow(Acknowledged);
      } else {
        var entry := connections[conn];
        connections := connections - {conn};
        history := Recorded(history, conn, [FirstCleanup(entry)]);
        Suspend(if entry.inTransaction then ClosingRollback(conn, entry.lock) else ClosingClose(conn, entry.lock));
      }
    }

    method FinishCloseRollback(call: nat, ok: bool)
      requires Valid() && call in pending && pending[call].ClosingRollback?
      modifies `released, `pending, `replies, `history
      ensures Model() == SettleCloseRollback(old(Model()), call, ok)
    {
      hide Recorded, Answered, Release;
      var ClosingRollback(conn, lock) := pending[call];
      if ok {
        history := Recorded(history, conn, [CloseTried]);
        pending := pending[call := ClosingClose(conn, lock)];
      } else {
        FinishClose(call);
      }
    }

    method FinishClose(call: nat)
      requires Valid() && call in pending && (pending[call].ClosingRollback? || pending[call].ClosingClose?)
      modifies `released, `pending, `replies
      ensures Model() == SettleClosing(old(Model()), call)
    {
      hide Answered, Release;
      released := Release(released, pending[call].lock);
      replies := Answered(replies, call, Acknowledged);
      pending := pending - {call};
    }

    /** Shutdown up to its first suspension: stop the sweeper and let go of every held lock. */
    method StartShutdown()
      requires Valid() && closer.NotClosing?
      modifies `connections, `released, `closer
      ensures Model() == BeginShutdown(old(Model()))
    {
      hide LocksOf;
      closer := Draining(pending.Keys, cleanups.Keys);
      ReleaseHeldLocks();
    }

    method ReleaseHeldLocks()
      requires forall i :: i in connections ==> 1 <= i < nextConnId
      modifies `connections, `released
      ensures connections == map i | i in old(connections) :: old(connections)[i].(lock := None)
      ensures released == old(released) + LocksOf(old(connections), old(connections).Keys)
    {
      ghost var table := connections;
      var id := 1;
      while id < nextConnId
        invariant 1 <= id
        invariant connections == UnlockedBelow(table, id)
        invariant released == old(released) + LocksOf(table, Below(table.Keys, id))
      {
        OneMoreUnlocked(table, id);
        if id in connections {
          released := Release(released, connections[id].lock);
          connections := connections[id := connections[id].(lock := None)];
        }
        id := id + 1;
      }
      assert Below(table.Keys, id) == table.Keys;
    }

    /** Shutdown resumes after entry `cursor`: it goes on to the next entry or clears the table. */
    method VisitNext(cursor: nat)
      requires Valid()
      modifies `connections, `closer, `history
      ensures Model() == Advance(old(Model()), cursor)
    {
      hide Recorded, FirstCleanup;
      var id := cursor + 1;
      while id < nextConnId && id !in connections
        invariant cursor < id
        invariant forall i :: i in connections && cursor < i ==> id <= i
        decreases nextConnId - id
      {
        id := id + 1;
      }
      if id in connections {
        assert id in Above(connections, cursor) && NextVisit(connections, cursor) == id;
        var entry := connections[id];
        closer := if entry.inTransaction then VisitRollback(id) else VisitClose(id);
        history := Recorded(history, id, [FirstCleanup(entry)]);
      } else {
        assert Above(connections, cursor) == {};
        connections := map[];
        closer := Closed;
      }
    }

    /** Takes one step of the protocol, by the method it belongs to. */
    method Perform(step: Step)
      requires Inv(Model()) && IsEnabled(Model(), step)
      modifies this
      ensures Inv(Model()) && Model() == Apply(old(Model()), step)
    {
      InvIsValid(this);
      StepKeepsInv(Model(), step);
      if IsRequest(step) {
        PerformRequest(step);
      } else if SettledCall(step).Some? {
        PerformSettle(step);
      } else {
        PerformOwn(step);
      }
    }

    method PerformRequest(step: Step)
      requires Valid() && IsEnabled(Model(), step) && IsRequest(step)
      modifies this
      ensures Model() == ApplyRequest(old(Model()), step)
    {
      match step
      case CallMalformed => ResolveNow(Failure(JsonErr));
      case CallUnknown => ResolveNow(Failure(UnknownOp));
      case CallAcquire(now, throwsAt, factoryOk) => Acquire(now, throwsAt, factoryOk);
      case CallOperation(op, conn, now) => StartOperation(op, conn, now);
      case CallClose(conn) => Close(conn);
    }

    method PerformSettle(step: Step)
      requires Valid() && IsEnabled(Model(), step) && SettledCall(step).Some?
      modifies this
      ensures Model() == SettleCall(old(Model()), step)
    {
      match step
      case Grant(call, now) => ContinueAcquire(call, now);
      case FinishOperation(call, ok, now) => FinishOperation(call, ok, now);
      case FinishCloseRollback(call, ok) => FinishCloseRollback(call, ok);
      case FinishClose(call) => FinishClose(call);
    }

    method PerformOwn(step: Step)
      requires Valid() && IsEnabled(Model(), step) && !IsRequest(step) && SettledCall(step).None?
      modifies this
      ensures Model() == ApplyOwn(old(Model()), step)
    {
      match step
      case TimerSweep(now, throwsAt) => var _ := SweepOrphanedConnections(now, throwsAt);
      case FinishSweepRollback(conn) =>
        cleanups := cleanups[conn := Closing];
        history := Recorded(history, conn, [CloseTried]);
      case FinishSweepClose(conn) => cleanups := cleanups - {conn};
      case StartShutdown => StartShutdown();
      case FinishDrain => VisitNext(0);
      case FinishVisitRollback =>
        history := Recorded(history, closer.conn, [CloseTried]);
        closer := VisitClose(closer.conn);
      case FinishVisitClose => VisitNext(closer.conn);
    }
  }

  lemma InvIsValid(manager: StorageManager)
    requires Inv(manager.Model())
    ensures manager.Valid()
  {
  }

  function Below(ids: set<nat>, bound: nat): set<nat> {
    set id | id in ids && id < bound
  }

  /** The table with the entries below `bound` unlocked. */
  function UnlockedBelow(table: Table, bound: nat): map<nat, TrackedAdapter> {
    map i | i in table :: if i < bound then table[i].(lock := None) else table[i]
  }

  lemma OneMoreUnlocked(table: Table, id: nat)
    ensures id in UnlockedBelow(table, id) <==> id in table
    ensures id !in table ==> UnlockedBelow(table, id + 1) == UnlockedBelow(table, id)
    ensures id !in table ==> LocksOf(table, Below(table.Keys, id + 1)) == LocksOf(table, Below(table.Keys, id))
    ensures id in table ==> UnlockedBelow(table, id)[id] == table[id]
    ensures id in table ==> UnlockedBelow(table, id + 1) == UnlockedBelow(table, id)[id := table[id].(lock := None)]
    ensures id in table ==>
      LocksOf(table, Below(table.Keys, id + 1)) == Release(LocksOf(table, Below(table.Keys, id)), table[id].lock)
  {
    if id in table {
      assert Below(table.Keys, id + 1) == Below(table.Keys, id) + {id};
    } else {
      assert Below(table.Keys, id + 1) == Below(table.Keys, id);
    }
  }

  lemma NoneBelow(ids: set<nat>)
    requires forall i :: i in ids ==> 1 <= i
    ensures Below(ids, 1) == {}
  {
  }

  /** A sweep that stopped, or went through all ids, has dealt with everything it was to deal with. */
  lemma AllBelow(table: Table, now: int, throwsAt: Option<nat>, id: nat, bound: nat)
    requires forall i :: i in table ==> i < bound
    requires id >= bound || (id >= 1 && throwsAt == Some(id - 1))
    ensures Below(SweptBy(table, now, throwsAt), id) == SweptBy(table, now, throwsAt)
  {
  }

  lemma NothingSwept(connections: Table, cleanups: map<nat, CleanupPhase>, history: map<nat, seq<AdapterCall>>,
                     throwsAt: Option<nat>)
    ensures Without(connections, {}) == connections && LocksOf(connections, {}) == {}
    ensures SweptCleanups(cleanups, connections, {}, throwsAt) == cleanups
    ensures SweptHistory(history, connections, {}) == history
  {
  }

  // What sweeping one more entry, after `swept`, does to each table.

  lemma OneMoreLock(table: Table, swept: set<nat>, id: nat)
    requires swept <= table.Keys && id in table && id !in swept
    ensures Without(table, swept + {id}) == Without(table, swept) - {id}
    ensures LocksOf(table, swept + {id}) == Release(LocksOf(table, swept), table[id].lock)
  {
  }

  lemma OneMoreCall(table: Table, history: map<nat, seq<AdapterCall>>, swept: set<nat>, id: nat)
    requires swept <= table.Keys <= history.Keys && id in table && id !in swept
    ensures SweptHistory(history, table, swept + {id})
         == Recorded(SweptHistory(history, table, swept), id, [FirstCleanup(table[id])])
  {
  }

  lemma OneMoreCleanup(table: Table, cleanups: map<nat, CleanupPhase>, swept: set<nat>, id: nat, throwsAt: Option<nat>)
    requires swept <= table.Keys && id in table && id !in swept && cleanups.Keys !! table.Keys
    ensures SweptCleanups(cleanups, table, swept + {id}, throwsAt) ==
      if throwsAt == Some(id) then SweptCleanups(cleanups, table, swept, throwsAt)
      else SweptCleanups(cleanups, table, swept, throwsAt)[id := CleanupOf(table[id])]
  {
  }
}
