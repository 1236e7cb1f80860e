/**
 The serial queue of the connection protocol. Ticket t of the promise chain is released by whoever
 holds it; these lemmas say how each kind of change to the table of connections and to the
 suspended calls leaves the chain intact.
 */
module StorageTickets {
  import opened Wrappers
  import opened StorageProtocol

  type Table = map<nat, TrackedAdapter>
  type Calls = map<nat, Pending>

  /** The ticket a suspended call waits with, or will release. */
  function TicketOf(p: Pending): Option<nat> {
    match p
    case Waiting(_, ticket) => Some(ticket)
    case Running(_, _) => None
    case ClosingRollback(_, lock) => lock
    case ClosingClose(_, lock) => lock
  }

  ghost predicate ReleasedIsPrefix(released: set<nat>, nextTicket: nat) {
    && 0 in released
    && (forall t :: t in released ==> t < nextTicket)
    && (forall t, u: nat :: t in released && u < t ==> u in released)
  }

  /** A ticket is only ever held on behalf of the connection it was drawn for, until it is released. */
  ghost predicate LocksAreOwn(released: set<nat>, nextTicket: nat, connections: Table, pending: Calls) {
    && (forall i :: i in connections && connections[i].lock.Some? ==>
         connections[i].lock.value == i && i < nextTicket && i !in released)
    && (forall c :: c in pending && TicketOf(pending[c]).Some? ==>
         var t := TicketOf(pending[c]).value; pending[c].conn == t && t < nextTicket && t !in released)
  }

  predicate IsHeld(connections: Table, pending: Calls, t: nat, c: nat) {
    || (t in connections && connections[t].lock == Some(t))
    || (c in pending && TicketOf(pending[c]) == Some(t))
  }

  ghost predicate NoTicketLost(released: set<nat>, nextTicket: nat, connections: Table, pending: Calls) {
    forall t: nat :: t < nextTicket && t !in released ==> exists c :: IsHeld(connections, pending, t, c)
  }

  /** Whoever has stopped waiting did so after every earlier ticket was released. */
  ghost predicate GrantsInOrder(released: set<nat>, connections: Table, pending: Calls) {
    && (forall i, u: nat :: i in connections && connections[i].lock.Some? && u < i ==> u in released)
    && (forall c, u: nat ::
         c in pending && !pending[c].Waiting? && TicketOf(pending[c]).Some? && u < TicketOf(pending[c]).value ==>
         u in released)
  }

  ghost predicate TicketsKept(released: set<nat>, nextTicket: nat, connections: Table, pending: Calls) {
    && ReleasedIsPrefix(released, nextTicket)
    && LocksAreOwn(released, nextTicket, connections, pending)
    && NoTicketLost(released, nextTicket, connections, pending)
    && GrantsInOrder(released, connections, pending)
  }

  /** No connection is both in the table and waiting or closing, and no two calls share one. */
  ghost predicate Apart(connections: Table, pending: Calls) {
    && (forall c :: c in pending && TicketOf(pending[c]).Some? ==> pending[c].conn !in connections)
    && (forall c, d :: c in pending && d in pending && pending[c].conn == pending[d].conn ==> c == d)
  }

  /** Every holder of a ticket that stays unreleased keeps it, or hands it to call `added`. */
  lemma HoldersCarryOver(released: set<nat>, released': set<nat>, n: nat, n': nat, connections: Table, connections': Table,
                         pending: Calls, pending': Calls, added: nat)
    requires NoTicketLost(released, n, connections, pending)
    requires released <= released'
    requires forall k: nat, c :: k < n && k !in released' && IsHeld(connections, pending, k, c) ==>
      IsHeld(connections', pending', k, c) || IsHeld(connections', pending', k, added)
    requires forall k: nat :: n <= k < n' && k !in released' ==> IsHeld(connections', pending', k, added)
    ensures NoTicketLost(released', n', connections', pending')
  {
    forall k: nat | k < n' && k !in released' ensures exists c :: IsHeld(connections', pending', k, c) {
      if k < n {
        var c :| IsHeld(connections, pending, k, c);
        assert IsHeld(connections', pending', k, c) || IsHeld(connections', pending', k, added);
      } else {
        assert IsHeld(connections', pending', k, added);
      }
    }
  }

  lemma DrawKeepsTickets(released: set<nat>, n: nat, connections: Table, pending: Calls, call: nat)
    requires TicketsKept(released, n, connections, pending) && call !in pending
    ensures TicketsKept(released, n + 1, connections, pending[call := Waiting(n, n)])
  {
    HoldersCarryOver(released, released, n, n + 1, connections, connections, pending, pending[call := Waiting(n, n)], call);
  }

  lemma RefuseKeepsTickets(released: set<nat>, n: nat, connections: Table, pending: Calls, call: nat)
    requires TicketsKept(released, n, connections, pending) && Apart(connections, pending)
    requires call in pending && pending[call].Waiting? && pending[call].ticket - 1 in released
    ensures TicketsKept(released + {pending[call].ticket}, n, connections, pending - {call})
  {
    var ticket := pending[call].ticket;
    assert TicketOf(pending[call]) == Some(ticket);
    assert forall u: nat :: u < ticket ==> u == ticket - 1 || u in released;
    HoldersCarryOver(released, released + {ticket}, n, n, connections, connections, pending, pending - {call}, call);
  }

  lemma AdmitKeepsTickets(released: set<nat>, n: nat, connections: Table, pending: Calls, call: nat, e: TrackedAdapter)
    requires TicketsKept(released, n, connections, pending) && Apart(connections, pending)
    requires call in pending && pending[call].Waiting? && pending[call].ticket - 1 in released
    requires e.lock == Some(pending[call].ticket)
    ensures TicketsKept(released, n, connections[pending[call].conn := e], pending - {call})
  {
    var ticket := pending[call].ticket;
    var connections' := connections[pending[call].conn := e];
    assert TicketOf(pending[call]) == Some(ticket);
    assert forall u: nat :: u < ticket ==> u == ticket - 1 || u in released;
    HoldersCarryOver(released, released, n, n, connections, connections', pending, pending - {call}, call);
  }

  /** The same locks, and only running operations added to the calls. */
  lemma RunKeepsTickets(released: set<nat>, n: nat, connections: Table, pending: Calls, call: nat, id: nat,
                        e: TrackedAdapter, op: AdapterOp)
    requires TicketsKept(released, n, connections, pending) && call !in pending
    requires id in connections && e.lock == connections[id].lock
    ensures TicketsKept(released, n, connections[id := e], pending[call := Running(id, op)])
  {
    HoldersCarryOver(released, released, n, n, connections, connections[id := e],
                     pending, pending[call := Running(id, op)], call);
  }

  lemma DropRunningKeepsTickets(released: set<nat>, n: nat, connections: Table, pending: Calls, call: nat)
    requires TicketsKept(released, n, connections, pending)
    requires call in pending && pending[call].Running?
    ensures TicketsKept(released, n, connections, pending - {call})
  {
    HoldersCarryOver(released, released, n, n, connections, connections, pending, pending - {call}, call);
  }

  lemma CloseKeepsTickets(released: set<nat>, n: nat, connections: Table, pending: Calls, call: nat, id: nat, p: Pending)
    requires TicketsKept(released, n, connections, pending) && call !in pending
    requires id in connections && p.conn == id && !p.Waiting? && TicketOf(p) == connections[id].lock
    ensures TicketsKept(released, n, connections - {id}, pending[call := p])
  {
    HoldersCarryOver(released, released, n, n, connections, connections - {id}, pending, pending[call := p], call);
  }

  lemma StartCloseKeepsTickets(released: set<nat>, n: nat, connections: Table, pending: Calls, call: nat)
    requires TicketsKept(released, n, connections, pending)
    requires call in pending && pending[call].ClosingRollback?
    ensures TicketsKept(released, n, connections, pending[call := ClosingClose(pending[call].conn, pending[call].lock)])
  {
    var p := ClosingClose(pending[call].conn, pending[call].lock);
    assert TicketOf(p) == TicketOf(pending[call]);
    HoldersCarryOver(released, released, n, n, connections, connections, pending, pending[call := p], call);
  }

  lemma EndCloseKeepsTickets(released: set<nat>, n: nat, connections: Table, pending: Calls, call: nat)
    requires TicketsKept(released, n, connections, pending) && Apart(connections, pending)
    requires call in pending && (pending[call].ClosingRollback? || pending[call].ClosingClose?)
    ensures TicketsKept(Release(released, pending[call].lock), n, connections, pending - {call})
  {
    var lock := pending[call].lock;
    assert TicketOf(pending[call]) == lock;
    HoldersCarryOver(released, Release(released, lock), n, n, connections, connections, pending, pending - {call}, call);
  }

  /** Entries `ids` lose their locks, by leaving the table or in place; the locks are released. */
  lemma ReleaseLocksKeepsTickets(released: set<nat>, n: nat, connections: Table, connections': Table, pending: Calls, ids: set<nat>)
    requires TicketsKept(released, n, connections, pending) && Apart(connections, pending)
    requires ids <= connections.Keys
    requires forall i :: i in connections' ==> i in connections
    requires forall i :: i in connections' && i !in ids ==> connections'[i].lock == connections[i].lock
    requires forall i :: i in connections' && i in ids ==> connections'[i].lock.None?
    requires forall i :: i in connections && i !in ids ==> i in connections'
    ensures TicketsKept(released + LocksOf(connections, ids), n, connections', pending)
  {
    var freed := LocksOf(connections, ids);
    assert forall t :: t in freed ==> t in ids && connections[t].lock == Some(t);
    assert forall i :: i in ids && connections[i].lock.Some? ==> i in freed;
    forall t, u: nat | t in freed && u < t ensures u in released {
      assert connections[t].lock.Some?;
    }
    HoldersCarryOver(released, released + freed, n, n, connections, connections', pending, pending, 0);
  }

  /** Entries without a lock may come and go. */
  lemma UnlockedKeepsTickets(released: set<nat>, n: nat, connections: Table, connections': Table, pending: Calls)
    requires TicketsKept(released, n, connections, pending)
    requires forall i :: i in connections' && connections'[i].lock.Some? ==>
      i in connections && connections[i].lock == connections'[i].lock
    requires forall i :: i in connections && connections[i].lock.Some? ==>
      i in connections' && connections'[i].lock == connections[i].lock
    ensures TicketsKept(released, n, connections', pending)
  {
    HoldersCarryOver(released, released, n, n, connections, connections', pending, pending, 0);
  }
}
