/**
 The promises of the storage manager, over all runs from the initial state, and the settling of a
 shutdown once adapter calls return.
 */
module StorageTheorems {
  import opened Wrappers
  import opened StorageProtocol
  import opened StorageTickets
  import opened StorageSafety

  lemma {:induction false} RunKeepsInv(s: State, steps: seq<Step>)
    requires Inv(s) && IsRun(s, steps)
    ensures Inv(RunAll(s, steps))
    decreases |steps|
  {
    if steps != [] {
      StepKeepsInv(s, steps[0]);
      RunKeepsInv(Apply(s, steps[0]), steps[1..]);
    }
  }

  lemma Reachable(serial: bool, steps: seq<Step>)
    requires IsRun(Init(serial), steps)
    ensures Inv(RunAll(Init(serial), steps))
  {
    InitInv(serial);
    RunKeepsInv(Init(serial), steps);
  }

  // ---------- answers ----------

  /** In every run `resolve` is called exactly once for a settled call and not yet for a suspended one. */
  lemma EveryCallAnsweredOnce(serial: bool, steps: seq<Step>)
    requires IsRun(Init(serial), steps)
    ensures var s := RunAll(Init(serial), steps);
      forall c: nat :: c < s.nextCall ==> c in s.replies && |s.replies[c]| == (if c in s.pending then 0 else 1)
  {
    Reachable(serial, steps);
  }

  /** An answer stands: whatever runs later, a settled call keeps the one reply it got. */
  lemma {:induction false} AnswersAreFinal(s: State, steps: seq<Step>, call: nat)
    requires Inv(s) && IsRun(s, steps) && call in s.replies && call !in s.pending
    ensures var t := RunAll(s, steps); call !in t.pending && call in t.replies && t.replies[call] == s.replies[call]
    decreases |steps|
  {
    if steps != [] {
      StepKeepsInv(s, steps[0]);
      assert IsUntouched(s, Apply(s, steps[0]), call);
      AnswersAreFinal(Apply(s, steps[0]), steps[1..], call);
    }
  }

  /** Two acquires are never answered with the same connection id, however old the first one is. */
  lemma ConnectionIdsAreUnique(serial: bool, steps: seq<Step>, c: nat, d: nat, id: nat)
    requires IsRun(Init(serial), steps)
    requires var s := RunAll(Init(serial), steps);
      c in s.replies && d in s.replies && Connected(id) in s.replies[c] && Connected(id) in s.replies[d]
    ensures c == d
  {
    hide ConnectionsSeparate, TicketsKept, TransactionsTracked, ShutdownOrderly;
    Reachable(serial, steps);
    var s := RunAll(Init(serial), steps);
    assert s.replies[c] == [Connected(id)] && s.replies[d] == [Connected(id)];
  }

  // ---------- the serial lock ----------

  /** Has the owner of ticket `t` stopped waiting without yet releasing it? */
  ghost predicate IsGrantedUnreleased(s: State, t: nat) {
    t !in s.released
    && ((t in s.connections && s.connections[t].lock == Some(t))
        || exists c :: c in s.pending && !s.pending[c].Waiting? && TicketOf(s.pending[c]) == Some(t))
  }

  /** Grants follow acquire order, and at most one connection holds the serial lock. */
  lemma SerialLockIsExclusive(serial: bool, steps: seq<Step>, t: nat)
    requires IsRun(Init(serial), steps) && IsGrantedUnreleased(RunAll(Init(serial), steps), t)
    ensures var s := RunAll(Init(serial), steps);
      && (forall u: nat :: u < t ==> u in s.released)
      && (forall u: nat :: IsGrantedUnreleased(s, u) ==> u == t)
  {
    Reachable(serial, steps);
    var s := RunAll(Init(serial), steps);
    forall u: nat | IsGrantedUnreleased(s, u) ensures u == t && forall v: nat :: v < u ==> v in s.released {
      GrantedAfterEarlier(s, u);
      GrantedAfterEarlier(s, t);
    }
  }

  lemma GrantedAfterEarlier(s: State, t: nat)
    requires Inv(s) && IsGrantedUnreleased(s, t)
    ensures forall u: nat :: u < t ==> u in s.released
  {
  }

  /** No ticket is lost: until it is released it is waiting, or its connection or a close in flight holds it. */
  lemma NoLockIsLost(serial: bool, steps: seq<Step>, t: nat)
    requires IsRun(Init(serial), steps)
    requires var s := RunAll(Init(serial), steps); t < s.nextTicket && t !in s.released
    ensures var s := RunAll(Init(serial), steps);
      || IsGrantedUnreleased(s, t)
      || exists c :: c in s.pending && s.pending[c] == Waiting(t, t)
  {
    Reachable(serial, steps);
    var s := RunAll(Init(serial), steps);
    var c :| IsHeld(s.connections, s.pending, t, c);
    if !IsGrantedUnreleased(s, t) {
      assert s.pending[c].Waiting?;
      assert TicketOf(s.pending[c]) == Some(t);
    }
  }

  /** The lowest unreleased ticket. */
  lemma FirstUnreleased(s: State) returns (t: nat)
    requires Inv(s)
    ensures 1 <= t && t !in s.released && t - 1 in s.released
  {
    t := 0;
    while t in s.released
      invariant t == 0 || t - 1 in s.released
      decreases s.nextTicket - t
    {
      t := t + 1;
    }
  }

  /** While somebody waits, the lock is granted to a connection or the next waiter can go on. */
  lemma QueueNeverSticks(s: State, waiter: nat)
    requires Inv(s) && waiter in s.pending && s.pending[waiter].Waiting?
    ensures (exists t :: IsGrantedUnreleased(s, t)) || (exists c :: CanGrant(s, c))
  {
    hide CallsAnsweredOnce, ConnectionsSeparate, IdsNeverReused, TransactionsTracked;
    var t := FirstUnreleased(s);
    assert TicketOf(s.pending[waiter]).Some?;
    assert t < s.nextTicket;
    var c :| IsHeld(s.connections, s.pending, t, c);
    if !IsGrantedUnreleased(s, t) {
      assert CanGrant(s, c);
    }
  }

  // ---------- transactions and closes ----------

  /** `ClosesAreClean` says it of each close: some commit or rollback attempt lies between it and the begin. */
  lemma {:induction false} OpenMeansUnended(h: seq<AdapterCall>)
    ensures InOpenTransaction(h) <==>
      exists j :: 0 <= j < |h| && h[j].Began? && forall m :: j < m < |h| ==> h[m].Began? || h[m].CloseTried?
    decreases |h|
  {
    if h != [] {
      var n := |h| - 1;
      OpenMeansUnended(h[..n]);
      if InOpenTransaction(h) && !h[n].Began? {
        var j :| 0 <= j < n && h[..n][j].Began? && forall m :: j < m < n ==> h[..n][m].Began? || h[..n][m].CloseTried?;
        assert h[j].Began? && forall m :: j < m < |h| ==> m == n || h[m] == h[..n][m];
      }
      if j :| 0 <= j < |h| && h[j].Began? && forall m :: j < m < |h| ==> h[m].Began? || h[m].CloseTried? {
        if j < n {
          assert h[..n][j].Began? && forall m :: j < m < n ==> h[..n][m] == h[m];
          assert h[n].Began? || h[n].CloseTried?;
        }
      }
    }
  }

  lemma CleanClosesEndTransactions(h: seq<AdapterCall>, j: nat, k: nat)
    requires ClosesAreClean(h) && j < k < |h| && h[j].Began? && h[k].CloseTried?
    ensures exists m :: j < m < k && (h[m].CommitTried? || h[m].RollbackTried?)
  {
    var g := h[..k];
    OpenMeansUnended(g);
    assert g[j].Began?;
    var m :| j < m < |g| && !(g[m].Began? || g[m].CloseTried?);
    assert h[m] == g[m];
  }

  /** A serial manager never closes an adapter over a transaction nobody tried to end. */
  lemma SerialClosesAreClean(steps: seq<Step>, id: nat)
    requires IsRun(Init(true), steps) && id in RunAll(Init(true), steps).history
    ensures ClosesAreClean(RunAll(Init(true), steps).history[id])
  {
    Reachable(true, steps);
    RunKeepsMode(Init(true), steps);
  }

  lemma {:induction false} RunKeepsMode(s: State, steps: seq<Step>)
    requires IsRun(s, steps)
    ensures RunAll(s, steps).serial == s.serial
    ensures s.IsShutDown() ==> RunAll(s, steps).IsShutDown()
    decreases |steps|
  {
    if steps != [] {
      RunKeepsMode(Apply(s, steps[0]), steps[1..]);
    }
  }

  /** Nor does a pooled one, as long as no begin is admitted once shutdown has started; `ClosedOverExactly` is sharper. */
  lemma PooledClosesAreClean(steps: seq<Step>, id: nat)
    requires IsRun(Init(false), steps) && !RunAll(Init(false), steps).lateBegin
    requires id in RunAll(Init(false), steps).history
    ensures ClosesAreClean(RunAll(Init(false), steps).history[id])
  {
    Reachable(false, steps);
  }

  // ---------- runs grow step by step ----------

  lemma ExtendRun(s: State, steps: seq<Step>, last: Step) returns (t: State)
    requires Inv(s) && IsRun(s, steps) && IsEnabled(RunAll(s, steps), last)
    ensures IsRun(s, steps + [last]) && RunAll(s, steps + [last]) == t == Apply(RunAll(s, steps), last)
    ensures Inv(t)
  {
    RunExtends(s, steps, last);
    RunKeepsInv(s, steps + [last]);
    t := RunAll(s, steps + [last]);
  }

  lemma {:induction false} RunExtends(s: State, steps: seq<Step>, last: Step)
    requires IsRun(s, steps) && IsEnabled(RunAll(s, steps), last)
    ensures IsRun(s, steps + [last]) && RunAll(s, steps + [last]) == Apply(RunAll(s, steps), last)
    decreases |steps|
  {
    if steps == [] {
      assert steps + [last] == [last] && [last][1..] == [];
    } else {
      RunExtends(Apply(s, steps[0]), steps[1..], last);
      assert (steps + [last])[1..] == steps[1..] + [last];
    }
  }
}
