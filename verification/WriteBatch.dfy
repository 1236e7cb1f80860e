/**
 `write_batch`: one transaction per attempt, retried on serialization failures. The functions say
 how a call ends for every behaviour of the outside; the manager's methods, which go through a
 connection call by call, are proved to end that way.
 */
module WriteBatch {
  import opened Wrappers
  import opened WriteOps
  import opened WriteConnection
  import opened FactPairing
  import opened OperationIds

  const MAX_RETRIES := 5
  const SERIALIZATION_FAILURE := "40001"

  /** What the outside does in attempt k: to the acquire, to the connection, and the random part of the wait. */
  datatype World = World(acquireError: nat -> Option<StorageError>, fate: nat -> Fate, jitter: nat -> nat)

  function Pow2(n: nat): (r: nat)
    ensures 1 <= r
  {
    if n == 0 then 1 else 2 * Pow2(n - 1)
  }

  function BaseDelay(attempt: nat): nat {
    if 50 * Pow2(attempt) < 1000 then 50 * Pow2(attempt) else 1000
  }

  /** The wait after a failed attempt: the base and up to half of it again. */
  function Delay(w: World, attempt: nat): nat {
    BaseDelay(attempt) + w.jitter(attempt) % (BaseDelay(attempt) / 2 + 1)
  }

  /** How a call of `write_batch` leaves things. */
  datatype Report = Report(
    result: Result<nat, StorageError>,
    store: Store,
    acquired: nat,      // connections taken
    closed: nat,        // connections given back
    waited: nat)        // milliseconds

  /** What the body of a transaction does in attempt k on the given store. */
  type Transaction = (nat, Store) -> Outcome<nat>

  /** A transaction's operations and its commit. */
  function WithCommit(fate: Fate, o: Outcome<nat>): Outcome<nat> {
    if o.result.Ok? && fate.commitError.Some? then Outcome(o.log, Err(fate.commitError.value)) else o
  }

  /** The transaction of attempt k on store `base`, with its commit. */
  function Transact(w: World, body: Transaction, k: nat, base: Store): Outcome<nat> {
    WithCommit(w.fate(k), body(k, base))
  }

  /** Attempts k, k + 1, ... until one is final. */
  function Attempts(w: World, body: Transaction, k: nat, store: Store): Report
    decreases MAX_RETRIES + 1 - k
  {
    if w.acquireError(k).Some? then Report(Err(w.acquireError(k).value), store, 0, 0, 0)
    else if w.fate(k).beginError.Some? then Report(Err(w.fate(k).beginError.value), store, 1, 1, 0)
    else
      var base := store + Foreigns(w.fate(k).others);
      var o := Transact(w, body, k, base);
      match o.result
      case Ok(n) => Report(Ok(n), base + OwnStatements(o.log), 1, 1, 0)
      case Err(e) =>
        if e.code == SERIALIZATION_FAILURE && k < MAX_RETRIES then
          var rest := Attempts(w, body, k + 1, base);
          rest.(acquired := rest.acquired + 1, closed := rest.closed + 1, waited := rest.waited + Delay(w, k))
        else Report(Err(e), base, 1, 1, 0)
  }

  /** The body of a batch's transaction: its operations, with embeddings already computed. */
  function BatchBody(host: Host, w: World, ops: seq<WriteOp>): Transaction {
    (k, base) => RunOps(ExecutorOn(host, w.fate(k).driver(base)), [], PrecomputeEmbeddings(host, ops))
  }

  function Write(host: Host, w: World, ops: seq<WriteOp>, store: Store): Report {
    if ops == [] then Report(Ok(0), store, 0, 0, 0)
    else Attempts(w, BatchBody(host, w, ops), 0, store)
  }

  // ---------- what it promises ----------

  /** What the others committed before attempt `upTo`, from attempt `k` on. */
  function OthersBetween(w: World, k: nat, upTo: nat): Store
    requires k <= upTo
    decreases upTo - k
  {
    if k == upTo then [] else Foreigns(w.fate(k).others) + OthersBetween(w, k + 1, upTo)
  }

  /** The store attempt `j` works on, if attempts start with `k` on `store`. */
  function BaseOf(w: World, k: nat, store: Store, j: nat): Store
    requires k <= j
  {
    store + OthersBetween(w, k, j + 1)
  }

  /** The attempt succeeded on the store it saw. */
  predicate Commits(w: World, body: Transaction, k: nat, base: Store, n: nat) {
    && w.acquireError(k).None? && w.fate(k).beginError.None? && w.fate(k).commitError.None?
    && body(k, base).result == Ok(n)
  }

  /** The attempt failed in a way that allows another one. */
  predicate MustRetry(w: World, body: Transaction, k: nat, base: Store) {
    && w.acquireError(k).None? && w.fate(k).beginError.None?
    && Transact(w, body, k, base).result.Err?
    && Transact(w, body, k, base).result.error.code == SERIALIZATION_FAILURE
  }

  /** Exactly once, on the store the committing attempt saw; every earlier attempt had to be retried. */
  ghost predicate IsExactlyOnce(w: World, body: Transaction, k: nat, store: Store, r: Report, last: nat)
    requires k <= last
  {
    var base := BaseOf(w, k, store, last);
    && r.result.Ok? && Commits(w, body, last, base, r.result.value)
    && r.store == base + OwnStatements(body(last, base).log)
    && (forall j :: k <= j < last ==> MustRetry(w, body, j, BaseOf(w, k, store, j)))
  }

  /** Starting one attempt later, from the store that attempt would see, changes no base. */
  lemma BaseShifts(w: World, k: nat, store: Store, j: nat)
    requires k <= j
    ensures BaseOf(w, k, store, k) == store + Foreigns(w.fate(k).others)
    ensures k < j ==> BaseOf(w, k, store, j) == BaseOf(w, k + 1, store + Foreigns(w.fate(k).others), j)
  {
    assert OthersBetween(w, k, k + 1) == Foreigns(w.fate(k).others) + [];
  }

  lemma {:induction false} SuccessIsExactlyOnce(w: World, body: Transaction, k: nat, store: Store) returns (last: nat)
    requires k <= MAX_RETRIES && Attempts(w, body, k, store).result.Ok?
    ensures k <= last <= MAX_RETRIES
    ensures IsExactlyOnce(w, body, k, store, Attempts(w, body, k, store), last)
    decreases MAX_RETRIES + 1 - k
  {
    var base := store + Foreigns(w.fate(k).others);
    BaseShifts(w, k, store, k);
    if Transact(w, body, k, base).result.Ok? {
      last := k;
    } else {
      last := SuccessIsExactlyOnce(w, body, k + 1, base);
      BaseShifts(w, k, store, last);
      forall j | k <= j < last ensures MustRetry(w, body, j, BaseOf(w, k, store, j)) {
        BaseShifts(w, k, store, j);
        assert j > k ==> MustRetry(w, body, j, BaseOf(w, k + 1, base, j));
      }
    }
  }

  lemma OthersStart(w: World, k: nat, upTo: nat, store: Store)
    requires k < upTo
    ensures store + OthersBetween(w, k, upTo) == store + Foreigns(w.fate(k).others) + OthersBetween(w, k + 1, upTo)
  {
  }

  /** A failure leaves nothing of the batch behind: the store only has what others put there. */
  lemma {:induction false} FailureLeavesNothing(w: World, body: Transaction, k: nat, store: Store) returns (upTo: nat)
    requires k <= MAX_RETRIES && Attempts(w, body, k, store).result.Err?
    ensures k <= upTo <= MAX_RETRIES + 1
    ensures Attempts(w, body, k, store).store == store + OthersBetween(w, k, upTo)
    decreases MAX_RETRIES + 1 - k
  {
    var base := store + Foreigns(w.fate(k).others);
    BaseShifts(w, k, store, k);
    if w.acquireError(k).Some? || w.fate(k).beginError.Some? {
      upTo := k;
    } else if MustRetry(w, body, k, base) && k < MAX_RETRIES {
      upTo := FailureLeavesNothing(w, body, k + 1, base);
      OthersStart(w, k, upTo, store);
    } else {
      upTo := k + 1;
    }
  }

  /** Where connections can be had, a serialization failure reaches the caller only after the last attempt. */
  lemma {:induction false} RetriesAreExhausted(w: World, body: Transaction, k: nat, store: Store)
    requires k <= MAX_RETRIES
    requires forall j :: k <= j <= MAX_RETRIES ==> w.acquireError(j).None? && w.fate(j).beginError.None?
    requires var r := Attempts(w, body, k, store); r.result.Err? && r.result.error.code == SERIALIZATION_FAILURE
    ensures Attempts(w, body, k, store).acquired == MAX_RETRIES + 1 - k
    decreases MAX_RETRIES + 1 - k
  {
    if k < MAX_RETRIES {
      RetriesAreExhausted(w, body, k + 1, store + Foreigns(w.fate(k).others));
    }
  }

  /** Connections balance, at most six attempts run, and the waits stay within the bound. */
  lemma {:induction false} WriteIsBounded(w: World, body: Transaction, k: nat, store: Store)
    requires k <= MAX_RETRIES
    ensures var r := Attempts(w, body, k, store);
      r.acquired == r.closed && r.acquired <= MAX_RETRIES + 1 - k && r.waited <= WaitBound(k)
    decreases MAX_RETRIES + 1 - k
  {
    if k < MAX_RETRIES {
      WriteIsBounded(w, body, k + 1, store + Foreigns(w.fate(k).others));
    }
  }

  /** Three halves of the bases still to come. */
  function WaitBound(k: nat): nat
    decreases MAX_RETRIES - k
  {
    if k >= MAX_RETRIES then 0 else BaseDelay(k) + BaseDelay(k) / 2 + WaitBound(k + 1)
  }

  lemma TotalWait()
    ensures WaitBound(0) == 2325
  {
    assert Pow2(1) == 2 && Pow2(2) == 4 && Pow2(3) == 8 && Pow2(4) == 16;
    assert BaseDelay(0) == 50 && BaseDelay(1) == 100 && BaseDelay(2) == 200 && BaseDelay(3) == 400 && BaseDelay(4) == 800;
    assert WaitBound(4) == 1200 && WaitBound(3) == 1800 && WaitBound(2) == 2100 && WaitBound(1) == 2250;
  }

  lemma DelayDoubles(w: World, attempt: nat)
    requires attempt < MAX_RETRIES
    ensures 50 * Pow2(attempt) <= Delay(w, attempt) <= 75 * Pow2(attempt)
  {
    TotalWait();
    assert Pow2(0) == 1 && Pow2(1) == 2 && Pow2(2) == 4 && Pow2(3) == 8 && Pow2(4) == 16;
  }

  /** An attempt is the last one, or it waits before the next. */
  lemma OneAttempt(w: World, body: Transaction, k: nat, store: Store)
    requires k <= MAX_RETRIES
    ensures var r := Attempts(w, body, k, store);
      || r.acquired <= 1
      || (k < MAX_RETRIES
          && var rest := Attempts(w, body, k + 1, store + Foreigns(w.fate(k).others));
            r.acquired == rest.acquired + 1 && r.waited == rest.waited + Delay(w, k))
  {
    hide Delay, Transact;
  }

  /** The waits double: whoever has come to the n-th attempt has waited fifty milliseconds for each of 1, 2, 4, ... */
  lemma {:induction false} RetriesBackOff(w: World, body: Transaction, k: nat, store: Store)
    requires k <= MAX_RETRIES
    ensures var r := Attempts(w, body, k, store);
      r.acquired > 0 ==> r.waited >= 50 * (Pow2(k + r.acquired - 1) - Pow2(k))
    decreases MAX_RETRIES + 1 - k
  {
    hide Attempts, Delay, Pow2;
    OneAttempt(w, body, k, store);
    var r := Attempts(w, body, k, store);
    if r.acquired > 1 {
      var base := store + Foreigns(w.fate(k).others);
      RetriesBackOff(w, body, k + 1, base);
      DelayDoubles(w, k);
      PowerStep(k);
      assert k + 1 + Attempts(w, body, k + 1, base).acquired - 1 == k + r.acquired - 1;
    }
  }

  lemma PowerStep(k: nat)
    ensures Pow2(k + 1) == 2 * Pow2(k)
  {
  }

  lemma SixAttemptsWait(w: World, body: Transaction, store: Store)
    ensures Attempts(w, body, 0, store).acquired == 6 ==> Attempts(w, body, 0, store).waited >= 1550
  {
    RetriesBackOff(w, body, 0, store);
    assert Pow2(5) == 32 && Pow2(0) == 1;
    hide Attempts;
  }

  /** The whole call. */
  lemma WriteBatchTheorem(host: Host, w: World, ops: seq<WriteOp>, store: Store)
    ensures var r := Write(host, w, ops, store);
      && r.acquired == r.closed <= 6 && r.waited <= 2325 && (r.acquired == 6 ==> r.waited >= 1550)
      && (ops == [] ==> r.result == Ok(0) && r.store == store)
      && (ops != [] && r.result.Ok? ==>
            exists last: nat :: last <= MAX_RETRIES && IsExactlyOnce(w, BatchBody(host, w, ops), 0, store, r, last))
      && (r.result.Err? ==> exists upTo: nat :: upTo <= MAX_RETRIES + 1 && r.store == store + OthersBetween(w, 0, upTo))
  {
    if ops != [] {
      var body := BatchBody(host, w, ops);
      WriteIsBounded(w, body, 0, store);
      SixAttemptsWait(w, body, store);
      TotalWait();
      hide Attempts, IsExactlyOnce, WaitBound;
      if Write(host, w, ops, store).result.Ok? {
        var last := SuccessIsExactlyOnce(w, body, 0, store);
      } else {
        var upTo := FailureLeavesNothing(w, body, 0, store);
      }
    }
  }

  /** What a successful write adds to the store carries, operation by operation, the identifiers its own connection was given. */
  lemma CommittedIdsAreAnswered(host: Host, w: World, ops: seq<WriteOp>, store: Store) returns (last: nat, base: Store, log: seq<DriverCall>)
    requires ops != [] && Write(host, w, ops, store).result.Ok?
    ensures last <= MAX_RETRIES && base == BaseOf(w, 0, store, last)
    ensures Write(host, w, ops, store).store == base + OwnStatements(log)
    ensures PartsRefer(w.fate(last).driver(base), log, 0, PrecomputeEmbeddings(host, ops))
  {
    var body := BatchBody(host, w, ops);
    last := SuccessIsExactlyOnce(w, body, 0, store);
    base := BaseOf(w, 0, store, last);
    log := body(last, base).log;
    BatchRefers(host, w.fate(last).driver(base), [], PrecomputeEmbeddings(host, ops));
  }

  /** Every fact statement that a successful write adds to the store is paired with its embeddings. */
  lemma CommittedFactsArePaired(host: Host, w: World, vector: string -> seq<real>, ops: seq<WriteOp>, store: Store, c: DriverCall)
    requires EmbedsVisible(host, vector) && c.EntityFactCreate?
    requires Ours(c) in Write(host, w, ops, store).store && Ours(c) !in store
    ensures exists k :: 0 <= k < |ops| && CarriesFactsOf(c, ops[k], vector)
  {
    var r := Write(host, w, ops, store);
    WriteBatchTheorem(host, w, ops, store);
    if r.result.Err? {
      var upTo: nat :| upTo <= MAX_RETRIES + 1 && r.store == store + OthersBetween(w, 0, upTo);
      OthersAreForeign(w, 0, upTo);
      assert false;
    } else {
      var body := BatchBody(host, w, ops);
      var last: nat :| last <= MAX_RETRIES && IsExactlyOnce(w, body, 0, store, r, last);
      OthersAreForeign(w, 0, last + 1);
      var base := BaseOf(w, 0, store, last);
      var log := body(last, base).log;
      assert Ours(c) in OwnStatements(log);
      BatchFactCalls(host, vector, w.fate(last).driver(base), [], ops);
    }
  }

  lemma {:induction false} OthersAreForeign(w: World, k: nat, upTo: nat)
    requires k <= upTo
    ensures forall s :: s in OthersBetween(w, k, upTo) ==> s.Foreign?
    decreases upTo - k
  {
    if k < upTo { OthersAreForeign(w, k + 1, upTo); }
  }

  // ---------- the manager ----------

  /** The manager with its connection factory, and what its connections were asked. */
  class RustStorageManager {
    const host: Host
    const world: World
    const db: Database
    var acquired: nat
    var waited: nat
    var traces: seq<seq<Event>>   // of the connections given back

    constructor (host: Host, world: World, db: Database)
      ensures this.host == host && this.world == world && this.db == db
      ensures acquired == 0 && waited == 0 && traces == []
    {
      this.host, this.world, this.db := host, world, db;
      acquired, waited, traces := 0, 0, [];
    }

    method WriteBatch(ops: seq<WriteOp>) returns (r: Result<nat, StorageError>)
      modifies this, db
      ensures var report := Write(host, world, ops, old(db.store));
        && r == report.result && db.store == report.store
        && acquired == old(acquired) + report.acquired && waited == old(waited) + report.waited
        && HaveBeenClosed(old(traces), traces, report.closed)
    {
      if ops == [] {
        return Ok(0);
      }
      r := RunAttempts(PrecomputeEmbeddings(host, ops), BatchBody(host, world, ops));
    }

    method RunAttempts(batch: seq<WriteOp>, ghost body: Transaction) returns (r: Result<nat, StorageError>)
      requires IsBodyOf(body, host, world, batch)
      modifies this, db
      ensures var report := Attempts(world, body, 0, old(db.store));
        && r == report.result && db.store == report.store
        && acquired == old(acquired) + report.acquired && waited == old(waited) + report.waited
        && HaveBeenClosed(old(traces), traces, report.closed)
    {
      hide IsBodyOf, IsProper;
      ghost var report := Attempts(world, body, 0, db.store);
      var attempt: nat := 0;
      r := Err(StorageError("ERR", "write_batch exhausted retries"));
      while attempt <= MAX_RETRIES
        invariant attempt <= MAX_RETRIES
        invariant old(acquired) <= acquired && old(waited) <= waited
        invariant HaveBeenClosed(old(traces), traces, |traces| - |old(traces)|)
        invariant report == Plus(Attempts(world, body, attempt, db.store),
                                 acquired - old(acquired), |traces| - |old(traces)|, waited - old(waited))
      {
        var final := RunAttempt(attempt, batch, body);
        if final.Some? {
          return final.value;
        }
        attempt := attempt + 1;
      }
      assert false;  // the loop never runs out: the last attempt always returns
    }

    /** One attempt; none means that it was rolled back and may be repeated. */
    method RunAttempt(attempt: nat, batch: seq<WriteOp>, ghost body: Transaction)
      returns (final: Option<Result<nat, StorageError>>)
      requires IsBodyOf(body, host, world, batch)
      modifies this, db
      ensures final.None? ==> attempt < MAX_RETRIES
      ensures old(acquired) <= acquired && old(waited) <= waited
      ensures HaveBeenClosed(old(traces), traces, |traces| - |old(traces)|)
      ensures Attempts(world, body, attempt, old(db.store)) ==
        Plus(if final.Some? then Report(final.value, db.store, 0, 0, 0) else Attempts(world, body, attempt + 1, db.store),
             acquired - old(acquired), |traces| - |old(traces)|, waited - old(waited))
    {
      if world.acquireError(attempt).Some? {
        return Some(Err(world.acquireError(attempt).value));
      }
      acquired := acquired + 1;
      var began, result := OnConnection(world.fate(attempt), batch);
      if began && result.Err? && result.error.code == SERIALIZATION_FAILURE && attempt < MAX_RETRIES {
        waited := waited + Delay(world, attempt);
        return None;
      }
      final := Some(result);
    }

    /** What is done on the connection of one attempt, until it is given back. */
    method OnConnection(fate: Fate, batch: seq<WriteOp>) returns (began: bool, r: Result<nat, StorageError>)
      modifies this`traces, db
      ensures HaveBeenClosed(old(traces), traces, 1)
      ensures began == fate.beginError.None?
      ensures !began ==> r == Err(fate.beginError.value) && db.store == old(db.store)
      ensures began ==>
        var base := old(db.store) + Foreigns(fate.others);
        var o := WithCommit(fate, RunOps(ExecutorOn(host, fate.driver(base)), [], batch));
        r == o.result && db.store == if r.Ok? then base + OwnStatements(o.log) else base
    {
      hide RunOps, Foreigns, OwnStatements;
      var conn := new Connection(db, fate);
      var beginError := conn.Begin();
      began := beginError.None?;
      if beginError.Some? {
        conn.Close();
        assert conn.trace[..1] == [BeginTried(false)] && [BeginTried(false)][..0] == [];
        traces := traces + [conn.trace];
        return began, Err(beginError.value);
      }
      r := RunTransaction(conn, batch);
      if r.Ok? {
        conn.Close();
        traces := traces + [conn.trace];
        return;
      }
      conn.Rollback();
      conn.Close();
      traces := traces + [conn.trace];
    }

    /** The operations and the commit, whose failure is the transaction's. */
    method RunTransaction(conn: Connection, batch: seq<WriteOp>) returns (r: Result<nat, StorageError>)
      requires conn.open && conn.db == db && conn.log == []
      modifies conn, db
      ensures var o := WithCommit(conn.fate, RunOps(ExecutorOn(host, old(conn.driver)), [], batch));
        r == o.result && db.store == if r.Ok? then old(db.store) + OwnStatements(o.log) else old(db.store)
      ensures r.Ok? ==> !conn.open
      ensures conn.trace == old(conn.trace) || conn.trace == old(conn.trace) + [CommitTried(r.Ok?)]
      ensures r.Ok? ==> conn.trace == old(conn.trace) + [CommitTried(true)]
    {
      r := conn.ExecuteBatchOps(host, batch, ExecutorOn(host, conn.driver));
      if r.Ok? {
        var commitError := conn.Commit();
        if commitError.Some? {
          r := Err(commitError.value);
        }
      }
    }
  }

  /** The transaction is the batch, executed with the answers of the attempt. */
  ghost predicate IsBodyOf(body: Transaction, host: Host, world: World, batch: seq<WriteOp>) {
    forall k, base :: body(k, base) == RunOps(ExecutorOn(host, world.fate(k).driver(base)), [], batch)
  }

  /** So many more connections have been given back, each closed once, last, and not over an open transaction. */
  predicate HaveBeenClosed(before: seq<seq<Event>>, after: seq<seq<Event>>, count: int) {
    && |after| == |before| + count && before <= after
    && forall i :: |before| <= i < |after| ==> IsProper(after[i])
  }

  /** A report with connections and waiting time of earlier attempts added. */
  function Plus(r: Report, acquired: int, closed: int, waited: int): Report
    requires 0 <= acquired && 0 <= closed && 0 <= waited
  {
    r.(acquired := r.acquired + acquired, closed := r.closed + closed, waited := r.waited + waited)
  }
}
