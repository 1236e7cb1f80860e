# Verification of the memory engine

These Dafny modules model the parts of the repository in which many things happen at once or have to
fit together, and prove what callers rely on.

* **Storage manager** (`StorageProtocol`, `StorageTickets`, `StorageSafety`, `StorageTheorems`,
  `StorageSettling`, `StorageRuns`, `StorageExclusion`, `StorageOverlaps`, `StorageCleanups`,
  `StorageFreshness`, `StorageLateBegins`, `StorageAnswers`, `StorageEntries`, `StorageLeaks`,
  `StorageManager`). The TypeScript side keeps a table of live
  connections for the Rust core. For databases with a single handle a chain of promises serialises
  everything from acquire to close. The protocol is a transition system whose steps are the stretches
  of code between two suspension points; every adapter call may succeed or fail. A class with the
  source's fields takes the same steps.
* **Worker runtime** (`RuntimeProtocol`, `RuntimeSafety`, `RuntimeTheorems`, `RuntimeAdmission`,
  `RuntimeProgress`, `WorkerRuntime`). A bounded queue, a dispatcher, a semaphore and a counter, with
  any number of submitters, flushers and shutdown callers. A submitter sends first and counts afterwards, so the counter lags behind and may
  wrap around; the theorems say exactly when it can be trusted.
* **Writes and migrations** (`WriteOps`, `OperationCalls`, `OperationIds`, `FactPairing`,
  `WriteConnection`, `WriteBatch`, `Migrations`). Batches of operations in one transaction with retries, and
  schema revisions that pick up after failures.
* **Embedding and retrieval** (`Chunking`, `Pooling`, `EmbeddingLayout`, `FactEmbeddings`,
  `Augmentation`, `BatchContents`, `Vectors`, `Similarity`, `Tokens`, `Bm25`, `Lexical`, `TopK`,
  `Search`, `RankingLaws`, `Retrieval`, `PythonSearch`, `PythonSlice`). From texts to vectors and back
  to the facts they belong to, and the two-stage search in Rust and in its Python twin. Numbers are reals; a square root and a logarithm
  are parameters of which only the laws used are required.
* **History and JSON** (`History`, `HistoryRecovery`, `HistoryPrefix`, `HistoryReading`,
  `HistoryInjection`, `JsonConversion`, `JsonContents`). Recalled
  messages are put in front of a request and cut off again before it is stored; call arguments are
  turned into JSON whatever objects they hold.

## What does not hold as one might expect

Each of these comes with the exact condition under which the code does what it promises, and with an
input or a run in which it does not.

* A pool closes an adapter over a transaction that began during shutdown exactly if the begin returns
  while the adapter's rollback is awaited (`StorageLateBegins.ClosedOverExactly`,
  `StorageLateBegins.FreshPoolClosesOver`); never if no begin is admitted once shutdown has started
  (`StorageTheorems.PooledClosesAreClean`).
* A begin that fails gives up the serial lock but keeps its connection. Two transactions can overlap
  exactly if some begin is sent without the lock or inside a transaction (`StorageFreshness.FreshExactly`,
  `StorageOverlaps.RetryWithoutTheLockOverlaps`, `StorageOverlaps.NestedBeginOverlaps`).
* The lock of a connection is passed on before its rollback and close are over exactly if a sweep
  evicts it (`StorageCleanups.OverlapsIffSwept`, `StorageCleanups.SweptTransactionOverlaps`); the comment
  at memori-ts/src/storage/manager.ts:324 says why a close request waits.
* A close request whose rollback fails is acknowledged, but no further call reaches its adapter, which
  is left open unless a shutdown is visiting the connection at that moment
  (`StorageLeaks.FailedRollbackEndsIt`, `StorageLeaks.VisitStillCloses`,
  `StorageLeaks.OpenAdapterIsLeaked`).
* `flush` and `shutdown` may return while an accepted job is unfinished, exactly if a submitter is
  between its send and its count (`RuntimeTheorems.FlushIsHonestExactly`,
  `RuntimeTheorems.DrainIsHonestExactly`, `RuntimeTheorems.FlushCanReturnEarly`,
  `RuntimeTheorems.ShutdownCanReturnEarly`).
* An operation that is not counted has still created its owner exactly if it names one and has nothing
  to store for it (`OperationCalls.SkippedLeavesItsOwner`).
* A stored schema version of 2^32 or more is looked up truncated
  (`Migrations.NewerDatabaseIsLeftAlone`, `Migrations.WideVersionIsBuiltAgain`).
* The Python search slices before it drops candidates without content, so it may return fewer facts
  than the Rust search; some query text makes it do so exactly if the dense order would
  (`PythonSlice.SomeTextFallsShort`, `PythonSlice.TextNeverShortens`, `PythonSlice.FactIsMissed`).
* With instructions in a Responses request, a system instruction or empty texts in a Gemini request,
  or a request whose history is put where the adapter does not look, the cut is off by one or more
  (`HistoryRecovery.TurnIsExact`).
* The injected count survives into a new session whose history is empty
  (`HistoryInjection.NewSessionLosesMessages`).

## Model

Paths are relative to the repository.

| member | source | states |
|---|---|---|
| `StorageProtocol.ApplyRequest` | `memori-ts/src/storage/manager.ts:116-337` | a request of the Rust side: it gets a call number of its own, and no other call's state or answer changes |
| `StorageProtocol.SettleCall` | `memori-ts/src/storage/manager.ts:186-337` | a suspended call going on: only that call's state and answer change, and a returning adapter call adds the one answer that its outcome asks for |
| `StorageSafety.StepKeepsInv` | `memori-ts/src/storage/manager.ts:150-373` | every step of every interleaving keeps the bookkeeping, the ticket queue and the transaction records consistent, whatever the adapters answer |
| `StorageTheorems.Reachable` | `memori-ts/src/storage/manager.ts:68-373` | the invariant holds after any run from a fresh manager, serial or pooled |
| `StorageTheorems.EveryCallAnsweredOnce` | `memori-ts/src/storage/manager.ts:115-143` | in every run a settled call has been answered exactly once and a suspended one not yet |
| `StorageTheorems.AnswersAreFinal` | `memori-ts/src/storage/manager.ts:115-143` | whatever runs later, a settled call keeps the one answer it got |
| `StorageAnswers.OperationsAreAnswered` | `memori-ts/src/storage/manager.ts:115-309` | over any run, an execute, begin or commit on a known connection is answered with a success if and only if its adapter call returns well, with rows exactly for an execute; a rollback is always acknowledged, any other operation on an unknown connection fails with its own code, and so does a serial begin once a shutdown was asked for |
| `StorageAnswers.AcquiresAreAnswered` | `memori-ts/src/storage/manager.ts:191-223` | over any run, an acquire fails if its sweep or the factory throws; a pooled one is given the next id at once, and a serial one when its turn comes, unless a shutdown was asked for before |
| `StorageAnswers.ClosesAreAcknowledged` | `memori-ts/src/storage/manager.ts:311-332` | over any run, a close request is only ever acknowledged, and at once for an unknown connection |
| `StorageAnswers.OthersAreRefused` | `memori-ts/src/storage/manager.ts:121-128` | unreadable payloads and unknown operations are refused at once, each with its own code |
| `StorageEntries.EntriesTellTheTruth` | `memori-ts/src/storage/manager.ts:225-309` | in every run a listed connection is busy exactly while a call on it is in flight, and marked as inside a transaction exactly when its adapter holds one nobody has tried to end |
| `StorageEntries.SweepsTakeTheUnused` | `memori-ts/src/storage/manager.ts:150-175` | a connection unused since it was handed out or its last operation ended is taken by a sweep exactly if that is more than thirty seconds ago, or sixty with an open transaction |
| `StorageEntries.SweepsSpareTheBusy` | `memori-ts/src/storage/manager.ts:150-156` | no sweep, the timer's or an acquire's, takes a connection with a call in flight |
| `StorageEntries.CleanupsFitTheTransaction` | `memori-ts/src/storage/manager.ts:150-175` | a sweep or close request begins with a rollback exactly if the adapter holds an open transaction, and closes it at once otherwise |
| `StorageTheorems.ConnectionIdsAreUnique` | `memori-ts/src/storage/manager.ts:194-221` | no two acquires are ever answered with the same connection id, however old the first is |
| `StorageTheorems.SerialLockIsExclusive` | `memori-ts/src/storage/manager.ts:196-212` | a granted, unreleased ticket implies that all earlier tickets are released; so grants follow acquire order and one connection at most holds the serial lock |
| `StorageTheorems.NoLockIsLost` | `memori-ts/src/storage/manager.ts:196-223` | every unreleased ticket belongs to a waiting acquire, a connection in the table or a close in flight |
| `StorageTheorems.QueueNeverSticks` | `memori-ts/src/storage/manager.ts:196-212` | while an acquire waits, some connection holds the lock or the next waiter can go on |
| `StorageTheorems.CleanClosesEndTransactions` | `memori-ts/src/storage/manager.ts:311-329` | what a clean record says of each begin and close in it: a commit or rollback attempt lies between them |
| `StorageTheorems.SerialClosesAreClean` | `memori-ts/src/storage/manager.ts:150-175` | in every run of a serial manager, whether closed by request, sweep or shutdown, no adapter is closed over a transaction nobody tried to end |
| `StorageLateBegins.ClosedOverExactly` | `memori-ts/src/storage/manager.ts:339-373` | over all runs of either kind, an adapter is closed over a transaction nobody tried to end if and only if a begin on it returns while shutdown awaits its rollback and neither a commit nor a rollback is tried on it before that rollback returns |
| `StorageLateBegins.OtherClosesAreClean` | `memori-ts/src/storage/manager.ts:150-332` | every other way to close an adapter - by request, by sweep, by a visit that found no transaction - finds none open |
| `StorageLateBegins.StepGrowsHistory` | `memori-ts/src/storage/manager.ts:150-373` | which adapter calls each step makes on each connection; nothing else ever enters a connection's record |
| `StorageLateBegins.LateBeginIsClosedOver` | `memori-ts/src/storage/manager.ts:358-371` | it does happen: from any pool with one open transaction there is a run in which a begin during shutdown succeeds and its adapter is closed over it |
| `StorageLateBegins.FreshPoolClosesOver` | `memori-ts/src/storage/manager.ts:358-371` | and from a fresh pool there is such a run |
| `StorageSettling.ShutdownNeverSticks` | `memori-ts/src/storage/manager.ts:339-373` | a manager that is shutting down is finished, or some adapter call is due to return or some waiter can go on |
| `StorageSettling.CompletionUsesWork` | `memori-ts/src/storage/manager.ts:186-373` | each completion - an adapter call returning or a waiter going on - uses up part of a finite amount of work |
| `StorageSettling.CompletionsRunOut` | `memori-ts/src/storage/manager.ts:186-373` | so the completions of any schedule are bounded in number by the work of the state they start from |
| `StorageSettling.ShutdownRefusesWaiters` | `memori-ts/src/storage/manager.ts:203-210` | an acquire queued when shutdown started still waits or was answered SHUTTING_DOWN, in every run |
| `StorageSettling.ShutdownAdmitsNoSerialConnection` | `memori-ts/src/storage/manager.ts:203-210` | no new serial connection enters the table once shutdown has started |
| `StorageSettling.ShutdownUnwindsTheQueue` | `memori-ts/src/storage/manager.ts:339-373` | once completions have run out the table is empty, nothing is suspended, and every acquire queued at shutdown was answered SHUTTING_DOWN |
| `StorageExclusion.SerialTransactionsExclude` | `memori-ts/src/storage/manager.ts:196-332` | in a live serial manager at most one connection is inside a transaction, from the return of its begin to the return of its commit, its rollback or the rollback of its close request, over all runs whose begins find the lock still held and no transaction open |
| `StorageExclusion.FailedBeginGivesUpTheLock` | `memori-ts/src/storage/manager.ts:255-268` | a failed begin leaves its connection in the table without the lock |
| `StorageExclusion.RetriedBeginOverlaps` | `memori-ts/src/storage/manager.ts:255-268` | beginning again on such a connection overlaps with whichever transaction is open by then |
| `StorageFreshness.FreshExactly` | `memori-ts/src/storage/manager.ts:196-268` | for every state that fresh begins lead to and every begin on a connection in the table: the begin finds the lock held and no transaction open if and only if no run with fresh begins after it ever has two connections inside transactions, whatever else is in flight |
| `StorageFreshness.FirstUnfreshBeginEndangers` | `memori-ts/src/storage/manager.ts:196-268` | the same over the runs of a fresh manager: the first begin that is not fresh can always be followed by an overlap |
| `StorageFreshness.AstrayOverlaps` | `memori-ts/src/storage/manager.ts:196-332` | from any live state in which a connection inside a transaction has lost the lock, some run leads to a second transaction: the holder begins or closes, the next waiter goes on, or a new acquire does |
| `StorageOverlaps.RetryWithoutTheLockOverlaps` | `memori-ts/src/storage/manager.ts:255-268` | the first duty is needed: a run from a fresh manager, with no begin nested, in which a begin sent again without the lock opens a second transaction |
| `StorageOverlaps.NestedBeginOverlaps` | `memori-ts/src/storage/manager.ts:255-268` | the second is too: a run in which every begin finds the lock held, but a nested one fails and gives up the lock of the transaction around it |
| `StorageCleanups.LockIsFreeOrHeld` | `memori-ts/src/storage/manager.ts:196-212` | a waiting acquire can go on exactly if no connection holds the lock |
| `StorageCleanups.CloseKeepsOthersOut` | `memori-ts/src/storage/manager.ts:311-329` | from the start of a close request's cleanup to its answer, whatever runs in between, no other acquire can go on |
| `StorageCleanups.OverlapsIffSwept` | `memori-ts/src/storage/manager.ts:158-173` | when the holder of the lock leaves the table while somebody waits, the next waiter can go on before the holder's rollback and close are over if and only if a sweep took it |
| `StorageCleanups.SweptTransactionOverlaps` | `memori-ts/src/storage/manager.ts:158-173` | a run from a fresh manager, all begins fresh, in which a second connection is inside a transaction while a sweep still rolls the first one back |
| `StorageLeaks.FailedRollbackEndsIt` | `memori-ts/src/storage/manager.ts:311-329` | a close request whose rollback fails is acknowledged, and unless shutdown is visiting the connection at that moment no later step of any run reaches its adapter again |
| `StorageLeaks.VisitStillCloses` | `memori-ts/src/storage/manager.ts:357-369` | a shutdown that awaits its own rollback of that connection still closes the adapter afterwards |
| `StorageLeaks.OpenAdapterIsLeaked` | `memori-ts/src/storage/manager.ts:311-329` | a run from a fresh manager that ends with an acknowledged close and an adapter that was never closed |
| `StorageManagerObject.StorageManager.constructor` | `memori-ts/src/storage/manager.ts:72-94` | a fresh manager is the protocol's initial state |
| `StorageManagerObject.StorageManager.Evict` | `memori-ts/src/storage/manager.ts:158-173` | a stale entry leaves the table, its lock is released, and its cleanup starts with a rollback if it was in a transaction |
| `StorageManagerObject.StorageManager.SweepOrphanedConnections` | `memori-ts/src/storage/manager.ts:150-175` | the sweep, entry by entry, is the protocol's sweep, also if an adapter throws on the spot |
| `StorageManagerObject.StorageManager.Acquire` | `memori-ts/src/storage/manager.ts:191-222` | an acquire up to its first suspension is the protocol's step |
| `StorageManagerObject.StorageManager.Close` | `memori-ts/src/storage/manager.ts:311-332` | a close up to its first suspension is the protocol's step |
| `StorageManagerObject.StorageManager.StartShutdown` | `memori-ts/src/storage/manager.ts:339-355` | shutdown up to the drain is the protocol's step |
| `StorageManagerObject.StorageManager.Perform` | `memori-ts/src/storage/manager.ts:68-373` | every stretch of code between two suspension points takes exactly the protocol's step, so the theorems above are about sequences of these calls |
| `RuntimeSafety.StepKeepsInv` | `core/src/runtime/worker.rs:160-336` | every step of any number of submitters, one dispatcher, tasks, flushers and shutdown callers keeps order, partition, counter, permits and stage consistent |
| `RuntimeSafety.StepKeepsCounter` | `core/src/runtime/worker.rs:19-30` | the counter stays equal, modulo 2^64, to live jobs less the submitters between their send and their count |
| `RuntimeSafety.StepKeepsPermits` | `core/src/runtime/worker.rs:315-328` | free and held permits always add up to the concurrency limit |
| `RuntimeTheorems.Reachable` | `core/src/runtime/worker.rs:88-337` | the invariant holds after any run of a configured runtime |
| `RuntimeTheorems.UnfinishedIsBounded` | `core/src/runtime/worker.rs:315-329` | accepted jobs with unfinished handlers never exceed queue capacity + 1 + concurrency limit |
| `RuntimeTheorems.ZeroMeansBalanced` | `core/src/runtime/worker.rs:171-175` | the counter reads zero exactly when the live jobs are as many as the submitters that have yet to count theirs |
| `RuntimeTheorems.FlushWaitsForAll` | `core/src/runtime/worker.rs:182-221` | with no submitter in that window, a flush that returns has seen every accepted job through |
| `RuntimeTheorems.FlushIsHonestExactly` | `core/src/runtime/worker.rs:182-221` | when flush answers, every accepted job is through if and only if no submitter is in that window |
| `RuntimeTheorems.FlushCanReturnEarly` | `core/src/runtime/worker.rs:171-221` | the window matters: for any two jobs there is a run in which flush returns while the second is still in the queue |
| `RuntimeTheorems.NothingAcceptedAfterClose` | `core/src/runtime/worker.rs:160-180` | after the lifecycle has moved to shutting down, no run accepts another job |
| `RuntimeTheorems.QueueIsDrained` | `core/src/runtime/worker.rs:315-329` | when the dispatcher has left, every job ever accepted was handed to a task, each once and in order |
| `RuntimeTheorems.ShutdownDrains` | `core/src/runtime/worker.rs:225-289` | if no submitter is in the window when the queue is closed, then whenever a shutdown caller has returned every accepted job has finished |
| `RuntimeTheorems.DrainIsHonestExactly` | `core/src/runtime/worker.rs:329-336` | when the dispatcher leaves, every accepted job is through if and only if no submitter is in the window |
| `RuntimeTheorems.ShutdownCanReturnEarly` | `core/src/runtime/worker.rs:225-289` | a run from the initial state in which a shutdown caller returns while the handler of an accepted job is still running |
| `RuntimeTheorems.OneCallerTearsDown` | `core/src/runtime/worker.rs:225-253` | of any number of shutdown callers one tears down, none returns before the stage is done, and a waiting one has a teardown to wait for |
| `RuntimeAdmission.SubmitsAreAnswered` | `core/src/runtime/worker.rs:160-180` | over all runs a submit is taken exactly if the runtime was started, no shutdown has closed the queue and the queue has room, and it finds the queue full exactly if capacity many jobs are in it |
| `RuntimeAdmission.AnswersHaveReasons` | `core/src/runtime/worker.rs:160-180` | in every reachable state each refusal has exactly its own lifecycle, or a full queue, as its reason |
| `RuntimeAdmission.BurstIsAccepted` | `core/src/runtime/worker.rs:160-180` | from any reachable running state every job of a burst that fits is accepted, in order, and the one after a burst that fills the queue is refused |
| `RuntimeAdmission.CapacityIsUsable` | `core/src/runtime/worker.rs:160-180` | a freshly started runtime accepts as many jobs in a row as its capacity says and no more |
| `RuntimeProgress.RestMeansDone` | `core/src/runtime/worker.rs:192-337` | nothing gets stuck: where no step of submitters, dispatcher, tasks or shutdown callers is left, all accepted jobs are finished, a flush answers and all callers have returned |
| `RuntimeProgress.CompletionUsesWork` | `core/src/runtime/worker.rs:192-337` | each such step uses up some of a measure of what is left to do |
| `RuntimeProgress.EverythingGetsDone` | `core/src/runtime/worker.rs:192-337` | from any reachable state, once nobody submits, at most that many steps follow in any order, and then all of it is done |
| `WorkerRuntimeObject.WorkerRuntime.TrySubmit` | `core/src/runtime/worker.rs:160-180` | the section under the sender's lock accepts or refuses as the protocol says, and changes nothing when it refuses |
| `WorkerRuntimeObject.WorkerRuntime.DispatcherTurn` | `core/src/runtime/worker.rs:309-337` | the dispatcher moves exactly when one of its steps is enabled, and takes that step |
| `WorkerRuntimeObject.WorkerRuntime.LookAtStage` | `core/src/runtime/worker.rs:225-253` | a shutdown caller's look at the stage is the protocol's entry or wake-up |
| `WorkerRuntimeObject.WorkerRuntime.LookForFlush` | `core/src/runtime/worker.rs:192-220` | a look that answers success means that live jobs and uncounted submitters balance, and that all jobs are through exactly if nobody is uncounted; a timeout means that they do not balance; not-running means that it has not been started |
| `WriteBatch.SuccessIsExactlyOnce` | `core/src/storage/manager.rs:676-718` | an acknowledged batch was applied once, to the store the committing attempt saw, and every earlier attempt ended in a serialization failure |
| `WriteConnection.Connection.ExecuteOp` | `core/src/storage/manager.rs:383-600` | one operation, statement by statement on an open transaction: only the transaction's own log grows, the database is as it was, and every identifier in a statement is the driver's answer to an earlier one of the operation |
| `WriteConnection.Connection.ExecuteBatchOps` | `core/src/storage/manager.rs:376-600` | the loop runs the operations in order on the open transaction, stops at the first error and counts those that were not skipped |
| `WriteBatch.RustStorageManager.OnConnection` | `core/src/storage/manager.rs:676-703` | begin, operations, commit or rollback, close, each able to fail: on success the transaction's statements reach the database, on failure none does, although a close over an open transaction might publish them; the connection is closed once, last, and never over a transaction nobody tried to end |
| `WriteBatch.FailureLeavesNothing` | `core/src/storage/manager.rs:676-718` | over all attempts of a failed write the store gains nothing but what others put there |
| `WriteBatch.RetriesAreExhausted` | `core/src/storage/manager.rs:706-715` | where connections can be had, SQLSTATE 40001 reaches the caller only after all six attempts |
| `WriteBatch.WriteIsBounded` | `core/src/storage/manager.rs:673-718` | acquired and closed connections balance, at most six attempts run, and the waits stay within the bound |
| `WriteBatch.TotalWait` | `core/src/storage/manager.rs:705-710` | the bound is 2325 milliseconds |
| `WriteBatch.WriteBatchTheorem` | `core/src/storage/manager.rs:665-722` | the three together, for every pattern of acquire, begin, operation and commit failures |
| `WriteBatch.RetriesBackOff` | `core/src/storage/manager.rs:699-712` | the waits before the n-th attempt add up to at least 50 ms for each of 1, 2, 4, ... |
| `WriteBatch.CommittedIdsAreAnswered` | `core/src/storage/manager.rs:376-600` | what a successful write adds to the store carries, operation by operation, the identifiers its own connection was given |
| `WriteBatch.RustStorageManager.WriteBatch` | `core/src/storage/manager.rs:665-722` | the attempt loop, whose connections act on a real store, has the result, store, connection counts and waits that the three theorems speak of, gives every connection back properly, and never falls out of its end |
| `OperationCalls.MessagesAreStoredInOrder` | `core/src/storage/manager.rs:407-412` | every message is stored, in order, with its role, type and content or their defaults |
| `OperationCalls.CountedMeansCarriedOut` | `core/src/storage/manager.rs:376-600` | an operation that is counted has sent its own content last, one that is skipped has sent none, and neither undoes what was sent before |
| `OperationCalls.AcknowledgedMeansCarriedOut` | `core/src/storage/manager.rs:376-600` | the number acknowledged for a batch is the number of operations carried out, in the batch's order |
| `OperationIds.EveryIdIsAnswered` | `core/src/storage/manager.rs:383-600` | however an operation ends, the entity, process, session and conversation in each of its statements are the driver's answers to its own earlier statements, and those name what the payload names |
| `OperationIds.BatchRefers` | `core/src/storage/manager.rs:376-600` | in a whole batch the log falls into one part for each operation, and no part refers to what another has made |
| `OperationCalls.OperationsEndForAReason` | `core/src/storage/manager.rs:383-600` | skipped only with nothing to do or no conversation to be found; counted only with something to do; failed only for a statement the driver refused or left without an identifier, missing embeddings or an unknown type |
| `OperationCalls.ListIsKeptInOrder` | `core/src/storage/manager.rs:353-362` | listed attributes are kept in order, without blank ones and what is no scalar |
| `OperationCalls.SkippedLeavesItsOwner` | `core/src/storage/manager.rs:495-543` | a skipped operation has created something if and only if it names an owner and has nothing to store for it; then it has created that owner and nothing else |
| `OperationCalls.SkippedCanStillCreate` | `core/src/storage/manager.rs:495-507` | such an operation: a graph without triples |
| `FactPairing.PrecomputedOpIsComplete` | `core/src/storage/manager.rs:276-350` | the pass before the transaction loses no fact and always leaves embeddings behind, so the missing-embeddings error cannot occur |
| `FactPairing.DeliveredRowsArePaired` | `core/src/storage/manager.rs:414-474` | the driver gets no rows or one for each kept fact, row i being the caller's or the embedder's for fact i; and exactly when it gets none |
| `FactPairing.KeptInOrder` | `core/src/storage/manager.rs:419-433` | the facts that are kept are the strings that are not blank, in order, each with its own neighbour |
| `FactPairing.UpsertDelivers` | `core/src/storage/manager.rs:333-345` | a counted upsert has handed over the caller's row or else the embedder's vector of its content |
| `FactPairing.BatchFactCalls` | `core/src/storage/manager.rs:276-600` | in a whole batch every fact statement carries the facts and rows of one of the operations as the caller wrote them |
| `WriteBatch.CommittedFactsArePaired` | `core/src/storage/manager.rs:665-722` | and so does every fact statement that a successful write adds to the store |
| `Json.RowRoundTrip` | `core/src/storage/manager.rs:451-462` | writing a row of numbers as JSON and reading it back loses nothing |
| `Json.NumbersAreKeptApart` | `core/src/storage/manager.rs:364-374` | an identifier given as a number is the decimal that reads back as it, so different numbers name different things |
| `Migrations.Reach` | `core/src/storage/builder.rs:40-46` | the end of the contiguous revisions above a version; the next number has none |
| `Migrations.RunReachesTheGap` | `core/src/storage/builder.rs:40-46` | every number up to there has a revision, and all it creates is pending |
| `Migrations.PendingComesFrom` | `core/src/storage/builder.rs:40-64` | nothing else is |
| `Migrations.ReadSchemaVersion` | `core/src/storage/builder.rs:82-111` | a missing table or row reads as version 0, any other failure is passed on, and nothing is changed |
| `Migrations.Migrate` | `core/src/storage/builder.rs:50-63` | one migration creates all of its statements or, at worst, some of them; the version stays |
| `Migrations.Run` | `core/src/storage/builder.rs:27-80` | a run that succeeds has executed the pending revisions' statements in order and records the end of the revisions; one that fails has executed a beginning of them, created part and left the version; one without failures succeeds |
| `Migrations.RunsConverge` | `core/src/storage/builder.rs:22-80` | any number of failed runs and then a successful one end in the schema and version of one uninterrupted run |
| `Migrations.VersionNeverFalls` | `core/src/storage/builder.rs:66-76` | no run lowers the version and a failed one never changes it |
| `Migrations.WhenRunsCanSucceed` | `core/src/storage/builder.rs:27-80` | a run can succeed if and only if the version's table exists, is created by a pending revision, or nothing has to be recorded |
| `Migrations.FirstRevisionBootstraps` | `core/src/storage/migrations/postgresql.rs:10` | in each of the four dialects, whose statements for the table differ, a first revision that starts with that statement is enough |
| `Migrations.NewerDatabaseIsLeftAlone` | `core/src/storage/builder.rs:35-46` | a database at or above the last revision is left alone exactly if its next number, truncated to 32 bits, is no revision's; always so for a 32-bit version |
| `Migrations.WideVersionIsBuiltAgain` | `core/src/storage/builder.rs:43` | at version 2^32 the first revision is built again |
| `Chunking.WindowsPartition` | `core/src/embeddings/chunking.rs:40` | the token windows partition the tokens in order, and a long text has at least two |
| `Chunking.ChunkTextByTokens` | `core/src/embeddings/chunking.rs:10-59` | the loop yields the decoded windows, and splits only if two of them say something |
| `Chunking.LongTextsAreSplit` | `core/src/embeddings/chunking.rs:34-58` | if every window decodes to something, a text with more tokens than a window is split, and no window is lost |
| `Chunking.OtherTextsStayWhole` | `core/src/embeddings/chunking.rs:10-59` | a text is left whole exactly if it fits a window, cannot be encoded or leaves at most one piece that decodes |
| `Pooling.MeanPoolL2` | `core/src/embeddings/api.rs:31-54` | the loops in place compute the normalised mean of the rows: the sum of the rows at a positive scale, of length one unless that sum is zero |
| `Pooling.SumGrows` | `core/src/embeddings/api.rs:36-40` | one row adds up to itself, and each further row is added entry by entry |
| `Pooling.PoolingTakesSides` | `core/src/embeddings/api.rs:31-54` | the pooled vector is on that side of any query on which the rows, their products with it added up, are |
| `Pooling.PoolingCopies` | `core/src/embeddings/api.rs:31-54` | pooling any number of copies of a vector gives cosine one with it |
| `Pooling.PooledIsUnitOrZero` | `core/src/embeddings/api.rs:47-52` | the pooled vector has length one, or is zero exactly if the rows cancel out |
| `Pooling.PoolingKeepsDirection` | `core/src/embeddings/api.rs:30-54` | a pooled vector compares with any query as the plain sum of its rows does |
| `EmbeddingLayout.BuildFlatAndMetas` | `core/src/embeddings/api.rs:56-75` | the ranges follow one another over the flat list without gap or overlap, and each names its text's chunks |
| `EmbeddingLayout.EveryRowHasOneOwner` | `core/src/embeddings/api.rs:56-75` | every flat row belongs to exactly one text |
| `EmbeddingLayout.PoolBatchResults` | `core/src/embeddings/api.rs:81-90` | pooling the raw rows by their ranges gives the vector of each text |
| `EmbeddingLayout.RunBatch` | `core/src/embeddings/api.rs:93-102` | the fused batch, if it works, gives one vector for a short text and the pooled chunk vectors for a long one |
| `EmbeddingLayout.FallbackSequential` | `core/src/embeddings/api.rs:106-129` | document by document gives the same, and fails exactly if some document's call does |
| `EmbeddingLayout.FallbackOneByOne` | `core/src/embeddings/api.rs:133-152` | chunk by chunk gives the same |
| `EmbeddingLayout.EmbedOneByOne` | `core/src/embeddings/models.rs:127-144` | the check that all vectors have one length never fails on a non-empty list |
| `EmbeddingLayout.EmbedTexts` | `core/src/embeddings/api.rs:159-212` | the buffer has rows times columns entries, one row for each visible text; it holds their vectors in order, and zeros exactly if all three ways failed |
| `EmbeddingLayout.VectorsFollowTheirTexts` | `core/src/embeddings/api.rs:23-54` | a text that fits has the model's own vector, and one that does not a unit vector on the side of its chunks |
| `EmbeddingLayout.NothingWorksMeans` | `core/src/embeddings/api.rs:159-212` | when all three ways have failed: the batch, some document alone, and the one-by-one pass |
| `FactEmbeddings.ReshapeUndoesConcat` | `core/src/augmentation/pipeline.rs:249-258` | reshaping undoes flattening, unless rows are empty or their number does not fit a machine word |
| `FactEmbeddings.RankFinds` | `core/src/augmentation/pipeline.rs:200-209` | the k-th visible fact is the k-th text embedded |
| `FactEmbeddings.Scatter` | `core/src/augmentation/pipeline.rs:227-230` | writing the vectors to the remembered positions aligns them with the facts |
| `FactEmbeddings.AttachEntityFactEmbeddings` | `core/src/augmentation/pipeline.rs:168-235` | each operation is left alone or gets its aligned rows, whatever the embedder answers |
| `FactEmbeddings.FactsGetTheirOwnRows` | `core/src/augmentation/pipeline.rs:168-247` | with the embedding pipeline, position i holds the vector of fact i or nothing; rows are attached exactly if every vector is non-zero |
| `FactEmbeddings.AnswerListsVisibleTexts` | `core/src/embeddings/api.rs:159-212` | reshaped, the pipeline's answer lists the vectors of the visible texts in order |
| `FactEmbeddings.AttachedRowsReachTheDriver` | `core/src/storage/manager.rs:276-474` | rows that were attached pass both passes of the storage manager and arrive beside their own facts |
| `Augmentation.ExtractFacts` | `core/src/augmentation/pipeline.rs:260-299` | facts are never extracted as an empty list |
| `Augmentation.CollectTexts` | `core/src/augmentation/pipeline.rs:265-274` | the loop keeps what can be read, in order |
| `Augmentation.FactsComeFirst` | `core/src/augmentation/pipeline.rs:100-166` | new facts are the first operation of a batch and of no other |
| `BatchContents.TripleIsRead` | `core/src/augmentation/pipeline.rs:283-310` | a triple reads as subject, predicate and object in this order, names written either way, and its own content comes before that |
| `BatchContents.TriplesStandIn` | `core/src/augmentation/pipeline.rs:283-310` | where no facts are listed, they are the sentences of the triples, taken from the shorter name first |
| `BatchContents.BatchFollowsTheResponse` | `core/src/augmentation/pipeline.rs:100-166` | each operation carries its own part of the response for the right owner, at most one of each kind and in a fixed order; it is there exactly if the part is, and the input's content is stored exactly if nothing else is |
| `BatchContents.ListedFactsAreTaken` | `core/src/augmentation/pipeline.rs:260-281` | the facts of a response that lists any are those it lists, written as strings or objects |
| `Augmentation.ResponseFactsReachTheDriver` | `core/src/augmentation/pipeline.rs:100-235` | from response to driver: the facts that are not blank arrive, each with the vector of its own text or with none |
| `Vectors.CauchySchwarz` | `core/src/search/similarity.rs:14-22` | the square of the accumulated product is at most the product of the accumulated squares |
| `Similarity.CosineSimilarity` | `core/src/search/similarity.rs:9-29` | the loop computes the cosine, which lies between -1 and 1 |
| `Similarity.CosineIsSymmetric` | `core/src/search/similarity.rs:9-29` | it is symmetric |
| `Similarity.CosineIgnoresLength` | `core/src/search/similarity.rs:9-29` | it does not change when a vector is scaled by a positive number |
| `Similarity.CosineOfItself` | `core/src/search/similarity.rs:9-29` | a non-zero vector has cosine 1 with itself |
| `Similarity.CosineMeans` | `core/src/search/similarity.rs:9-33` | the cosine times both lengths is the product, and it is zero for a zero vector or different lengths |
| `Tokens.TokenizersAgree` | `memori/search/_lexical.py:69-71` | splitting at separators and matching runs of letters and digits find the same words in lower-cased text |
| `Tokens.TokensAreTheWords` | `core/src/search/lexical.rs:40-49` | of words set apart by a separator, both tokenizers find all but the stop words, in order and as often as they occur |
| `Bm25.ScoresAreNormalized` | `core/src/search/lexical.rs:55-137` | scores lie between 0 and 1, and a document scores above 0 exactly if it has a query term |
| `Bm25.BestScoreIsOne` | `core/src/search/lexical.rs:102-137` | some document scores exactly 1 if and only if some document has a query term; otherwise all score 0 |
| `RankingLaws.RarerWeighsMore` | `core/src/search/lexical.rs:87-90` | the rarer of two terms weighs strictly more |
| `RankingLaws.ReasonsToWeighMore` | `core/src/search/lexical.rs:92-122` | a term weighs strictly more for occurring more often, in a shorter document, or in fewer documents |
| `RankingLaws.BetterScoresHigher` | `core/src/search/lexical.rs:92-135` | a document with every query term as often and no more words scores at least as high |
| `Lexical.LexicalScores` | `core/src/search/lexical.rs:55-137` | the Rust scorer, its terms taken in any order, computes these scores, for repeated identifiers too |
| `Lexical.LexicalScoresForIds` | `memori/search/_lexical.py:74-124` | the Python scorer computes these scores for its own count of the pool, in which a repeated identifier counts again but its words do not |
| `Lexical.TwinsCountAlike` | `memori/search/_lexical.py:84-96` | for distinct identifiers that count is the Rust one |
| `Lexical.CorpusIgnoresOrder` | `core/src/search/lexical.rs:60-75` | with distinct identifiers the order of the candidates is forgotten before anything is scored |
| `Lexical.DenseLexicalWeights` | `core/src/search/lexical.rs:143-151` | the weights add up to 1, the lexical one being between 0.05 and 0.40 |
| `Lexical.BlendIsBounded` | `core/src/search/api.rs:25-41` | a blended score stays between -1 and 1 |
| `Lexical.BlendIsMonotone` | `core/src/search/api.rs:25-41` | and never falls when either part rises |
| `RankingLaws.SharesAreUsed` | `core/src/search/lexical.rs:143-151` | words alone count the configured share for the query's length, forced into its range, and similarity alone the rest |
| `RankingLaws.SimilarityOutweighsWords` | `core/src/search/api.rs:28-47` | a lead in similarity of more than two thirds cannot be made up for by words, under any configuration |
| `TopK.SelectTop` | `core/src/search/api.rs:55-62` | any selection and any sort with the documented guarantees keep the best: descending, nothing dropped outranks anything kept, and the scores are those of a full sort |
| `TopK.BestScoresAreUnique` | `core/src/search/similarity.rs:52-58` | whatever is kept among equals, the scores are the first ones of the full ranking |
| `Search.FindSimilarEmbeddings` | `core/src/search/similarity.rs:35-59` | the first stage keeps the best of all cosine scores |
| `Search.SearchFacts` | `core/src/search/api.rs:11-63` | the second stage keeps the best of all blended scores, or of the similarities without a query |
| `Search.RankScoresAreBounded` | `core/src/search/api.rs:20-41` | every rank score lies between -1 and 1 if the similarities do |
| `RankingLaws.HigherRanks` | `core/src/search/api.rs:11-60` | a fact more than two thirds more similar ranks higher whatever its words, and of equally similar ones that with all query terms as often in no more words |
| `RankingLaws.ExactMatchComesFirst` | `core/src/search/similarity.rs:35-60` | an embedding with the direction of the query comes first, with score one |
| `Search.RankingIgnoresCandidateOrder` | `core/src/search/api.rs:20-62` | for distinct identifiers the rank scores do not depend on the order of the candidates |
| `Retrieval.AcceptedRows` | `core/src/retrieval/pipeline.rs:127-160` | which stored rows are accepted, that their embedding is the stored one before the encoded one, and which error the others give |
| `Retrieval.ReadRows` | `core/src/retrieval/pipeline.rs:36-40` | all rows are read, or the error is that of the first row that cannot be |
| `Retrieval.ValidateEmbeddingDimensions` | `core/src/retrieval/pipeline.rs:108-125` | validation passes exactly if every embedding is as long as the query |
| `Retrieval.KeepsAllRows` | `core/src/retrieval/pipeline.rs:162-167` | all rows are kept for the second stage exactly if there are at most fifty or ten times the limit |
| `Retrieval.PoolSize` | `core/src/retrieval/pipeline.rs:162-167` | exactly how many rows are kept, for every limit and number of rows |
| `Retrieval.FactMapFindsLast` | `core/src/retrieval/pipeline.rs:52-80` | an identifier stands for the last of the fact rows that have it |
| `Retrieval.RunRetrieval` | `core/src/retrieval/pipeline.rs:10-92` | which requests are refused and which are empty, where each error comes from, and that a result is that of the two stages over validated rows |
| `Retrieval.TwoStagesAreExact` | `core/src/retrieval/pipeline.rs:45-91` | with distinct identifiers and few enough rows, the result has the rank scores of ranking every row that has a fact |
| `PythonSearch.FetchContentMaps` | `memori/search/_core.py:93-113` | rows without identifier are passed over, later ones win, and content counts only if it is a string |
| `PythonSearch.RankCandidates` | `memori/search/_core.py:116-150` | identifiers, repeated or not, come by descending rank score, then similarity, then as they were before; without query text as they were |
| `PythonSearch.BuildFactRows` | `memori/search/_core.py:153-182` | one row for each identifier with content, in order |
| `PythonSearch.BuiltRows` | `memori/search/_core.py:153-182` | each row says what is known of its fact, no fact with content is missing, and the order is that of the identifiers |
| `PythonSearch.SearchEntityFactsCore` | `memori/search/_core.py:224-255` | from the dense results on: the rows with content among the first few of the ranked identifiers |
| `PythonSearch.TwinsAgree` | `memori/search/_core.py:185-255` | for a query with text, distinct identifiers and content for all, Python and Rust return the same rank scores |
| `PythonSlice.SliceComesFirst` | `memori/search/_core.py:247-255` | the slice is taken before candidates without content are dropped; exactly when that makes the answer shorter than it could be |
| `PythonSlice.ShortWithoutText` | `memori/search/_core.py:145-255` | without a query text, read off the dense results and the stored content alone |
| `PythonSlice.WorstNeverRises` | `memori/search/_core.py:137-150` | a stable sort never moves a candidate to the front of those that come before it and are no worse |
| `PythonSlice.TextNeverShortens` | `memori/search/_core.py:116-255` | with a query text, for dense results in descending order, the answer is at least as long as the dense order alone would make it: a candidate without content gains nothing from the words |
| `PythonSlice.SomeTextFallsShort` | `memori/search/_core.py:116-255` | some text makes the answer shorter than it could be if and only if the dense order does, read off the dense results and the stored content |
| `PythonSlice.FactIsMissed` | `memori/search/_core.py:116-255` | two candidates, a limit of one and a text for which nothing is found although one of them has content |
| `HistoryInjection.SanitizeHistory` | `memori/llm/pipelines/conversation_injection.py:22-53` | the loop drops tool messages and blank assistant messages and renames the old role |
| `HistoryRecovery.InjectionIsAPrefix` | `memori/llm/pipelines/conversation_injection.py:91-153` | on every branch one list changes: behind as many entries as were counted it is the caller's own |
| `HistoryPrefix.HistoryArrives` | `memori/llm/pipelines/conversation_injection.py:22-153` | on every branch exactly the messages this provider is not shown are missing from the prefix, and the others come in order with their words and roles; Gemini is shown all, an assistant as the model |
| `HistoryReading.PlainRequestIsRead` | `memori/llm/_base.py:234-241` | every provider's adapter reads a request that says something plainly word for word, and so stores it |
| `HistoryReading.ProtoRolesAreRead` | `memori/llm/adapters/xai/_adapter.py:19-56` | which roles are read from a protobuf message, and as which |
| `HistoryReading.InstructionsAreCleaned` | `memori/llm/adapters/openai/_adapter.py:37-50` | instructions are kept up to the first mark of recalled facts, stripped, and as they are without one |
| `HistoryRecovery.InjectionFails` | `memori/llm/pipelines/conversation_injection.py:91-153` | injection fails exactly without a list to put the history in front of - left out or null - or for an unknown provider |
| `HistoryInjection.InjectMessagesByProvider` | `memori/llm/pipelines/conversation_injection.py:91-153` | the arguments are changed in place to just that, a failure changes nothing, and what stands in front are the messages of the history that are not withheld, in order, words kept and roles renamed only between the two names of the assistant's |
| `HistoryInjection.Invoke.InjectCloudMessages` | `memori/llm/pipelines/conversation_injection.py:157-172` | an empty history from the cloud resets the count |
| `HistoryInjection.Invoke.InjectStoredMessages` | `memori/llm/pipelines/conversation_injection.py:215-226` | an empty stored history leaves the count of the last call |
| `HistoryInjection.Invoke.Call` | `memori/llm/pipelines/conversation_injection.py:156-226` | one call: history in front, answer, and what is stored behind the cut |
| `HistoryRecovery.ChatIsRecovered` | `memori/llm/_base.py:234-241` | for chat requests the cut falls exactly between history and the caller's messages |
| `HistoryRecovery.InputIsShifted` | `memori/llm/adapters/openai/_adapter.py:37-74` | instructions are read as one message more than was counted, so the last injected message is stored again |
| `HistoryRecovery.InputIsRecovered` | `memori/llm/adapters/openai/_adapter.py:37-74` | the caller's messages are recovered exactly if nothing was injected or no instructions are left |
| `HistoryRecovery.GoogleIsShifted` | `memori/llm/adapters/google/_adapter.py:33-87` | a system instruction moves the cut one way, every empty text the other |
| `HistoryRecovery.GoogleIsRecovered` | `memori/llm/adapters/google/_adapter.py:33-87` | the caller's messages are recovered exactly if none of them is an empty string, and the two cancel or nothing said is cut off |
| `HistoryRecovery.OverlookedLosesMessages` | `memori/llm/adapters/openai/_adapter.py:37-74` | where the adapter does not read the list the history was put in front of, as many of the caller's own messages are cut off |
| `HistoryRecovery.TurnIsExact` | `memori/llm/_base.py:234-241` | for every provider and every shape of request, what is stored is the caller's own if and only if a condition on the request and the history holds |
| `HistoryRecovery.StaleCountLosesMessages` | `memori/llm/pipelines/conversation_injection.py:215-219` | what a count left from an earlier call cuts off, and that the rest is right exactly if nothing said was cut off |
| `HistoryInjection.NewSessionLosesMessages` | `memori/llm/pipelines/conversation_injection.py:215-219` | the first call of a new session keeps the count of the last one, and stores the caller's messages exactly if nothing said is cut off |
| `HistoryInjection.FirstQuestionIsLost` | `memori/llm/pipelines/conversation_injection.py:215-219` | after a call with two recalled messages, the next session's question is not stored |
| `HistoryInjection.FaithfulTurn` | `memori/llm/_base.py:234-241` | a call on any request, with or without history, stores exactly its own messages if and only if the turn is faithful |
| `HistoryInjection.SessionIsRightExactly` | `memori/memory/_manager.py:26-34` | over any number of turns of any shape, every call succeeds and adds just what it should to the transcript if and only if each turn is faithful when its time comes |
| `HistoryInjection.PlainSessionsAreFaithful` | `memori/memory/_manager.py:26-34` | chat requests, inputs without instructions, and contents with text and no system instruction are always faithful, in any number and mixture |
| `HistoryInjection.RunSession` | `memori/memory/_manager.py:26-34` | the calls of a session, made on the wrapper and the conversation, leave the transcript and count that the functions say; if all turns are faithful it is each turn's own messages and reply, and recalled history is never stored again |
| `JsonConversion.StepsAgree` | `memori/llm/helpers/serialization.py:17-53` | one step in the JSON is one step in the object graph |
| `JsonConversion.RouteConverts` | `memori/llm/helpers/serialization.py:17-53` | the JSON at a route is the conversion of the object there, with the route's objects as those seen |
| `JsonConversion.EveryRouteIsRight` | `memori/llm/helpers/serialization.py:17-53` | an object is written out in full at each of its routes, an edge back to an object on the route is null, and nothing else is written; the conversion ends on every graph |
| `JsonConversion.PlainDataIsStripped` | `memori/llm/helpers/serialization.py:29-36` | string-keyed lists and dictionaries come back as they were with exactly the underscore keys gone |
| `JsonConversion.OnlyVisibleKeysRemain` | `memori/llm/helpers/serialization.py:31-36` | which keys those are |
| `JsonContents.EntriesAreWritten` | `memori/llm/helpers/serialization.py:31-36` | of a string-keyed dictionary exactly the entries without a leading underscore are written, each with its own value |
| `JsonContents.AttributesAreWritten` | `memori/llm/helpers/serialization.py:37-52` | of an object exactly the attributes without a leading underscore and with a value that is not callable are written, and an object without any becomes null |
| `JsonConversion.CountArrives` | `memori/llm/helpers/serialization.py:79-84` | the injected count arrives as it was sent, even if the arguments have a key of that name |
| `JsonContents.OtherArgumentsStay` | `memori/llm/helpers/serialization.py:79-84` | every other argument is stored as it was converted |

## Left out

- StorageExclusion.SerialTransactionsExclude: states one direction, over whole runs, and `StorageFreshness.FreshExactly` both, begin by begin; neither counts the rollback that a sweep starts as part of the transaction, because the lock is given up before it, and `StorageCleanups.OverlapsIffSwept` says when that shows.
- PythonSearch.TwinsAgree: speaks of distinct identifiers, as primary keys are; for repeated ones the two programs count the pool differently (`Lexical.PythonCorpus`, `Lexical.CorpusOf`).
- Retrieval.TwoStagesAreExact: says nothing of larger row counts, where the first stage may drop a row that the blended score would have kept.
- Storage manager: a second call of `close`, the engine callbacks, bind values, row normalisation and the error codes of failed adapter calls are not modelled; an entry is a value found again by its id, as the Rust side has one operation at a time on a connection.
- Storage manager: that adapter calls return and that promise continuations run is not claimed; settling is stated for schedules in which they do.
- Worker runtime: wake-ups of condition variables and notifications, handlers that panic, and tasks cut off by the 30-second teardown limit are not modelled; `start` does not overlap `shutdown`.
- Transactional writes: a commit whose outcome is unknown to the client, and the SQL behind each statement, are not modelled; a statement is an entry of the transaction's log, and a rollback that fails is taken to drop the transaction on the server.
- Migrations: the stored version is an unbounded integer, so overflow at the end of 64 bits is not modelled; what each statement creates is the statement itself, applied once.
- Embedding: the model, its tokenizer and lower-casing are functions of the text alone; rounding, infinities and not-a-number are not modelled.
- Similarity and ranking: scores are compared as reals, not by the total order of floats that also ranks not-a-number.
- Tokens: the binary search in the sorted list of stop words is membership in that list.
- Retrieval: the text formatting of recalled facts and the decoding of base64 are not modelled; decoding is a parameter.
- PythonSearch: that the dense results come in descending order and with distinct identifiers is required where it matters, since their search is another component; the path with candidates from the cloud, which uses positions as identifiers and maps them back, and the FAISS index are left out.
- History: a call with a null for its messages or contents is refused by the client if no history is in front of it, so its storing is not modelled; nor are Gemini requests given as one protobuf.
- History: the Bedrock adapter, structured message contents, the Agno variants and the injection of recalled facts (but for the mark that is cut from instructions) are left out; for xAI a message is its role and text.
- JsonConversion: Python's recursion limit and dictionaries that change while they are read are not modelled; a model's own dump is opaque.
- Payload building, hashing, network clients, configuration, environment variables and the Python writer are left out: they would add only one-branch facts.
