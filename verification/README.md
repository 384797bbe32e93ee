# Lumpik / Swiftkiq core, modelled in Dafny

This project models the sequential bookkeeping at the heart of the Lumpik
(Swiftkiq) background-job processor and proves properties of that model.
Each mutex-guarded block of the Swift source is treated as one atomic step.
Randomness, the store, clocks and handlers become inputs.

The model has six components:

- **Connection pool** (`connection_pool.dfy`). The bounded pool is an idle
  list, a creation counter and a semaphore permit count, plus a record of the
  connections borrowers hold. The model covers `borrow`, `checkin`, `with`
  and the `AnyConnectablePool` wrapper. The invariant
  `multiset(idle) + lent == Made(created)`, together with
  `permits == |idle| + (maxCapacity - created)`, is proved to hold across
  `borrow`, `with`, and every `checkin` of a connection the pool lent.
  Checking in any other connection breaks it. From the invariant,
  `borrow`'s `fatalError` branch is proved unreachable.
- **Fetcher** (`fetcher.dfy`). The swap-based queue shuffle is an in-place
  array loop over the random draws. It is proved to compute the same result
  as a reference definition and to return a permutation. `retriveWork` is
  modelled over one pooled connection. `bulkRequeue` builds one RPUSH per
  job and runs against an abstract list store.
- **Processor** (`processor.dfy`). The fetch-then-dispatch loop runs over a
  finite script of fetch and dispatch outcomes.
- **Manager** (`manager.dfy`). The supervisor's processor list and its
  monotonic `done` flag, with `start`, `quiet`, `stopped` and `died`.
- **Heart** (`heart.dfy`, `store_model.dfy`). The two heartbeat
  transactions are lists of store commands. They run against an abstract
  store of counters, hashes, sets and lists. The model covers the counter
  take-and-restore accounting and `clear`.
- **Client** (`client.dfy`). Payload construction for both `enqueue`
  overloads, including the rule that an existing `jid` is kept.

`wrappers.dfy` holds `Option`/`Result`. `jobs.dfy` holds the shared types:
queues, payloads, units of work, the error taxonomy, and the list store. In
the list store a push appends to one queue, and `Total` counts every
element.

Generated job identities are the subset type `Jobs.Jid`: strings with at
least six characters. This is an assumption. The bound is the one the
repository's identity test checks for `JobIdentityGenerator.makeIdentity()`
(Tests/LumpikTests/ProcessTests.swift:44-45). Both `enqueue` overloads call
`JobIdentityGenerator.identity()` instead, and that generator is not part of
this model.

Behaviour of the code that is easy to misread:

- **`run()` reports nothing.** `Processor.run()` catches both the shutdown
  signal and every other error, but it never calls the delegate's
  `stopped`/`died`. The model's `RunLoop` only records which `catch`
  clause ended the loop.
- **The shuffle is not Fisher–Yates.** Every iteration draws `j` from the
  whole range `0..<n`. The model proves that the result is a permutation,
  and nothing about its distribution.
- **The permit count is not the idle count.** The semaphore starts at
  `maxCapacity`, so permits equal idle connections plus the creations not
  yet made. The two are equal only once every connection has been created.
- **The respawn index can repeat.** `died` gives the replacement the index
  `processors.count` taken after the removal, so it can equal a live
  processor's index. The index only names the dispatch queue. A
  processor's identity is its object identity, which the model represents
  as a fresh allocation serial.
- **A respawned processor is never started.** `died` builds a replacement
  and appends it to the list, but `start()` is only called on processors
  in `Manager.start()`. After a death the list is back to full length, but
  one of the listed processors never runs its fetch loop. This is recorded
  under Findings, with a corrected respawn.

## Model

| member | source | states |
|---|---|---|
| ConnectionPool.NewPool | Sources/Lumpik/ConnectionPool.swift:40-43 | A new pool satisfies the accounting invariant: no connections, and `maxCapacity` free permits. |
| ConnectionPool.Borrow | Sources/Lumpik/ConnectionPool.swift:51-80 | A successful borrow takes the last connection of the idle list (LIFO), and that is the newly created one when the pool was below its ceiling. It takes one permit, records the connection as lent, and creates a connection only below `maxCapacity`. A failing `makeConnection` is the only way to get a store error. |
| ConnectionPool.GrowKeepsValid | Sources/Lumpik/ConnectionPool.swift:53-59 | The double-checked creation step keeps the invariant: one new connection goes on the idle list and the counter stays at or below `maxCapacity`. |
| ConnectionPool.PermitMeansIdle | Sources/Lumpik/ConnectionPool.swift:63-73 | After the creation step, a free permit implies a non-empty idle list. |
| ConnectionPool.BorrowKeepsValid | Sources/Lumpik/ConnectionPool.swift:51-80 | On a valid pool `borrow` never reaches `fatalError`, and a successful borrow leaves the pool valid. |
| ConnectionPool.BorrowTimesOutIffExhausted | Sources/Lumpik/ConnectionPool.swift:63-79 | `borrow` fails with `.timeout` if and only if all `maxCapacity` connections are out with borrowers. |
| ConnectionPool.CreationBounded | Sources/Lumpik/ConnectionPool.swift:53-59 | After a borrow the creation counter is at most `maxCapacity`, and it does not move once the ceiling is reached. |
| ConnectionPool.Checkin | Sources/Lumpik/ConnectionPool.swift:82-88 | Under the source's precondition (idle count below `maxCapacity`), the connection is appended at the end and exactly one permit is released. Checking in a lent connection keeps the pool valid. |
| ConnectionPool.ForeignCheckinBreaksValid | Sources/Lumpik/ConnectionPool.swift:82-88 | `checkin` guards only the idle count. Checking a connection no borrower holds into a valid pool with room leaves the pool invalid: it then holds more connections than it created. |
| ConnectionPool.CheckinAllowed | Sources/Lumpik/ConnectionPool.swift:82-85 | On a valid pool, checking in a connection a borrower holds always meets `checkin`'s precondition. |
| ConnectionPool.With | Sources/Lumpik/ConnectionPool.swift:91-104 | The borrowed connection is checked back in whether the handler succeeds or fails. Permits and lent connections afterwards equal those before. The handler's value or error passes through. A refused borrow returns its error and leaves the pool unchanged. |
| ConnectionPool.AnyBorrow | Sources/Lumpik/ConnectionPool.swift:107-118 | Borrowing through the type-erased wrapper keeps the pool's guarantees. On a valid pool it never reaches `fatalError`. A successful borrow pops the last idle connection, takes one permit, and leaves the pool valid. It times out exactly when every connection is lent. |
| ConnectionPool.AnyCheckin | Sources/Lumpik/ConnectionPool.swift:120-122 | Checking in through the wrapper appends the connection and releases one permit. A lent connection checked in leaves the pool valid. |
| Fetcher.Swap | Sources/Lumpik/Fetcher.swift:35-40 | One iteration exchanges positions i and j and leaves every other position alone. When j == i the sequence is unchanged. The multiset is preserved. |
| Fetcher.ShuffleStep | Sources/Lumpik/Fetcher.swift:35-40 | The loop body as the source writes it (remember `a[i]`, copy `a[j]` unless `i == j`, store at `a[j]`) performs exactly the swap. |
| Fetcher.SwapPass | Sources/Lumpik/Fetcher.swift:31-43 | The reference shuffle, which applies the swaps in iteration order, keeps the length and the multiset of the queues. |
| Fetcher.RandomSortedQueues | Sources/Lumpik/Fetcher.swift:31-43 | The in-place loop on a copy returns the reference shuffle of the configured queues. The result has the same length and is a permutation of them. |
| Fetcher.RetrieveWork | Sources/Lumpik/Fetcher.swift:25-29 | One pooled connection is borrowed and returned, so the permits are unchanged. `dequeue` receives exactly the shuffled list, and its result is returned. |
| Fetcher.RequeueCommands | Sources/Lumpik/Fetcher.swift:50-53 | The pipeline holds exactly one RPUSH per job, in input order, to that job's queue with its serialized payload. It fails exactly when some serialization fails. The error is the one from the first job whose serialization fails. |
| Fetcher.ExecutePerQueue | Sources/Lumpik/Fetcher.swift:45-57 | After the pipeline runs against the list store, each queue holds its old list followed by the payloads pushed to it, in order. |
| Fetcher.ExecuteTotal | Sources/Lumpik/Fetcher.swift:45-57 | The store grows by exactly one element per push. |
| Fetcher.BulkRequeue | Sources/Lumpik/Fetcher.swift:45-57 | On success every queue ends as its old list plus its jobs' payloads, and the total grows by `jobs.count`. Any failure (borrow, serialization, queueing an RPUSH or execution) leaves the store unchanged. The pool's permits come back. |
| Processor.Process | Sources/Swiftkiq/Processor.swift:57-59 | `dispatch` is called once, with the processor's own id and the work unchanged. The dispatch error, if any, is thrown. |
| Processor.ProcessOne | Sources/Swiftkiq/Processor.swift:51-55 | One dispatch happens when the fetch returns work, and none on nil or on a fetch error. A fetch error is thrown. |
| Processor.RunLoop | Sources/Swiftkiq/Processor.swift:38-49 | Every iteration run saw `done` false, and every iteration before the last threw nothing. The loop stops exactly at the first `done` or the first error. The shutdown signal and any other error are each caught by their own clause, and `run` never throws. |
| Processor.RunDispatchesFetchedWork | Sources/Swiftkiq/Processor.swift:41-55 | The dispatch calls are exactly the works fetched by the iterations the loop ran, one per iteration and in fetch order. This matches an independent reference definition. |
| Processor.DoneRunsNothing | Sources/Swiftkiq/Processor.swift:41-43 | If `done` is already set, `run` fetches and dispatches nothing. |
| Manager.NewManager | Sources/Swiftkiq/Manager.swift:27-32 | With `concurrency` ≥ 1 the initial list has exactly `concurrency` processors, indexed 1 to `concurrency`, with distinct identities, none of them started yet. `done` is false. |
| Manager.NewDefaultManager | Sources/Swiftkiq/Manager.swift:27-45 | `init`'s default concurrency gives 25 processors in a valid, not-done supervisor. |
| Manager.Start | Sources/Swiftkiq/Manager.swift:47-51 | `start()` starts every listed processor and changes nothing else, so afterwards all of them are running. |
| Manager.Quiet | Sources/Swiftkiq/Manager.swift:53-61 | `done` becomes true. The first call requests termination of every listed processor, in order. A later call returns at once and terminates nothing. |
| Manager.QuietIdempotent | Sources/Swiftkiq/Manager.swift:53-55 | A second `quiet` changes nothing. |
| Manager.Stopped | Sources/Swiftkiq/Manager.swift:80-87 | Removes the first processor with that identity and keeps the rest in order. An unknown processor is a no-op. |
| Manager.StoppedKeepsValid | Sources/Swiftkiq/Manager.swift:80-87 | `stopped` keeps the identities distinct, and a known processor lowers the count by one. |
| Manager.Died | Sources/Swiftkiq/Manager.swift:89-103 | An unknown processor changes nothing. While not done, the processor is replaced by one new, unstarted processor appended with the next identity. After `done` it is removed without replacement. |
| Manager.DiedKeepsValid | Sources/Swiftkiq/Manager.swift:89-103 | The replacement's identity is fresh. The count is unchanged while not done and drops by one after. The supervisor stays valid. |
| Manager.DiedLeavesReplacementIdle | Sources/Swiftkiq/Manager.swift:89-103 | As written, after `start()` a death while not done keeps the count, but the appended replacement is not started. So not every listed processor is running. |
| Manager.DiedIntendedKeepsRunning | Sources/Swiftkiq/Manager.swift:89-103 | The corrected respawn starts the replacement. If every processor was running, every processor still is, and while not done the count is restored. |
| Manager.DiedIntendedAgrees | Sources/Swiftkiq/Manager.swift:89-103 | The corrected respawn lists the same identities as `died` as written, and keeps the supervisor valid. |
| Manager.SuperviseKeepsValid | Sources/Swiftkiq/Manager.swift:53-103 | Over any sequence of quiet/stopped/died events: identities stay distinct, there are never more than `concurrency` processors, `done` never returns to false, and once `done` every live processor has been told to terminate. |
| Manager.NoRespawnAfterQuiet | Sources/Swiftkiq/Manager.swift:89-101 | After `quiet`, no processor is ever added: every processor alive after further events was alive before them. |
| Heart.WorkerWrites | Sources/Swiftkiq/Heart.swift:52-55 | One HSET per worker state, in order, on the workers key, keyed by jid. |
| Heart.FirstTransaction | Sources/Swiftkiq/Heart.swift:44-59 | The first transaction is exactly: MULTI; the INCRBYs of `stat:processed` and `stat:failed`; the two dated INCRBYs, with the dated failed key incremented by the processed count; DEL of the workers key; the HSETs; EXPIRE 60; EXEC. |
| Heart.StatsTransactionEffect | Sources/Swiftkiq/Heart.swift:44-59 | Committed, the first transaction moves each statistics counter by its amount. It rebuilds the workers hash from the current worker states alone, with a 60-second expiry when the hash is not empty. |
| Heart.FillHoldsEachState | Sources/Swiftkiq/Heart.swift:52-55 | With distinct jids, the workers hash maps each jid to that worker's payload. |
| Heart.SecondTransactionEffect | Sources/Swiftkiq/Heart.swift:71-84 | Committed, the second transaction: registers the process in `processes`; writes the record fields (info, busy, beat, quit); sets the record's expiry to 60; pops exactly one signal from `<key>-signals`; moves no counter and touches no other hash. |
| Heart.Beat | Sources/Swiftkiq/Heart.swift:32-91 | Both counters are taken and reset before any store traffic. On success they stay at zero. On any fault they return to their pre-beat values. What is sent depends on where the fault happened: nothing on a pool fault, which also stands for a failure while the first transaction is built (serialising a worker's job or queueing its HSET); the first transaction's command list alone on a first-transaction fault; otherwise the first and then the second transaction's command lists. The store afterwards is the committed transactions applied in order. No error propagates. |
| Heart.BeatConservesCounts | Sources/Swiftkiq/Heart.swift:36-90 | Except when the second transaction fails, store counter plus pending counter is unchanged by a beat, so no count is lost. |
| Heart.FailedBeatDefersCounts | Sources/Swiftkiq/Heart.swift:86-90 | A beat failing at the pool or in its first transaction defers its counts. The next committed beat adds them, plus whatever accrued in between. |
| Heart.BeatPublishes | Sources/Swiftkiq/Heart.swift:44-84 | After a committed beat, the workers hash is rebuilt from the worker states alone, and every field in it is the jid of a current worker state. The process is in `processes`. Its record has `busy` equal to the worker-state count and `quit` equal to `done`. |
| Heart.DatedFailedCountsProcessed | Sources/Swiftkiq/Heart.swift:49 | As written, a committed beat grows the dated failed counter by the processed count. |
| Heart.SecondFaultCountsTwice | Sources/Swiftkiq/Heart.swift:71-90 | As written, a fault in the second transaction leaves the taken counts both committed and restored, so they are counted twice. |
| Heart.IntendedBeatConservesCounts | Sources/Swiftkiq/Heart.swift:44-90 | The corrected beat conserves all four statistics counters under every fault: each job is counted exactly once. |
| Heart.Clear | Sources/Swiftkiq/Heart.swift:93-105 | `clear` removes exactly the process key from `processes`. It deletes the workers key outright: hash, counter, list and expiry. Every other key keeps its set, hash, counter, list and expiry. A failure changes nothing and is swallowed. |
| Client.WithJid | Sources/Swiftkiq/Client.swift:44-48 | The pushed payload has the job's keys plus `jid`. An existing `jid` is kept unchanged, a missing one gets the generated id, and every other key passes through. |
| Client.WithJidIdempotent | Sources/Swiftkiq/Client.swift:46 | Enqueueing an already-enqueued payload again keeps its jid and its contents. |
| Client.Enqueue | Sources/Swiftkiq/Client.swift:44-48 | Exactly one push of the completed payload onto the given queue; no other queue changes. A store error propagates and changes nothing. |
| Client.EnqueueToDefault | Sources/Swiftkiq/Client.swift:44 | The untyped `enqueue`'s default target is `Queue("default")`. |
| Client.TypedPayload | Sources/Swiftkiq/Client.swift:36-42 | The typed payload has exactly the keys jid, class, args, retry and queue. It always carries the freshly generated jid, and `queue` is the target queue's name. |
| Client.EnqueueTyped | Sources/Swiftkiq/Client.swift:36-42 | One push of the typed payload onto the target queue, and nothing else. |
| Client.EnqueueTypedDefaults | Sources/Swiftkiq/Client.swift:36-42 | Without retry or queue arguments, the typed `enqueue` pushes exactly one payload, onto the worker type's default queue, and no other queue changes. The payload has exactly the five keys, `retry` is the type's default retry, `queue` is the default queue's name, and `jid` is the generated id. A store error changes nothing. |
| Client.PlainWorker | Sources/Swiftkiq/Worker.swift:40-46 | A worker type that keeps the protocol defaults has queue "default" and retry 25. |
| Client.PlainWorkerDefaults | Sources/Swiftkiq/Worker.swift:40-46 | A plain worker's typed job goes to "default" with `retry` 25. |
| Client.TypedPayloadKeepsJid | Sources/Swiftkiq/Client.swift:46 | Passing a typed payload through the untyped `enqueue` leaves it unchanged. |

## Left out

- Real concurrency is not modelled: `Mutex`, `DispatchSemaphore`, `DispatchQueue.async`, `AtomicCounter`. Each synchronized block is one atomic step, so races between blocks are not modelled.
- Timing in `borrow` is left out: the 0.3-second semaphore waits and the one-second deadline loop. As written, that loop exits after a single wait. Sequentially, "times out" means "no permit is free now".
- The pool's `deinit` release of idle connections is left out. It is teardown I/O whose errors are swallowed.
- `Manager.stop`, `hardShutdown` and `Processor.start` are left out. They schedule threads or sleep, and `hardShutdown` is a `fatalError` placeholder. `Manager.start` is modelled only as marking each listed processor started (`Manager.Start`).
- `Processor.terminate` is not defined in the processor source. It is modelled as a flag on each `Manager.ProcessorRef` that `quiet` sets.
- `Manager.makeProcessor` is left out. The manager's queues, fetcher strategy and router only flow into it, so the model does not keep them.
- The source's `Processor` initialiser takes a `processorId` that `makeProcessor` does not pass.
- Randomness is an input: the draws of `Compat.random(n)`. Nothing is claimed about uniformity.
- The store's wire protocol is not modelled. `dequeue` is a function parameter, and the list store and command interpreter stand in for Redis.
- JSON serialization, date formatting, `Date`, and `ProcessInfo` are kept as opaque strings or parameters. The `Process` record itself is opaque text.
- Sources/Swiftkiq/Store.swift is not modelled: it holds protocol declarations only, and `SortedSetScore` formats a `Double`.
- Client plumbing is left out: the `SwiftkiqClient.current` thread-dictionary cache and `Worker.performAsync`.
- Manager.Supervise: models `died` as written, so its replacements are not started. The proved invariants (distinct identities, the `concurrency` bound, monotonic `done`) hold for the corrected respawn as well, by `Manager.DiedIntendedAgrees`.
- The non-throwing `with` overload is not modelled separately. It is `ConnectionPool.With` with a handler that always succeeds.
- ConnectionPool.Checkin: the source accepts any connection while the idle list has room. For a connection no borrower holds, the model only shows that the accounting breaks (`ConnectionPool.ForeignCheckinBreaksValid`) and states nothing further about that pool.
- Fetcher.BulkRequeue: a failed pipeline execution is modelled as applying no push. A real pipeline is not atomic and may apply a prefix.
- Heart.Clear: a failure is modelled as changing nothing, although a pipeline could apply its first command.
- Heart.Clear: the workers key is built from the interpolated identity value. That value's text form is not part of this model, so it is a separate input.
- Heart.Beat: the signal popped by RPOP is discarded, as in the source. The record's `beat` time is an input, and `busy` is the same worker-state count the first transaction wrote.
- Processor.RunLoop: the script is finite. A loop that neither sees `done` nor fails ends the script with the exit `StillRunning`, not an infinite run.

## Findings

| source | as written | input that shows it | evidently intended | confidence | as-written member | corrected member |
|---|---|---|---|---|---|---|
| Sources/Swiftkiq/Heart.swift:49 | `stat:failed:<date>` is incremented by the processed count | processed = 3, failed = 0: the dated failed counter grows by 3 | increment it by the failed count, as line 47 does for the undated key | high; not executed | Heart.DatedFailedCountsProcessed | Heart.IntendedBeatConservesCounts |
| Sources/Swiftkiq/Heart.swift:86-90 | the taken counters are added back after any error, including one in the second transaction after the first has committed | processed = 5 and the second transaction fails: `stat:processed` grows by 5 now and again by 5 at the next beat | add the counters back only when the first transaction did not commit, so each job is counted once | medium; not executed | Heart.SecondFaultCountsTwice | Heart.IntendedBeatConservesCounts |
| Sources/Swiftkiq/Manager.swift:96-101 | `died` appends a freshly made replacement but never calls `start()` on it | start the manager, then one processor dies while not done: the list is full again, but the new processor never runs its fetch loop | start the replacement, so the number of running processors is restored | medium; not executed | Manager.DiedLeavesReplacementIdle | Manager.DiedIntendedKeepsRunning |

The corrected beat is `Heart.BeatIntended`. It uses
`Heart.FirstTransactionIntended`, and `Heart.IntendedBeatConservesCounts`
proves that it conserves every statistics counter under every fault. The
corrected respawn is `Manager.DiedIntended`.
