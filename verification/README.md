# The job lifecycle of rjq, verified

rjq is a job queue server. Clients post jobs over HTTP; every job is a row of a
`jobs` table before it is anything else; a router spreads jobs over a FIFO channel,
a sorted slice (priority queue) and a channel behind a token bucket; a pool of
worker goroutines takes them out, runs them and acknowledges, nacks or requeues
them; a super-urgent job may cancel a normal one and wait in that worker's preempt
slot; a supervisor restarts worker loops that panicked; sweepers and start-up
recovery put back what was orphaned. One job's identity is therefore spread over a
row, three queues, the workers' hands and slots and the HTTP handlers, all changed
by concurrent steps of the size of a lock region. This project models those parts
and proves what they keep.

The project has these layers, which share their vocabulary (`Models`, `Tables`,
`Ordering`, `Bucket`): the row-level effect of each SQL statement, the insertion into
the sorted slice, the refill and the choice of rows a scan acts on are functions used by
the classes and by the machine alike.

* **Components, as classes.** `JobStore.Store`, `FifoQueue.MemoryQueue`,
  `PriorityQueue.SortedQueue` (a growing, shifted, re-sliced array),
  `Throttle.RateLimitedQueue`, `Routers.Router` and `WorkerPool.Pool` follow the
  source's methods and loops; each method's contract gives the whole new state.
* **Concurrent machines.** `Lifecycle` is the running server: any number of workers
  and requests, start-up recovery after every start, a sweeper per queue at any time,
  one event per mutex region, channel operation or SQL statement, with failing
  statements, full queues, panics, restarts, shutdown and crashes as ordinary events.
  `Ownership` and `Supervision` hold its inductive invariants; `Theorems`, `CopyLedger`,
`Startup`, `Preemption`, `Ledger`, `Tokens`, `Staleness` and `Routing` state  `Runs` and `Duplicates` build runs in which what is conditional fails.
  `CloseProtocol`, `WakeUp` and `RateBound` are finer machines for shutdown, signalling
  and time.
* **A second telling.** `Script` says what each event does to the table's columns, the
  queues, the pool's fields, the handlers, the scanners and the crew, and `Calls` in which
  order a worker makes its calls, without the machine's effects and program counters; the
  machine is proved to agree with both in every run.
* **Bridges.** Each of the `Pool`'s methods is proved to be a step of the machine
  (`WorkerPool`), `PriorityRuns.StepProjects` ties stamped runs to the slice operations,
  and `Recovery` says what undisturbed recovery and sweeping amount to.

`dafny verify dfyconfig.toml` verifies the whole project.

## What holds, and when

Recovery and the sweepers re-enqueue what the table says is unfinished, whether or not a
copy is already queued or running. So delivery is at least once, and the theorems come in
two kinds.

* **In every run**: jobs never vanish (`Theorems.JobsAreDurable`), a live job has a copy
  unless as many are gone as were made (`CopyLedger.AtLeastOnce`), once start-up recovery
  is done nothing that was live at a crash is left behind (`Startup.RecoveryHeals`),
  preemption, supervision, routing and the bucket.
* **Exactly as long as a condition on single steps is met**: single ownership and
  finished rows staying finished (`Theorems.SingleOwnership`: scanners pick up only jobs
  that are live and nowhere else), status accounting (`Ledger.StatusAccounting`: no write
  over a finished row), retry conservation (`Ledger.RetryConservation`: no nack on a count
  changed since it was read), failure at the exact nack (`Ledger.FailsAtExactNack`), and
  recovery's writes beside running workers (`Startup.ScannersKeepObligations`: no row listed
  as processing is finished before its reset). Each is an if-and-only-if over the whole
  run. `Ledger.OrphansKeepBooks` says that the first condition implies the others,
  `Startup.OrderlyScans` gives a way to meet it, and `Duplicates` has the runs in
  which each fails.

## Reading the model

* A worker's program counter carries the job the worker is answerable for. It is not
  the registered job: a worker stays registered until its deferred cleanup, after
  the job may already be back in a queue. `Copies` counts the former.
* A scanner is start-up recovery or a sweeper; it holds what is left of its listing as
  it was listed, and a copy of the job it is about to enqueue. Recovery runs after every
  start, beside the running workers; HTTP is served once it is done. A recovery that
  gives up stays `Aborted`; the end of the process, which follows, is the crash event.
* Counters are incremented in the same step as the SQL statement they follow. A
  statement that fails leaves the table as it was.
* The outcome of `Process`, the fate of each statement, the choice a `select` makes
  and the clock are parameters or events.
* `SQLite` and `Postgres` differ in one statement, the reset of a manual retry; the
  backend is a parameter.

## Where the code and its documentation differ

* `queue_test.go:101-127` expects a limit of 2 to survive two nacks. `Nack` fails the
  job as soon as the incremented count reaches the limit, so it fails at the second
  (`RetryBudget.LimitTwoFailsAtSecondNack`).
* The repository's README says a manual retry resets the retry counter. Only SQLite's
  does; the two backends hand out different numbers of attempts
  (`RetryBudget.ManualRetryBudget`, `Ledger.FailsAtExactNack`).
* `Preempt` displaces any registered job of normal priority, whichever queue it came
  from, FIFO jobs included (`Preemption.JustVictim`).
* The two channel queues recover every live job whatever its type, so `Router.Recover`
  queues each job twice and each priority job three times (`Recovery.RestoredMeans`).
* A sweeper queues a pending job that is already queued (`Duplicates.SweepDuplicates`).
  The second copy can turn a completed row back to processing
  (`Duplicates.SweepRevivesCompleted`), drive a job past its retry limit
  (`Duplicates.SweepOverspends`) and lose an increment
  (`Duplicates.SweepLosesIncrement`).
* `main` starts the pool before it recovers, so recovery's reset can write pending over
  a row that a worker has just completed (`Duplicates.RecoveryOverwrites`); starting the
  pool afterwards would prevent it (`Startup.PoolAfterRecovery`).
* The sorted queue's one-place signal can leave a consumer asleep beside a job as soon
  as there are two consumers (`WakeUp.WakeUpsKeptIffOneConsumer`).
* A worker can wait for a token with a rate-limited job in hand as soon as there are two
  workers (`Tokens.NeverSpinsIffOneWorker`). `main` closes the router, and with it the
  refill, before it waits for the pool, so such a worker makes shutdown hang
  (`Tokens.StuckForever`).
* A second `Close` of the rate-limited queue panics; the other queues' `Close` is
  idempotent (`Throttle.RateLimitedQueue.Close`).
* The bound of burst + rate + 1 jobs a minute depends on the remainder that the
  integer division of the minute by the rate leaves (`RateBound.RateLimitExact`).

## Model

| member | source | states |
|---|---|---|
| Theorems.SingleOwnership | internal/worker/pool.go:126-264 | Throughout a run no job has two copies, finished jobs have none and finished rows stay finished, if and only if everything recovery and the sweepers picked up was live and nowhere else when they reached it. |
| CopyLedger.AtLeastOnce | internal/queue/memory_queue.go:120-140 | In every run, with crashes, recoveries and sweeps, a live job has no copy if and only if as many copies as the process made of it since its start are gone; and then the last to go was dropped with no scanner picking the job up since. |
| CopyLedger.CopiesAddUp | internal/queue/memory_queue.go:75-95 | In every state of every run the copies of a job are exactly those made (created, revived by hand, picked up) less those gone (dropped, finished) since the process started. |
| Theorems.LostWasDropped | internal/queue/memory_queue.go:75-95 | A job recorded as lost can always be traced to one event that dropped a copy and was not made good since. |
| Theorems.JobsAreDurable | internal/storage/sqlite.go:138-164 | No sequence of events, crashes included, removes a row or changes what a job is. |
| Theorems.RunSane | internal/worker/pool.go:102-300 | At-least-once backing, coherence of every copy with its row and the accounting of dead workers hold in every state of every run. |
| Theorems.RunInv | internal/worker/pool.go:102-264 | While scanners pick up only orphans, single ownership, the budget of every row and the freshness of every nack's read hold in every state. |
| Startup.RecoveryHeals | cmd/server/main.go:113-119 | Once start-up recovery has completed, beside running workers and after any number of crashes and cut-off recoveries, the process has made a copy of every live job; a live job is without one exactly when all copies made are gone, and then this very process dropped the last. |
| Startup.CrashAnywhere | internal/queue/router.go:143-154 | From a start on, with no worker or request acting, any sequence of recovery and sweep steps, cut off by crashes between any two of them and begun again, keeps all ids, finished rows, retry counts and the set of live jobs. |
| Startup.ScannersKeepObligations | internal/queue/memory_queue.go:126-132 | Beside running workers, the writes of recovery and sweeps keep all ids, retry counts, finished rows and live jobs if and only if no row listed as processing is finished by a worker between its listing and its reset. |
| Startup.PoolAfterRecovery | cmd/server/main.go:113-118 | If workers act only once recovery is done, recovery's writes keep all ids, retry counts, finished rows and live jobs. |
| Startup.OrderlyScans | internal/queue/memory_queue.go:186-218 | If recovery and sweeps list only while no live job has a copy (as right after a start) and are left alone until their list is done, then whatever they put back, single ownership holds and no write spoils the books or a budget. |
| Startup.ListedThenFinished | internal/queue/memory_queue.go:193-211 | A job still on a scanner's list is live or was finished by a worker since it was listed. |
| Ledger.StatusAccounting | internal/storage/sqlite.go:183-216 | Over one process lifetime, per queue, submitted = rows of the four statuses, completed = completed rows and failed = failed rows + manual retries at every step, if and only if no worker and no scanner ever writes over a finished row. |
| Ledger.RetryConservation | internal/storage/postgres.go:187-250 | Over one process lifetime the retry counts in the table (plus, on SQLite only, what manual retries wiped) add up to JobsRetried + JobsFailed, if and only if no nack writes over a count changed since it was read. |
| Ledger.FailsAtExactNack | internal/queue/memory_queue.go:84-94 | Through any run, crashes and recoveries included, a job's count is its number of nacks and it fails at exactly its allowance (3 per life on Postgres; 3 + 6 + 9 + ... on SQLite), if and only if nothing writes over its failed row and each nack writes what one atomic nack of the current row would. |
| Ledger.OrphansKeepBooks | internal/queue/memory_queue.go:75-95 | While scanners pick up only orphans none of these three conditions is ever violated. |
| Calls.CallsInOrder | internal/worker/pool.go:145-264 | In every run each worker makes its calls in the order of the source: slot before queues, priority before rate-limited before FIFO, status before registration, ack after success, requeue after an error under a cancelled context and nack after any other, exit once stopped. |
| Calls.HandStory | internal/worker/pool.go:151-176 | What a worker is answerable for after each call: the job from its slot or from the head of a queue, kept through processJob, given up at its end; a nack goes on what the row said when it was read. |
| Calls.PreemptedNeverNacked | internal/worker/pool.go:223-238 | A worker preempted before its error was judged makes no call of Nack before its next registration, and judges for a requeue: a displaced attempt costs nothing. |
| Calls.StopEndsWorkers | internal/worker/pool.go:144-150 | Once the pool is stopped each worker starts at most one more job, and its next pass round the loop leads out, restarts included. |
| Script.TableStory | internal/storage/sqlite.go:183-216 | In every run each event changes the table by exactly the columns its statement writes: status, counts, updated_at, and processed_at when a job is finished. |
| Script.QueueStory | internal/queue/router.go:29-39 | In every run each event changes the queues and the bucket exactly as the source does: heads taken, tails and sorted places filled by the job's type (or by the scanner's queue), one token per rate-limited job, one per tick below the burst. |
| Script.ChannelsFit | internal/queue/memory_queue.go:27-33 | The channels never hold more than their capacity. |
| Script.PoolStory | internal/worker/pool.go:102-122 | In every run a worker's registration, context and slot change only by registration, cleanup, expiry, its look at the slot, or a super-urgent job that finds it the first to yield. |
| Script.PreemptsIffPossible | internal/api/handlers.go:115-140 | A created job preempts if and only if it is super-urgent and some registered normal job's worker has a free slot; otherwise it is enqueued. |
| Script.HandlerStory | internal/api/handlers.go:314-347 | CreateJob and RetryJob go through their steps as written: priorities out of range become normal, only failed jobs are retried. |
| Script.ScannerStory | internal/queue/router.go:143-154 | Recovery serves FIFO, priority and rate-limited in turn and gives up at the first failure; a sweeper goes on; both act on exactly the listed rows that are theirs, pending, or processing for more than ten minutes. |
| Script.CrewStory | internal/worker/pool.go:279-300 | Deaths, restarts, the supervisor's exits and shutdown, step by step. |
| Staleness.SweepsOnlyTheIdle | internal/queue/memory_queue.go:203-205 | A sweeper picks up a job listed as processing only if, up to the listing, no statement touched its row in the ten minutes before the pick. |
| Staleness.StampedSince | internal/storage/sqlite.go:193-202 | In every run a row's updated_at is no earlier than any change of the row. |
| Duplicates.SweepDuplicates | internal/queue/memory_queue.go:194-202 | A crash-free run in which a sweeper gives a queued job a second copy. |
| Duplicates.SweepRevivesCompleted | internal/queue/memory_queue.go:143-145 | A crash-free run in which the second copy turns a completed row back to processing and the counters no longer match the table. |
| Duplicates.SweepOverspends | internal/queue/memory_queue.go:75-95 | A crash-free run in which a job with limit 3 is nacked a fourth time. |
| Duplicates.SweepLosesIncrement | internal/queue/memory_queue.go:76-92 | A crash-free run in which two workers nack the two copies and one increment is lost. |
| Duplicates.RecoveryOverwrites | internal/queue/memory_queue.go:126-132 | A run in which recovery lists a row as processing, a worker completes it and recovery writes pending over it. |
| Ownership.WorkBase | internal/worker/pool.go:181-264 | A worker step whose effect balances copies and is sound for its own record preserves at-least-once backing and coherence, other records included. |
| Ownership.WorkSolo | internal/worker/pool.go:181-264 | The same step preserves single ownership, the budget and the freshness of other workers' reads. |
| Ownership.PerformLegal | internal/worker/pool.go:145-264 | Every step of the worker loop and of processJob, Ack, Nack and Requeue keeps copies in balance and leaves row and record in order, in every run. |
| Ownership.HttpBase | internal/api/handlers.go:107-140 | The steps of CreateJob and RetryJob, preemption and enqueueing included, preserve at-least-once backing and coherence. |
| Ownership.ScanBase | internal/queue/memory_queue.go:121-140 | Every step of recovery and of the sweepers preserves at-least-once backing and coherence. |
| Ownership.PickKept | internal/queue/memory_queue.go:193-197 | Picking a job up backs it, and leaves it singly owned when it was an orphan. |
| Ownership.HandsDiffer | internal/worker/pool.go:145-176 | Under single ownership two workers never have the same job in hand, though both may be registered for it. |
| Theorems.NoDeathDropped | internal/worker/pool.go:126-139 | Each worker id is in exactly one of: loop running, in the death channel (once), with the supervisor; a dying worker always finds room in the channel; only a dead loop is restarted. |
| Supervision.StepAccounted | internal/worker/pool.go:279-300 | The accounting of dead workers survives every event, supervisor exits and restarts included. |
| Supervision.SignalFits | internal/worker/pool.go:132-139 | The branch that discards a death signal cannot be reached. |
| Preemption.HandOff | internal/worker/pool.go:151-176 | After Preempt succeeds on a worker the next job that worker starts is that super-urgent job, across panics and restarts; the slot keeps it until exactly one look takes it out. |
| Preemption.Schedule | internal/worker/pool.go:106-119 | Between selection and start the slot is never overwritten, and it is not filled again between that look and the start. |
| Preemption.JustVictim | internal/worker/pool.go:102-122 | Only super-urgent jobs displace; the victim is the first worker registered for a normal job with a free slot, and is not already cancelled. |
| Preemption.SelectedOnce | internal/worker/pool.go:106-119 | Between two selections of one worker it has registered for another job or the process restarted. |
| Preemption.RequeuesJustified | internal/worker/pool.go:223-238 | In every run penalty-free requeues never outnumber successful preemptions. |
| Preemption.RequeueHasCause | internal/worker/pool.go:223-238 | Each penalty-free requeue is of a normal job whose context was cancelled and whose worker's slot holds a super-urgent job. |
| Routing.LowerQueuesOnlyWhenEmpty | internal/queue/router.go:72-96 | In every interleaving a rate-limited or FIFO job is taken only in a polling pass that saw the priority queue empty. |
| Routing.PoppedIsBest | internal/queue/sorted_que.go:108-133 | A job popped from the priority queue in any run is more urgent than everything left behind, or as urgent and no younger. |
| Routing.RunSorted | internal/queue/sorted_que.go:56-82 | The priority slice is sorted in every state of every run. |
| Tokens.NeverSpinsIffOneWorker | internal/queue/rate_limited.go:88-111 | A worker never waits for a token with a rate-limited job in hand, in any run of any configuration, if and only if there is at most one worker. |
| Tokens.RunTokens | internal/queue/rate_limited.go:42-66 | The bucket stays between empty and full in every run of the server. |
| Tokens.StuckForever | cmd/server/main.go:153-155 | Once the router is closed and the refill has ended, a worker waiting for a token with an empty bucket waits through every continuation until the process is killed, so waiting for the pool never ends. |
| Tokens.ShutdownHangsIffTwoWorkers | internal/queue/rate_limited.go:101-110 | Such a state can be reached if and only if there are at least two workers. |
| WorkerPool.NackIsAtomic | internal/queue/memory_queue.go:75-95 | While each job has one owner, what Nack writes after its separate read equals one atomic nack of the row as it stands at the write. |
| WorkerPool.Pool.Preempt | internal/worker/pool.go:102-122 | The scan picks exactly the machine's victim, cancels it, fills its slot and counts it, and changes nothing when there is none. |
| WorkerPool.Pool.PlaceJob | internal/api/handlers.go:115-140 | CreateJob's decision on the pool's own fields is the machine's placing step: who preempts, whom, and who is left to enqueue. |
| WorkerPool.Pool.LookAtSlot | internal/worker/pool.go:151-160 | The look at the slot is the machine's step, and decides whether the worker polls. |
| WorkerPool.Pool.StartJob | internal/worker/pool.go:194-200 | Registration is the machine's step. |
| WorkerPool.Pool.FinishJob | internal/worker/pool.go:202-208 | The deferred cleanup is the machine's step, after a return and after a panic. |
| WorkerPool.Pool.NextDeath | internal/worker/pool.go:285-286 | The supervisor's receive is the machine's step. |
| WorkerPool.Pool.AnnounceDeath | internal/worker/pool.go:132-139 | The non-blocking send is the machine's death step, and in a supervised pool it always finds room. |
| Lifecycle.Victim | internal/worker/pool.go:106-119 | The first eligible worker, or none when no worker is eligible. |
| PriorityRuns.StableSort | internal/queue/sorted_que.go:56-82 | After any run of insertions and pops the slice is the one stable sort by (priority desc, created_at asc, arrival) of what was accepted and has not left. |
| PriorityRuns.NoOvertaking | internal/queue/sorted_que.go:56-82 | If a outranks b (or ties and came first) while both are present, a leaves before b in every continuation. |
| PriorityRuns.RunConserves | internal/queue/sorted_que.go:37-82 | No run loses or duplicates an entry. |
| Ordering.InsertSorted | internal/queue/sorted_que.go:56-71 | Insertion keeps the slice sorted and adds exactly the one job. |
| Ordering.ArrivalOrderIrrelevant | internal/queue/sorted_que.go:56-71 | Without ties the slice does not depend on the order of arrival. |
| Ordering.InsertAllOfSorted | internal/queue/sorted_que.go:56-71 | Inserting an ordered listing one by one gives the listing back, ties in place. |
| PriorityQueue.CopyUp | internal/queue/sorted_que.go:69 | The overlapping copy, cell by cell from the far end, moves every cell up by one and no other. |
| PriorityQueue.SortedQueue.Append | internal/queue/sorted_que.go:68 | Growing keeps the jobs, in place or in a fresh array. |
| PriorityQueue.SortedQueue.Scan | internal/queue/sorted_que.go:57-67 | The scan over the backing array stops in front of the first job that is less urgent, or as urgent and younger. |
| PriorityQueue.SortedQueue.Place | internal/queue/sorted_que.go:68-70 | Append, shift and write leave exactly the sequence with the job put in at that position. |
| PriorityQueue.SortedQueue.InsertLocked | internal/queue/sorted_que.go:56-71 | The shifted, possibly reallocated array then holds the specified sorted sequence. |
| PriorityQueue.SortedQueue.PopLocked | internal/queue/sorted_que.go:75-82 | The head leaves, the rest stays, and nothing happens on an empty slice. |
| PriorityQueue.SortedQueue.Enqueue | internal/queue/sorted_que.go:37-52 | Refused exactly when closed; else inserted and a signal is pending. |
| PriorityQueue.SortedQueue.DequeueOrWait | internal/queue/sorted_que.go:108-133 | Returns nothing exactly when the slice is empty; else a head more urgent than the rest, or as urgent and no younger. |
| PriorityQueue.SortedQueue.Close | internal/queue/sorted_que.go:172-182 | Closed, with `done` closed for blocked consumers, contents untouched, any number of times. |
| PriorityQueue.SortedQueue.RecoverOne | internal/queue/sorted_que.go:190-203 | One listed row against the table as it is by then: skipped, or reset (whatever the row has become) and inserted; says exactly when it fails and what it then leaves. |
| PriorityQueue.SortedQueue.Recover | internal/queue/sorted_que.go:185-205 | Undisturbed, and however far it gets, the slice holds the priority jobs of a prefix of the listing and only processing priority rows were reset; success means the whole listing. |
| PriorityQueue.SortedQueue.SweepOne | internal/queue/sorted_que.go:258-283 | One listed row against the table as it is by then: inserted when it was pending or stale, otherwise left; says exactly when it fails and what it then leaves. |
| PriorityQueue.SortedQueue.Sweep | internal/queue/sorted_que.go:251-284 | Undisturbed, only stale priority rows are reset, order is kept, and a clean pass inserts exactly the pending and stale priority jobs. |
| PriorityQueue.AfterIsInsertAll | internal/queue/sorted_que.go:190-203 | The row by row loop amounts to inserting the selected rows of the listing in order. |
| Recovery.IndexIsQuery | internal/storage/sqlite.go:219-228 | Recovering an empty priority queue yields the database's listing restricted to priority jobs, tie order included. |
| Recovery.RestoredMeans | internal/queue/router.go:143-154 | After a successful undisturbed Recover every live job is pending and queued; over empty queues exactly twice, priority jobs three times, nothing else. |
| Recovery.SweepHeals | internal/queue/memory_queue.go:186-218 | A clean pass adds exactly one copy of each pending and each stale processing job, which are then pending; every other row and job is untouched. |
| Recovery.PrioritySweepHeals | internal/queue/sorted_que.go:251-284 | The same for priority jobs in the sorted slice, which stays sorted. |
| Recovery.ListingCopies | internal/storage/sqlite.go:219-228 | A listing restricted by any predicate holds each live job that satisfies it once and nothing else. |
| Routers.Router.Recover | internal/queue/router.go:143-154 | Undisturbed, every table written on the way keeps all obligations, even when Recover fails midway; success composes the three recoveries in order. |
| Routers.Router.Enqueue | internal/queue/router.go:30-39 | Exactly the queue of the job's type takes it, unknown types go to FIFO; accepted or refused exactly as that queue is open and has room. |
| Routers.Router.DequeueOrWait | internal/queue/router.go:72-96 | The job comes from the best non-empty source: priority always first, rate-limited only for a token that is spent at once, FIFO last; nothing changes when nothing is returned. |
| Routers.Keeps | internal/queue/router.go:143-154 | One more recovery stage on top of a table that keeps the obligations still keeps them, in every table it writes. |
| FifoQueue.MemoryQueue.Enqueue | internal/queue/memory_queue.go:37-56 | Accepted at the back exactly when open and not full; accepted jobs = delivered ++ contents. |
| FifoQueue.MemoryQueue.Dequeue | internal/queue/memory_queue.go:60-66 | Delivers the head; nil exactly when closed and empty, and then everything accepted has been delivered. |
| FifoQueue.MemoryQueue.DequeueOrWait | internal/queue/memory_queue.go:220-230 | Nothing exactly when empty or the timer won; else the head. |
| FifoQueue.MemoryQueue.Close | internal/queue/memory_queue.go:104-118 | Closed afterwards, contents still deliverable, any number of times. |
| FifoQueue.MemoryQueue.Ack | internal/queue/memory_queue.go:69-71 | Completes the row and counts it once, or changes nothing. |
| FifoQueue.MemoryQueue.SetProcessing | internal/queue/memory_queue.go:143-145 | The row is processing and freshly stamped, and nothing is counted, or nothing changes. |
| FifoQueue.MemoryQueue.Nack | internal/queue/memory_queue.go:75-95 | One nack of the row; failed for good at the limit, else pending and offered to the channel; exactly one counter moves; on a failed statement nothing changes. |
| FifoQueue.MemoryQueue.Requeue | internal/queue/memory_queue.go:148-158 | Back to pending with every retry count unchanged; enqueued when found and admitted. |
| FifoQueue.MemoryQueue.Retry | internal/queue/memory_queue.go:161-171 | Only a failed job is reset, by the backend's own rule, and then offered to the channel. |
| FifoQueue.MemoryQueue.RecoverOne | internal/queue/memory_queue.go:126-138 | One listed row against the table as it is by then: reset when it was listed as processing, whatever it has become, then appended; says exactly when it fails and what it then leaves. |
| FifoQueue.MemoryQueue.Recover | internal/queue/memory_queue.go:121-140 | Undisturbed, and however far it gets, only processing rows were reset and a prefix of the listing appended; success means all of it. |
| FifoQueue.MemoryQueue.SweepOne | internal/queue/memory_queue.go:193-217 | One listed row against the table as it is by then: reset when it was listed as processing and stale, appended when pending or stale, otherwise left; says exactly when it fails. |
| FifoQueue.MemoryQueue.Sweep | internal/queue/memory_queue.go:186-218 | Undisturbed, only stale processing rows are reset; what was queued stays in front; a clean pass appends exactly the pending and stale jobs. |
| FifoQueue.AppendedIsSelect | internal/queue/memory_queue.go:193-217 | The row by row loop amounts to appending the selected rows of the listing in order. |
| FifoQueue.AllReset | internal/queue/memory_queue.go:126-138 | Once every listed row has been dealt with, the table is the full reset: no live row escapes the listing. |
| CloseProtocol.CloseIsSafe | internal/queue/memory_queue.go:37-56 | Under any number of concurrent Enqueue and Close calls no send meets a closed channel, no channel is closed twice, and nobody is inside Enqueue's select once the channel is closed. |
| CloseProtocol.FifoHistory | internal/queue/memory_queue.go:47-66 | At all times accepted = delivered ++ contents within capacity; nothing is accepted after closing; nil is reported only after everything ever accepted was delivered. |
| CloseProtocol.RunInv | internal/queue/memory_queue.go:104-118 | The WaitGroup always equals the enqueuers past the closed check, and at most one closer is between setting closed and closing the channel. |
| CloseProtocol.EnqueueIsTruthful | internal/queue/memory_queue.go:37-56 | Enqueue reports success exactly as often as a job was accepted, refuses at the door exactly when closed, and can always go ahead with room in an open channel. |
| WakeUp.WakeUpsKeptIffOneConsumer | internal/queue/sorted_que.go:85-105 | A blocked consumer beside a waiting job always has a wake-up on its way exactly when the queue has at most one consumer. |
| WakeUp.TwoCanOversleep | internal/queue/sorted_que.go:46-50 | With two or more consumers a concrete run leaves one asleep beside a job. |
| Throttle.SpinServes | internal/queue/rate_limited.go:101-110 | A taken job is served exactly when a token is there or a tick reaches a bucket that can hold one; the bucket never goes below empty. |
| Throttle.RefillManyBounds | internal/queue/rate_limited.go:42-47 | Any number of refills stays in the bucket, never removes tokens, and yields one exactly when it can. |
| Throttle.RateLimitedQueue.constructor | internal/queue/rate_limited.go:22-32 | Starts with a full bucket and an empty channel. |
| Throttle.RateLimitedQueue.DequeueOrWait | internal/queue/rate_limited.go:88-111 | Takes the head and pays one token for it after as many ticks as it needs; nothing is spent when nothing is taken. |
| Throttle.RateLimitedQueue.Close | internal/queue/rate_limited.go:76-79 | Panics exactly on the second call, before the channel queue is reached. |
| RateBound.BucketLedger | internal/queue/rate_limited.go:35-53 | Dispatched = burst + accepted refills - tokens, with 0 <= tokens <= burst. |
| RateBound.RateLimit | internal/queue/rate_limited.go:35-53 | With an ideal ticker and a small enough remainder at most burst + rate + 1 jobs leave in any half-open minute of any run. |
| RateBound.SquareFits | internal/queue/rate_limited.go:36 | The remainder is small enough whenever rate squared is at most a minute in nanoseconds. |
| RateBound.RateLimitExact | internal/queue/rate_limited.go:35-53 | The bound holds of every minute of every run if and only if 60e9 mod rate <= 60e9 div rate (or the burst is zero). |
| RetryBudget.FailsAtBudget | internal/queue/memory_queue.go:84-94 | However claims, preemptions, recoveries and nacks interleave, a live row fails at exactly the nack that uses up its budget, and its count counts every nack. |
| RetryBudget.ManualRetryBudget | internal/storage/postgres.go:231-250 | A manual retry hands out exactly `extra` nacks on Postgres and the old limit plus `extra` on SQLite. |
| RetryBudget.LimitTwoFailsAtSecondNack | internal/queue/queue_test.go:101-127 | With a limit of 2 the second nack fails the job, against the expectation of the queue test. |
| JobStore.Store.SaveJob | internal/storage/sqlite.go:138-164 | A new pending row with limit 3, or a refused duplicate or failed statement that changes nothing. |
| JobStore.Store.UpdateJobStatus | internal/storage/sqlite.go:183-216 | Status and updated_at of the one row are written, processed_at when the job is finished, nothing else; the right counter of its queue moves by one, only on success and only for completed and failed. |
| JobStore.Store.UpdateJobRetry | internal/storage/sqlite.go:316-348 | Status, count and updated_at are written together, processed_at when the job is finished, nothing else; JobsRetried or JobsFailed of its queue moves by one, only on success. |
| JobStore.Store.RequeueJob | internal/storage/sqlite.go:351-364 | Pending again, whatever the status was, with every count and limit and every other row unchanged; succeeds for unknown ids without effect. |
| JobStore.Store.ResetJobForRetry | internal/storage/sqlite.go:367-387 | Only a failed row is reset; one that had used up its limit is left `extra` more attempts on Postgres and its old limit on top on SQLite; no other row is touched; otherwise an error and no change. |
| JobStore.Store.ListPendingJobs | internal/storage/sqlite.go:219-228 | Exactly the pending and processing rows, each once, by priority descending then creation ascending. |
| JobStore.Store.CountByQueueAndStatus | internal/storage/sqlite.go:394-415 | Every cell counts its rows and no cell is empty. |

## Left out

- FifoQueue.MemoryQueue.Enqueue: called alone, so a full channel is the five-second timeout at once; concurrent senders are `CloseProtocol`.
- FifoQueue.MemoryQueue.Recover: nobody drains the channel or writes rows meanwhile; what happens beside running workers is stated on the machine (`Startup`, `Duplicates.RecoveryOverwrites`).
- FifoQueue.MemoryQueue.Sweep: nobody writes rows between the listing and the resets, as above.
- PriorityQueue.SortedQueue.Recover: nobody pops or writes rows meanwhile, as above.
- PriorityQueue.SortedQueue.Sweep: nobody pops or writes rows meanwhile, as above.
- Routers.Router.Recover: quiescent workers, as above; recovery cut off at any statement with workers running is `Startup`.
- Recovery.RestoredMeans: exact numbers of copies only for an undisturbed recovery; beside workers at least one copy (`Startup.RecoveryHeals`).
- Startup.CrashAnywhere: no worker or request acts; beside them it is `Startup.ScannersKeepObligations`, step by step and exactly.
- PriorityQueue.SortedQueue.DequeueOrWait: called alone; concurrent producers and consumers are `WakeUp`.
- Throttle.RateLimitedQueue.DequeueOrWait: a caller still waiting for a token when its observed ticks run out is reported as starved rather than blocked for ever.
- Unbuffered channels (capacity 0) and the hand-over between a blocked sender and receiver.
- The blocking `Dequeue` of the router and of the rate-limited queue, and `Router.Close`: no worker calls the former, and the latter only chains the three closes.
- `SortedQueue.Nack`, `Requeue`, `Retry`, `Ack` and `SetProcessing`: the router sends these to the FIFO queue only.
- The source's spare slice capacity: `append` grows to an amount of this model's choosing.
- Payloads, job types and error texts of rows, and the read-only listings of the dashboard.
- `aliveWorkers`, the pool's WaitGroup and `preemptSignal`, which nothing waits for or signals.
- The JobsPreempted and JobsRecovered labels, gauges and histograms.
- HTTP decoding and encoding, configuration, logging and SMTP.
- Liveness: starvation under repeated preemption and fairness among consumers are not guaranteed by the code.
- Two separate processes on one database.
