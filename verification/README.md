# batchinf, modelled and verified in Dafny

batchinf batches single inference requests. A caller's request is routed to one of several workers;
the worker's accumulator task collects requests into a batch and hands it, through a job channel of
depth one, to an inference thread, which may panic, rebuild its predictor or die; each caller gets
its own reply. Callers that find every queue full wait on one shared `Notify`.

The project models that pipeline and proves what it keeps in every state of every run, for any
number of workers and callers and every interleaving of their steps. Five guarantees one would
expect of it turn out not to hold: each of the five has a run that shows it, and beside it what does
hold.

## The model

Three kinds of model are used, and tied together.

**Loops over data** are imperative, with the source's own loops and in-place updates, each proved
against a specification: the packed status word (`StatusWord`), the paired buffers and the
cancellation filter (`Buffer`), the dispatch of replies (`Dispatch`), the two routing passes
(`Router`), the retry engine (`Retry`) and the wait for the acks at startup (`Startup`, whose threads
are a small state machine of their own).

**The concurrent pipeline** is a state machine over its atomic steps (`Worker` for one worker,
`System` for the pool, the callers, the `Notify` and the handles). A program counter of
`worker_loop`, `inference_runner` or `predict` stands just before each access to shared state, and a
step performs that access, so a predictor can panic between any two accesses of its accumulator, a
walk over the pool is interleaved probe by probe, and a drain or a filter request by request.

**The programs that take those steps** are imperative again: `Accumulator` is the accumulator task,
`Runner` the inference thread and `Batchinf` a call of `predict` or `try_predict`, each with the
source's loops and local variables, and with arbitrary steps of everybody else before each access.
They are proved to take only steps of the state machine, so that what is proved of all its runs holds
of theirs, and to stop only where they return, or where they wait, nothing more is to come from others,
and what they wait for is not there.

- `Worker.AccNext` is src/worker/mod.rs:189-391, `Worker.RunNext` is src/worker/inf.rs:176-333,
  `System.ProbeStep` is src/pool/mod.rs:75-156 as one caller executes it, and `System.Step` adds
  src/batcher/mod.rs:181-246.
- Timers fire at any time; `predict_batch` may return outputs in any number, an error, or panic; the
  factory may fail; a caller may drop its future wherever it is suspended; a handle may be cloned or
  dropped while no call borrows it. The predictor is any one whose i-th output, when it returns
  outputs, is `f` of its i-th input, for a function `f` nothing is assumed about.
- The start ticket of each walk is arbitrary, which includes the round robin (`Router` has the counter).
- Inputs and outputs of the state machine are integers; `Buffer`, `Dispatch` and `Router` are generic.
- The primitives of tokio are trusted models. An mpsc channel is a bounded queue whose receiver
  drains it before it reports the end; a reserved permit counts against capacity; a message sent
  with a permit after the receiver is gone stays in the channel until its last sender goes. A oneshot
  is used at most once, and a sender dropped unsent reads as InternalError. `Notify` is a queue of
  waiters and one stored permit; a waiter dropped after `notify_one` chose it, and before it has
  consumed that, passes it on. Atomics are sequentially consistent.
- `Worker` also records history that no step reads: what was accepted, how each stretch of it left
  the accumulator, what left the job channel, what was resolved and how. `System` records whether a
  caller was woken and has not tried since.

`Refinement` and `Walk` connect the two: the thread's filter, reply and build steps come to exactly
what `filter_canceled`, `send_output` and `spawn_predictor` are proved to do, and a caller's walk that
nobody disturbs comes to exactly what `try_push` does. `Guarantees` connects the status word.

## What is guaranteed

- A request is in exactly one place, or resolved, once; a refused one is nowhere; a success is `f` of
  the caller's own input (`Custody`).
- The system comes to rest under every schedule. The number of worker steps in a run is bounded by
  the number of requests accepted (`Liveness`, `Ranking`). If the predictor never panics, every call
  is then over (`PanicFree`); if it does, every call is over unless a batch was sent late or a drain
  overlapped the end of a rebuild (`Stranding`).
- Once all predictors are dead nobody is left parked unnotified (`Wakeup`), in every run.
- While a caller is parked, free slots are covered by wakeups, for any number of workers, until a step
  of one of two kinds, and exactly then not (`Accounting`, `Staleness`).
- A caller told that no worker is left is told the truth exactly if it has missed no end of a rebuild
  between its two looks at a worker (`Denial`).
- A batch that a panic finds in the job channel is never run, and failed before the rebuild starts
  (`Doomed`).
- Every reply, and every sender dropped, goes back to one step that decided it, and every such step is
  carried out. In particular a batch is cut as ready, and later sent, exactly when the look at the
  predictor finds it alive, and otherwise everything up to there fails (`Reasons`).
- A caller whose walk places nothing is told what the looks of its second pass have found, and nothing
  else (`Refusal`).
- Single wakeups are neither made up nor doubled, and go to the caller that has waited longest
  (`Fairness`).
- `get_batcher` returns, and with a handle exactly when every worker has acked and nothing has failed;
  each error goes back to what it names (`StartupOutcome`).
- Shutdown completes, and loses nothing that was handed to a live thread (`Shutdown`).
- Batches are well cut, leave in order, and the job channel is emptied by each flush
  (`Guarantees`).

## What is not

Each of these is shown by a run from the initial state.

1. *Every accepted request is answered.* `run_inference` takes its permit and reads the predictor as
   alive (src/worker/mod.rs:379-383); if the thread panics, fails to rebuild and returns before
   `permit.send` (line 389), the batch sits in a channel without a receiver, and its callers wait as
   long as the accumulator lives, which is as long as they hold their handles
   (`Counterexamples.ABatchCanBeStranded`). `Stranding` proves that this is the only way, and that
   those callers are never answered.
2. *A slot freed while a caller registers is not missed* (docs/design.md:191). A drain
   (src/worker/mod.rs:360) frees slots without `notify_one`; one that outlasts the rebuild loses the
   wakeup for good (`Counterexamples.AWakeupCanBeLost`: at rest, an idle worker with an empty queue,
   and a parked caller). `Wakeup.HopeLostExactlyByLastDrain` says exactly which steps do this.
3. *Free slots are matched by wakeups of callers that will try again.* In `predict` the `Notified`
   stays registered while the reply is awaited (src/batcher/mod.rs:190-196), so a `notify_one` can go
   to a caller that needs none; it is passed on only when that caller leaves
   (`HeldWakeup.AWakeupCanBeHeld`, one worker, without any panic).
4. *The same, with several workers, even if such wakeups are counted.* A caller may look at a worker
   just before its slot is freed while the caller woken for that slot finds room elsewhere
   (`TwoWorkers.ASlotCanBeMissed`, without any panic). For any number of workers,
   `Accounting.BalanceLostExactly` says exactly which steps lose the balance of 3 and of 4: a
   `notify_one` that is wasted on a caller awaiting its reply while the balance is tight, which matters
   only where those are not counted, and the end of a walk that leaves somebody short. `Staleness`
   proves that the latter needs a dequeue at a worker that the pass in question had already looked at.
   In a pool of one it cannot happen. And in either case something is still going to wake somebody, as
   long as no drain overlaps the end of a rebuild (`Wakeup.ParkedIsNeverForgotten`).
5. *NoAvailableWorkersError means that all workers have exited or crashed* (src/batcher/mod.rs:176).
   The router reads the predictor's state twice (src/pool/mod.rs:82-83, 132-143); a rebuild that ends
   in between is seen as neither alive nor rebuilding (`Counterexamples.ALiveWorkerCanBeDenied`).
   `Denial.DeniedAliveExactlyWhenMissed` proves, for any caller, pool and run, that this is the only
   way: a worker is not dead when the answer is given if and only if its rebuild ended between the two
   looks of that walk at it, and it has not died since.

Where the code and its documentation differ the model follows the code: requests queued on a worker
whose predictor is being rebuilt are failed, not kept (src/worker/mod.rs:339-366, against the comment
on `Rebuilding` in src/state/mod.rs), and the accumulator sets `Running` after the batch is cut, not
when it is full or timed out (against docs/design.md:132-133).

## Model

| member | source | states |
|---|---|---|
| Custody.EachRequestInOnePlace | src/worker/mod.rs:189-391 | In every state of every run a request queued with a worker is in exactly one of its queue, hand, buffer, job channel, running batch or resolutions, once; any other request is nowhere |
| Custody.RefusedIsNowhere | src/pool/mod.rs:75-156 | A caller told QueueFull or NoAvailableWorkers has its request with no worker |
| Custody.SuccessIsOwnResult | src/worker/inf.rs:252-333 | Whatever was cancelled, reordered, panicked or rebuilt, a successful call returns f of its own input |
| Custody.HeldIsAwaitedOrCanceled | src/batcher/mod.rs:181-203 | A request a worker still holds belongs to a caller that awaits it or has given up |
| Custody.ExitDropsOnlyCanceled | src/batcher/mod.rs:23-25 | When a worker exits because its channel closed, all requests it still holds were cancelled before |
| Custody.DoomedNeverSucceeds | src/worker/inf.rs:271-287 | The outcome of a request in the job channel when a panic is caught, if it has one, is InternalError |
| Doomed.DoomedIsNeverRun | src/worker/inf.rs:271-327 | No batch that is ever run contains such a request |
| Doomed.DoomedFailedBeforeRebuild | src/worker/inf.rs:284-301 | All such requests have been failed with InternalError when the rebuild starts |
| Reasons.OutcomeHasReason | src/worker/inf.rs:252-333 | Along every run, whatever a request got goes back to an earlier step that decided it: its own output of a call with the right number of outputs, InvalidPredictorOutput for a wrong number, InferenceError for the predictor's error, InternalError for a panic, a flush, or a drain after a look that found the predictor not alive, a dropped sender for a cancellation or an end |
| Reasons.CallDecides | src/worker/inf.rs:264-332 | The converse: what a call of the predictor or a flush decides, each request of the batch has got by the time the thread waits for the next batch |
| Reasons.ReadyExactlyWhenAlive | src/worker/mod.rs:335-391 | In every run a batch is announced if and only if the load after it is complete finds the predictor Alive, and sent if and only if the load with the permit in hand does |
| Reasons.NotAliveFailsAll | src/worker/mod.rs:335-391 | If either load finds Rebuilding or Dead, everything in the buffer, in hand and in the queue has been failed with InternalError by the time the accumulator awaits the first request of a batch again |
| Refusal.TurnedAwayAsFound | src/pool/mod.rs:126-155 | Any caller and any interleaving: a walk that places nothing ends with NoAvailableWorkersError if and only if no look of its second pass has found an open queue full or a rebuild; else try_predict is told QueueFullError and predict waits |
| Fairness.NobodyOvertakes | src/batcher/mod.rs:189-202 | While a caller that began to wait earlier still waits, no notify_one goes to a later one |
| Fairness.NewcomersWaitLast | src/batcher/mod.rs:189-202 | Whoever registers is behind all who wait already |
| Fairness.WakeupsAreConserved | src/batcher/mod.rs:189-202 | In every step of every run the waiter list and the stored permit change as one wakeup per dequeue, one passed on per caller that leaves with one unused, all on the end of a rebuild, and one registration at a time say, and not otherwise |
| Liveness.UnresolvedIsWorkedOn | src/worker/mod.rs:189-391 | In every state of every run an unresolved request is in a stranded job channel, or its worker has an enabled step |
| Liveness.WorkIsBounded | src/worker/inf.rs:252-333 | In any run the workers take at most 4 steps each and 400 per accepted request, through panics, rebuilds, death and shutdown |
| Liveness.ComesToRest | src/worker/mod.rs:189-391 | Under every schedule of its own steps the system reaches a state where none is enabled |
| Liveness.QuietAwaitsStranded | src/worker/mod.rs:379-390 | At rest a reply is still awaited only for a request in a job channel whose receiver is gone |
| Liveness.QuietParkedMissed | src/batcher/mod.rs:189-202 | At rest a caller is still parked only if some worker waits, alive, with nothing in its queue |
| Liveness.QuietMeansAnswered | src/batcher/mod.rs:181-203 | At rest, with no batch stranded and hope never lost, every call is over |
| Liveness.EveryAcceptedCallerIsAnswered | src/worker/inf.rs:252-333 | After any run, under every schedule, a state of rest is reached in which only callers of stranded batches still await a reply |
| Liveness.EveryCallerIsAnswered | src/batcher/mod.rs:189-202 | Without overlapped drains, every call is over at rest unless a batch is stranded |
| PanicFree.EverybodyIsAnswered | src/batcher/mod.rs:181-203 | If the predictor never panics, every call of every run is over once the system rests, which it does under every schedule |
| Stranding.StrandedExactlyByLateSend | src/worker/mod.rs:379-390 | A step strands a batch if and only if it is the permit's send after the inference thread has gone |
| Stranding.StuckForEver | src/worker/mod.rs:389 | From then on no step ever answers a caller of that batch, unless the caller itself gives up |
| Stranding.EverybodyIsAnsweredUnless | src/worker/inf.rs:271-327 | Panics, rebuilds and deaths included: without a late send and an overlapped drain every call is over at rest |
| Counterexamples.ABatchCanBeStranded | src/worker/mod.rs:383-389 | A run that ends with an accepted caller stuck |
| Counterexamples.AWakeupCanBeLost | src/worker/mod.rs:353-366 | A run that ends at rest with a caller parked and an idle worker ready for it |
| Counterexamples.ALiveWorkerCanBeDenied | src/pool/mod.rs:82-87 | A run in which NoAvailableWorkersError is returned by a pool whose only worker is alive and ready |
| HeldWakeup.AWakeupCanBeHeld | src/batcher/mod.rs:189-199 | A panic-free run of one worker with a free slot, a parked caller, and no wakeup that anybody will use |
| TwoWorkers.ASlotCanBeMissed | src/batcher/mod.rs:189-202 | A panic-free run of two workers with a free slot, a parked caller, and no wakeup at all in flight |
| Wakeup.NobodyStrandedByDeath | src/batcher/mod.rs:190-201 | In every run, once all predictors are Dead a caller is parked unnotified only while some worker still owes its notify_waiters |
| Wakeup.AttendedStep | src/worker/inf.rs:311-315 | The invariant behind it, over walks interleaved probe by probe, is kept by every step |
| Wakeup.ParkedIsNeverForgotten | src/batcher/mod.rs:189-202 | Without overlapped drains, while a caller is parked unnotified something is still going to wake somebody, for any number of workers |
| Wakeup.NeedyHopeStep | src/worker/mod.rs:250-304 | That is kept by every step but a drain overlapping the end of a rebuild |
| Wakeup.HopeLostExactlyByLastDrain | src/worker/mod.rs:353-366 | A step loses it if and only if it drains, with the predictor alive, the last request whose dequeue would have woken anybody while somebody is parked or bound to park |
| Wakeup.DeniedMeansCold | src/pool/mod.rs:126-155 | A caller registered and not notified since is told no worker is left only when each is dead or has yet to send the wakeup ending its rebuild |
| Denial.DeniedAliveExactlyWhenMissed | src/pool/mod.rs:126-155 | Any caller, any run: when it is told no worker is left, a worker is not dead if and only if its rebuild ended between this walk's two loads of its state and it has not died since |
| Denial.DenialIsTrueExactly | src/batcher/mod.rs:176-177 | All workers are dead when the answer is given if and only if the walk missed no such rebuild |
| Walks.WalkBegan | src/pool/mod.rs:75-156 | Every walk under way in a run began, at its first probe, in an earlier state of it |
| Accounting.BalanceLostExactly | src/batcher/mod.rs:189-202 | Any number of workers, no panic in progress, held wakeups counted or not: a step loses the balance of free slots and wakeups if and only if it wastes a notify_one while the balance is tight (not counted) or ends a walk that leaves some parked caller short |
| Accounting.FreeSlotsHaveWakeups | src/batcher/mod.rs:189-202 | Any number of workers, in any panic-free run without such a step: while a caller is parked, free slots never exceed dequeues not yet at notify_one, notified or woken callers that have not retried and, if counted, wakeups held by callers awaiting their reply |
| Accounting.OutOfBalanceSince | src/batcher/mod.rs:189-202 | In any panic-free run, a state out of balance has such a step, taken in balance, before it |
| Accounting.FreeSlotsOfOneHaveWakeups | src/worker/mod.rs:250-254 | One worker: the bound with held wakeups counted holds in every state of every panic-free run |
| Staleness.StaleWalkMissedDequeue | src/pool/mod.rs:126-155 | A walk that ends unplaced with a slot free somewhere has missed a dequeue, at a worker its second pass had already looked at |
| Staleness.ShortOnlyBehindItsBack | src/batcher/mod.rs:195-201 | So a walk leaves somebody short only if a worker has dequeued behind its back |
| Shutdown.ShutdownCompletes | src/batcher/mod.rs:19-28 | After the last handle is dropped every accumulator returns and every inference thread ends, under every schedule |
| Shutdown.HandedIsHonoured | src/batcher/mod.rs:19-21 | A request handed to a thread that does not die is with it, or has had its reply, or had been cancelled, shutdown included |
| Guarantees.ClosedJobChannelMeansDead | src/worker/mod.rs:317 | A job channel closed by the thread, seen by a live accumulator, means the predictor is Dead |
| Guarantees.ReadyBatchesAreWellCut | src/worker/mod.rs:263-331 | Every batch cut as ready has 1 to batch_size requests, Capacity exactly when full, Timeout only when not |
| Guarantees.RequestsLeaveInOrder | src/worker/mod.rs:242-391 | At loop boundaries the pushed requests are, in order, those cut or drained so far, the buffer and the queue; batches are received in the order handed over |
| Guarantees.OneBatchInJobChannel | src/worker/inf.rs:271-327 | Batches and permits never exceed one, and at most one batch enters between a panic and the end of its rebuild |
| Guarantees.FlushEmptiesJobChannel | src/worker/inf.rs:176-181 | One try_recv leaves the job channel empty |
| Guarantees.WordAlong | src/state/mod.rs:162-200 | Along every run the packed word decodes to the status and the batch length, the latter that of the batch being built or handed off |
| Guarantees.RouterSeesStatusWord | src/state/mod.rs:208-223 | Along every run the router's tests on the word, truncation included, are tests on the pair |
| Guarantees.StatusSaysWhere | src/worker/mod.rs:189-233 | In every state the status is Waiting, with the number of requests gathered, until the batch is announced, Running through the hand-off, Exit or Crashed exactly once the accumulator is to return, and Crashed only of a dead worker |
| Guarantees.NothingIsRuledOut | src/worker/inf.rs:262-317 | The runs leave every choice of the users, the clock, the predictor and the factory open |
| WorkerWord.WordRefinesPair | src/state/mod.rs:162-200 | Each write of the accumulator to the word is the same write to the pair |
| Walk.WalkIsTryPush | src/pool/mod.rs:75-156 | A caller's walk that nobody disturbs ends with the request where try_push puts it, or with its error |
| Walk.OneEnd | src/pool/mod.rs:75-156 | Such a walk has one end |
| Refinement.FilterStepsAreFilterCanceled | src/worker/buffer.rs:28-38 | The thread's filter steps leave the sequence filter_canceled leaves, whoever cancels between two tests |
| Refinement.ReplyStepsAreSendOutput | src/worker/dispatch.rs:11-51 | Its reply steps send what send_output sends, each to the sender at its position |
| Refinement.BuildStepsAreSpawnPredictor | src/worker/inf.rs:292-317 | Its build steps are as many failed attempts as spawn_predictor makes, with the same end |
| Ranking.InternalStepLowers | src/batcher/mod.rs:181-203 | Every step of worker or caller lowers a pair of numbers, lexicographically |
| WorkerProgress.BusyCanStep | src/worker/mod.rs:189-391 | A worker that holds anything, but for a stranded batch, has an enabled step |
| WorkerProgress.StepLowersMeasure | src/worker/inf.rs:252-333 | Every step of a worker, with whatever the predictor and the factory come back with, lowers a natural measure of that worker |
| Accumulator.Task.AccumulateNextBatch | src/worker/mod.rs:242-348 | With anything happening in between, every access is a step of the state machine; a batch is ready if and only if the predictor was Alive in the state in which it was looked at, and then has 1 to batch_size requests, Capacity exactly when full; otherwise the batch and all queued in that state were sent InternalError; it suspends only for a first request that is not there |
| Accumulator.Task.HandleCrashedInf | src/worker/mod.rs:355-366 | The batch, then in order all that was queued, then what came meanwhile is drained, and every one of them is sent InternalError; it ends, whatever is pushed |
| Accumulator.Task.RunInference | src/worker/mod.rs:369-391 | With a permit the batch is sent if and only if the predictor is Alive in the state looked at, else it and all queued in that state are sent InternalError; or refused because the thread is gone; or it waits for a permit that is not there |
| Accumulator.Task.WorkerLoop | src/worker/mod.rs:189-233 | The loop takes only steps of the state machine; it returns only to exit or crash, and otherwise waits for a request or a permit that is not there when nothing more is to come from others |
| Runner.Thread.FilterCanceled | src/worker/buffer.rs:28-38 | The loop over the thread's batch agrees with the state machine test by test |
| Runner.Thread.SendReplies | src/worker/dispatch.rs:11-78 | Each sender of the batch is sent the reply of its position: its output, the batch's error, or InternalError |
| Runner.Thread.FlushBatch | src/worker/inf.rs:176-181 | Everything in the job channel is sent InternalError, and taken by one try_recv |
| Runner.Thread.SpawnPredictor | src/worker/inf.rs:292-317 | At most attempts factory calls; no predictor only after exactly that many failed ones, or when cancelled |
| Runner.Thread.HandlePanic | src/worker/inf.rs:271-327 | The batch and what is in the job channel are sent InternalError, within attempts factory calls the predictor is stored Alive and the loop goes on, or it is stored Dead and the thread ends |
| Runner.Thread.InferenceRunner | src/worker/inf.rs:252-333 | The loop takes only steps of the state machine; it returns only when the job channel closed or no predictor could be built, and otherwise waits for a batch that is not there when nothing more is to come from others |
| Batchinf.Future.TryPush | src/pool/mod.rs:75-156 | The two passes, or the fast path, with others moving between any two probes: queued, full or no worker left, each with its own state |
| Batchinf.Future.Predict | src/batcher/mod.rs:181-203 | The register-then-retry loop takes only steps of the state machine and never answers QueueFullError; if it does not return, nothing more is to come from others and it has no step to take: parked without a wakeup or awaiting a reply that is not there |
| Batchinf.AnswerIsOwnResult | src/batcher/mod.rs:181-203 | An output returned in a state such programs reach is f of its caller's input |
| Batchinf.Future.TryPredict | src/batcher/mod.rs:153-157 | The same without waiting for room |
| StatusWord.WithStatusDecodes | src/state/mod.rs:162-171 | Setting the status keeps the length and nothing else changes |
| StatusWord.IncrementedDecodes | src/state/mod.rs:260-263 | Counting keeps the status and adds one, for every length below 2^62 - 1 |
| StatusWord.IncrementedCarries | src/state/mod.rs:260-263 | At 2^62 - 1 exactly it carries into the status bits |
| StatusWord.SnapshotLenExact | src/state/mod.rs:185-196 | The u32 truncation loses nothing up to u32::MAX |
| StatusWord.WorkerState.SetWorkerState | src/state/mod.rs:162-171 | The new word decodes to the status given and the old length |
| StatusWord.WorkerState.IncrementLen | src/state/mod.rs:260-263 | The new word decodes to the old status and one more |
| StatusWord.WorkerState.ResetBatchLen | src/state/mod.rs:198-200 | Waiting, with length zero |
| Router.RingVisitsEachOnce | src/pool/mod.rs:105-148 | A pass probes every worker exactly once and is back where it started |
| Router.RingIsMod | src/pool/mod.rs:101-148 | The k-th probe of a pass is of worker (ticket + k) mod pool_size |
| Router.PlacedInOrder | src/pool/mod.rs:100-155 | The request goes to worker (ticket + k) mod pool_size for the first k that is primary with room, failing any the first that is secondary with room, failing any nowhere, with QueueFull or NoAvailableWorkers as some worker gives hope or not |
| Router.TakesIs | src/state/mod.rs:208-223 | What makes a worker take a request in either pass, and what gives hope, in terms of its status, predictor, batch length, queue and receiver |
| Router.TicketsCoverPool | src/pool/mod.rs:189-192 | Any pool_size consecutive tickets, without a wrap of the counter, start at every worker exactly once |
| Router.RefusedMeansNoRoom | src/pool/mod.rs:100-155 | A request is refused if and only if no worker at all is live with room |
| Router.PrimaryComesFirst | src/pool/mod.rs:105-124 | A worker that is waiting, alive, with room in batch and queue is preferred to any other |
| Router.RoutedToOnly | src/pool/mod.rs:80-98 | In a pool of one the two passes come to the fast path |
| Router.FirstProbe | src/pool/mod.rs:105-148 | The first worker of the ring that takes the request in a pass: it does, and none before it would |
| Router.HopeWithinAll | src/pool/mod.rs:126-155 | A pass has seen hope if and only if some worker's open queue is full or some worker is rebuilding |
| Router.WorkerRef.Push | src/state/mod.rs:355-371 | QueueClosed if and only if the word decodes to Exit or Crashed or the receiver is gone; else QueueFull if and only if the queue is at capacity; the message is queued at the end, or handed back and the queue unchanged |
| Router.WorkerPool.GetAndIncrement | src/pool/mod.rs:190-192 | The old ticket modulo the pool size; the counter wraps |
| Router.WorkerPool.TryPush | src/pool/mod.rs:75-156 | For a fixed pool: exactly one queue longer by the request, that of worker (ticket + k) mod pool_size for the first k that is primary with room, else the first secondary; or nothing changed and the request back with QueueFull exactly when some open queue is full or some worker rebuilding |
| Router.WorkerPool.PushToOnly | src/pool/mod.rs:80-98 | The fast path answers and leaves what the two passes would |
| Router.WorkerPool.TwoPasses | src/pool/mod.rs:100-155 | The two loops come to the same specification |
| Buffer.SwapRemoveKeeps | src/worker/buffer.rs:42-45 | swap_remove loses the one element and keeps what precedes it in place |
| Buffer.SwapRemoveAt | src/worker/buffer.rs:42-45 | The last element takes the place of the removed one, and all others keep theirs |
| Buffer.TestedOnce | src/worker/buffer.rs:28-38 | Each request is tested exactly once |
| Buffer.FilterKeepsOpen | src/worker/buffer.rs:28-38 | What is left is exactly the multiset of those found open |
| Buffer.FilterCanceledIsFair | src/worker/buffer.rs:28-38 | A request closed before the first test is dropped, one open throughout is kept |
| Buffer.WorkerBuffer.FilterCanceled | src/worker/buffer.rs:28-38 | The loop in place, with both arrays aligned at each iteration, leaves the filter of the pairs |
| Buffer.WorkerBuffer.Push | src/worker/buffer.rs:47-50 | The pair is appended to both arrays |
| Buffer.WorkerBuffer.SwapReplace | src/worker/buffer.rs:20-23 | The pairs go to the new buffer and none are left |
| Dispatch.RepliesMatchInputs | src/worker/dispatch.rs:11-51 | For a predictor that answers f: with the right number of outputs every reply is Ok of f of the input at its position; on the predictor's error every reply is InferenceError with it; on any other number every reply is InvalidPredictorOutput |
| Dispatch.SendOutput | src/worker/dispatch.rs:11-51 | Every sender is used once, with the reply of its position; all get the error on a failure or a wrong number of outputs |
| Dispatch.SendErrors | src/worker/dispatch.rs:54-67 | Every sender gets the error |
| Dispatch.SendErrorsOnCrash | src/worker/dispatch.rs:70-78 | Every sender gets InternalError |
| Retry.BackoffSchedule | src/worker/inf.rs:42-57 | One wait per attempt: base times 2^i if that is within max_wait and max_wait otherwise, zero last, non-decreasing before, total at most (attempts - 1) max_wait |
| Retry.BackoffDoubles | src/worker/inf.rs:47-50 | Saturation never changes the clamped value |
| Retry.SleepIsExact | src/worker/inf.rs:72-86 | An uncancelled sleep takes exactly the time asked for, in slices with a poll after each; a cancelled one never more |
| Retry.SleepPollsOften | src/worker/inf.rs:72-86 | The k-th slice is 20 000 000 nanoseconds or what is left of the wait, never zero, and the k-th poll follows it |
| Retry.SpawnSleepsTheSchedule | src/worker/inf.rs:89-141 | What a build sleeps is the sum of the schedule's entries for its failed calls, no more, and no less unless cancelled |
| Retry.SpawnPollsFirst | src/worker/inf.rs:122-141 | Right before each factory call the exit condition was polled and said to go on |
| Retry.SpawnCallsAreBounded | src/worker/inf.rs:122-141 | At most one factory call per attempt |
| Retry.SpawnReportsLast | src/worker/inf.rs:122-141 | Every call but the last failed; an error or panic is reported only after all attempts, and is the last one's |
| Retry.SpawnHonoursExit | src/worker/inf.rs:122-141 | No call starts once a poll has said to exit, and exactly then the build is cancelled |
| Retry.World.SleepWithExit | src/worker/inf.rs:72-86 | The loop is that sleep |
| Retry.World.TryMakePredictor | src/worker/inf.rs:90-119 | One attempt: the call, then the sleep, a cut-short sleep reported as cancelled |
| Retry.World.SpawnPredictor | src/worker/inf.rs:122-141 | The loop is the bounded retries over the backoff schedule |
| Startup.PollAcks | src/setup/mod.rs:66-82 | The counter never overflows and the loop returns the verdict on the acks, or InternalError if they end early |
| Startup.VerdictIs | src/setup/mod.rs:66-82 | Success if and only if the first pool_size acks are there and none is a failure; else the first failure |
| Startup.HandleMeansAllServing | src/setup/mod.rs:139-203 | A handle is returned only when every thread has built its predictor and serves |
| StartupOutcome.ReadyExactlyWhenAllAcked | src/setup/mod.rs:66-98 | A handle is returned if and only if pool_size acks have been received, the time was not up, every thread could be spawned and none had all its attempts fail |
| StartupOutcome.FailureHasItsCause | src/setup/mod.rs:66-98 | Timeout only after the timer, InternalError only after a failed spawn, and an error naming a worker only as that of exactly the attempts-th failed attempt of its thread |
| StartupOutcome.AcksNeverRunOut | src/setup/mod.rs:80-81 | The channel of acks never closes early: every thread that ends while startup waits has reported |
| StartupOutcome.StartupReturns | src/setup/mod.rs:66-98 | Whatever the factory does, startup takes a bounded number of events, and until it has returned there is a next one |
| StartupOutcome.DeadExactlyWhenNotBuilt | src/worker/inf.rs:213-239 | At startup a worker is marked Dead if and only if all its attempts failed or its build was given up |
| StartupOutcome.NobodyServesLate | src/worker/inf.rs:241-244 | Once startup has returned no thread begins to serve |
| Startup.HandleMeansInitial | src/setup/mod.rs:196-202 | So every batcher begins in the initial state of the state machine |

## Left out

- StartupOutcome.AcksNeverRunOut: a thread that unwinds outside the caught factory call is not modelled, and that is the one way left to the last line of `poll_acks`.
- Real time, `Instant` and the one-year fallback: timers are steps that may happen at any moment; the retry engine counts nanoseconds.
- Memory orderings, OS threads and tokio's internals: atomics are sequentially consistent and the channels, oneshot and `Notify` are the models described above.
- Metrics hooks, hook panics, `PanicGuard` and tracing: hooks must not panic by contract and only add side effects. The trigger is kept as data.
- `Accumulator`, `Runner` and `Batchinf` are driven by a finite script of what others do; they report that they wait only when it is used up and what they wait for is not there.
- A look at a worker's state reads the status word and the predictor's state in one step, though `snapshot` loads them one after the other (src/state/mod.rs:186-189).
- Wakeup.DeniedMeansCold: is one way, and about callers that are registered; the exact statement, for every caller, is Denial.DeniedAliveExactlyWhenMissed.
- Custody.DoomedNeverSucceeds: speaks of the outcome alone; that the batch is never run, and failed before the rebuild, is in Doomed.DoomedIsNeverRun and Doomed.DoomedFailedBeforeRebuild.
- Sending `notify_one`, pushing the request and counting it are one step, and so are a caller's look at the status inside `push` and its `try_send` (a status seen early as Exit or Crashed is a choice of that step).
- The drop of a batch that `reserve` refused happens with the accumulator's other drops, one step later.
- A panic of `predict_batch` is caught in the same step; a drop of the old predictor during a rebuild is not modelled.
- `predict_with_timeout`: its deadline is a cancellation of the call at any suspension point, and the TimeoutError that goes with it is not an answer of the model.
- `blocking_try_predict` differs from `try_predict` only in how the reply is awaited.
- The shutdown waiter: threads of dead workers release their sender as well, so that it stays pending while a handle lives is not an invariant.
- Equal outcomes for all requests waiting behind a panic: this depends on timing.
- The configuration builder, error texts, status-code conversions by themselves, `pool_status` and `worker_status`: easy members.
- Vec capacities and the zero-sized input check.
- Router.TicketsCoverPool: does not speak about a wrap of the start counter, after which a turn may visit a worker twice.
