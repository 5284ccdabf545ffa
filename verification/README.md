# The coordination layer of the persistent worker runtime, in Dafny

The runtime keeps a pool of worker threads busy from a queue of tasks. Its coordination layer is four state
machines on the main thread and one in each worker, joined by queues and messages. This project models them and
proves what they promise over whole runs, and where the code does not do what its comments say, exactly when it does.

| file | what it models |
|---|---|
| `Streams.dfy` | the consumer's stream: bounded buffer with hysteresis, one parked pull, settlement (`src/streaming.js`) |
| `Answers.dfy` | what each pull of a stream is told, from the calls alone (`src/streaming.js`) |
| `StreamRunner.dfy` | the worker's loop under pause and abort, and the pause controller (`src/stream-runner.js`) |
| `StreamProtocol.dfy` | stream and worker joined by two FIFO channels |
| `Closings.dfy` | which closing frame a run posts, and what it makes of the stream |
| `TaskQueues.dfy` | the in-memory priority queue (`src/task-queue.js`) |
| `QueueSteps.dfy` | what its calls do to the tasks, in plain terms |
| `LeaseTable.dfy` | the shared task table and the log of everything committed to it (`src/queue/sqlite-backend.js`) |
| `Lifecycles.dfy` | the life of one row of that table, and what its columns say about the log |
| `SqliteQueue.dfy` | one instance of the durable queue: table, handles, cached count, waiters, statement cache |
| `DurableSteps.dfy` | what its calls do to rows, handles and waiters, and that results are final |
| `QueueRefinement.dfy` | the durable queue against the in-memory one |
| `Workers.dfy` | one worker handle: status, task and stream slots, timers (`src/worker-handle.js`) |
| `Statuses.dfy` | what terminating, retiring and marking do to a worker's status |
| `Outcomes.dfy` | which outcome a task gets, what that settles, and what starts |
| `Supervisors.dfy` | the pool: recycling, exit handler, retirement, each worker a handle of `Workers` (`src/supervisor.js`) |
| `Recyclings.dfy` | when a check recycles a worker, in the fields of the worker and the options |
| `Dispatch.dfy` | which idle worker gets a task (`src/supervisor.js`) |
| `Strategies.dfy` | which worker each strategy picks |
| `Pool.dfy` | the supervisor as an object |
| `Adaptive.dfy` | smoothing, classification, debounce and resizes of the controller (`src/adaptive-controller.js`) |

Each source class is a class here, with the source's fields. Its methods are proved equal to a step of a pure state
(`Abs() == Step(old(Abs()), ...)`), and the theorems are lemmas over every sequence of such steps. Ghost fields record
what the outside saw. Chunks, keys, payloads and ids are opaque numbers; the clock, the thread, the timers and the
database's choice between equal keys are parameters or nondeterministic steps.

Assumptions about code outside these files: `paused` posts PAUSE, `resumed` posts RESUME and `stream:aborted` posts
ABORT while the worker handle still holds the stream, and an END frame becomes `pushEnd` or `pushAbortEnd` by its
`aborted` flag. A worker thread says it is ready at most once and says nothing after its exit. Only the supervisor
retires, recycles and terminates the workers of its pool. What the worker thread does before it starts a stream
function, imports included, is the phase `Loading`; a failure there is the event `LoadFails`.

Where the code departs from its comments:

- `resumed` cannot fire with a high-water mark of 1, and the protocol can wedge exactly then (`ResumeReachableIff`, `WedgeIff`).
- `paused` may come twice without a `resumed` between (`PausedIffCrossing`, `PausedRepeats`).
- A pull made while another is parked displaces it (`PullAccounting`). The error of a `throw(e)` that answers a parked
  pull answers the next pull too (`ThrowsTwice`).
- `throw()` aborts the stream without `stream:aborted`, and nothing else does (`SilentAbortIff`). So the worker never hears
  of it. Nor does it hear of a signal that was aborted before the stream was made, which is announced before anybody
  listens, or of an ABORT that arrives before its run began; in every other case it does (`AbortLostIff`,
  `AbortedSignalLoses`, `ThrowLoses`, `EarlyAbortLoses`, `LostForGood`, `RunsForNobody`). A worker parked then stays parked
  unless the consumer pulls on (`StrandedStays`, `StrandedIff`, `StrandingRun`).
- A generator that throws after the abort, or a load that fails, ends the run without a closing frame, and the worker
  handle keeps its stream slot for ever (`ClosingFrameIff`, `SilentEndIff`, `SlotHeldForGoodIff`); after a failed load the
  consumer is never answered (`LoadFailureHangs`).
- The cached `dequeue-any` statement keeps the flavour of its first caller (`KeepsPinsIff`, `ServesAllIff`, `SameChoiceIff`);
  so a dedicated worker can take a task pinned elsewhere, and a general one can be refused a task (`PinTakenReached`,
  `MixedWorkersDiffer`).
- The cached count drifts on revived rows, on `markDone` of claimed rows, on `peek` of unreadable ones, and the reclaim
  count is by time stamp (`InsertDriftsIff`, `DoneDriftsIff`, `PeekDriftsIff`, `ReclaimCountIff`); runs reach each
  (`ReviveReached`, `DoneReached`, `PeekReached`, `StampReached`).
- Waiters of the durable queue can lose their order, and a newcomer can overtake them all (`DrainKeepsOrderIff`, `RearmsIff`,
  `RearmReached`, `OvertakesIff`, `OvertakeReached`). A reclaim ignores the bound (`BoundBrokenIff`, `BoundBrokenReached`).
- They can wait while there is room, and with no row pending no `dequeue` lets them in (`RoomLeftIff`, `WaitOnlyWhenFull`,
  `EmptyTableBlocks`, `RoomLeftReached`).
- Settled tasks keep their slot in the in-memory queue, and a queue is blocked for every `dequeue` if and only if it holds
  nothing else (`SettledBlock`, `SettledBlockReached`).
- A worker retired with a stream in flight, or while it starts, ends up idle and is not terminated (`RetireDrainsIff`,
  `RetiredLingers`) until its next task settles (`NextTaskRetires`); and a stream in flight is never closed by the exit of
  its worker (`StreamLeftOpenIff`).
- A worker recycled, retired or terminated while it starts is idle again when its thread says that it is ready, and takes
  tasks (`ComesBack`); once it said so it never comes back (`LeavingForGood`).
- A worker hit by two causes of departure can be replaced twice (`Capacity`, `SecondReplacementIff`).
- A recycling decided by the poll does not wait for the running task and crashes it (`RecycledBusyIff`, `RecycleCrashIff`,
  `BusyRecycleReached`).
- With `recycleOnTasksExhausted: false` the task limit masks the memory signals (`OptOutMasksIff`, `MaskedForGood`).
- An affinity key bypasses the dispatch strategy and the priority of fresh workers (`AffinityOverridesFresh`,
  `FreshFirstIff`, `FreshPassedOver`).
- The gate of a resize ignores resizes under way, so two of them are enough to leave the band (`BandByOverlap`,
  `OverlapExceedsBand`, `BandHoldsIff`).

## Model

| member | source | states |
|---|---|---|
| `Streams.ExactDelivery` | src/streaming.js:141-268 | in every run delivered ++ buffered is what was accepted, in order; a pull is told done or given an error only after all of it was delivered, and no chunk comes later |
| `Streams.AcceptedFrozen` | src/streaming.js:141-221 | once settled nothing more is accepted, whatever is called |
| `Streams.TerminalEventsOnce` | src/streaming.js:186-221 | `stream:aborted` at most once, `stream:end` and `stream:error` together at most once, in every run |
| `Streams.SilentAbortIff` | src/streaming.js:270-306 | in every run the stream is aborted without `stream:aborted` if and only if a `throw()` was what aborted it |
| `Streams.AbortStep` | src/streaming.js:141-341 | an operation that aborts the stream announces it exactly once, unless it is a throw; no other operation announces an abort |
| `Streams.PullAccounting` | src/streaming.js:237-268 | every pull is answered, parked, or was displaced; a pull displaces exactly when another is parked |
| `Streams.Hysteresis` | src/streaming.js:141-183 | the flag tells the side of the two marks; a `paused` lies between two `resumed`; resumed events times (HWM - HWM/2 + 1) are at most the chunks delivered |
| `Streams.ResumeReachableIff` | src/streaming.js:171-183 | some run emits `resumed` if and only if the high-water mark is at least 2 |
| `Streams.PausedIffCrossing` | src/streaming.js:141-158 | a push emits `paused` if and only if it crosses the mark upwards, backpressured already or not |
| `Streams.PausedRepeats` | src/streaming.js:143-156 | for every mark there is a run with two `paused` and no `resumed` between |
| `Streams.StepKept` | src/streaming.js:141-360 | every operation keeps the delivery, flow, swing and event invariants |
| `Streams.StepEmits` | src/streaming.js:141-360 | one operation emits at most one event, and the event agrees with how the backpressure flag, the settlement and the abort changed |
| `Streams.StepAccepts` | src/streaming.js:141-221 | only a push before the settlement accepts, settlement and abort are not taken back, and an end is recorded only by the `pushEnd` that settles |
| `Answers.EveryAnswer` | src/streaming.js:237-360 | in every run an answer is a chunk before the first one without, that first one is the verdict, decided by the first call that settles the stream or by the last `throw(e)`, and a later one is the error of a throw that no pull was made after, else done |
| `Answers.VerdictReached` | src/streaming.js:186-268 | a run is settled if and only if some call gave it a verdict, and then pulls get every chunk still buffered, in order, and the verdict next |
| `Answers.SettlementTold` | src/streaming.js:186-221 | the error of a `pushError` that finds the stream unsettled is what its consumer is told, parked or after the buffer; an end or an aborted end is told as done |
| `Answers.EventsTell` | src/streaming.js:186-221 | in every run `stream:end` was emitted if and only if a `pushEnd` settled the stream, `stream:error` with e if and only if a `pushError(e)` did |
| `Answers.ThrowsTwice` | src/streaming.js:295-306 | the error of a throw that answers a parked pull answers the next pull as well |
| `Streams.Stream.Create` | src/streaming.js:27-89 | a mark that is not positive is refused; an aborted signal aborts at once |
| `Streams.Stream.PushChunk` | src/streaming.js:141-158 | the method is the step `PushChunk` |
| `Streams.Stream.MaybeEmitResume` | src/streaming.js:171-183 | the method is the step `MaybeResume` |
| `Streams.Stream.PushEnd` | src/streaming.js:186-194 | the method is the step `PushEnd` |
| `Streams.Stream.PushAbortEnd` | src/streaming.js:197-205 | the method is the step `PushAbortEnd` |
| `Streams.Stream.PushError` | src/streaming.js:208-221 | the method is the step `PushError` |
| `Streams.Stream.Next` | src/streaming.js:237-268 | the method is the step `Next`, and returns its reply or parks |
| `Streams.Stream.Return` | src/streaming.js:276-289 | the method is the step `Return` |
| `Streams.Stream.Throw` | src/streaming.js:295-306 | the method is the step `Throw`, which emits no abort event |
| `Streams.Stream.Abort` | src/streaming.js:331-341 | the method is the step `SignalAbort` |
| `Streams.Stream.DeliverIfWaiting` | src/streaming.js:343-360 | the method is the step `Deliver` |
| `StreamRunner.FrameDiscipline` | src/stream-runner.js:161-227 | every run posts chunks 0..n-1 carrying the first n yields, then at most one closing frame, the last; a normal end only after all yields |
| `StreamRunner.ClosingFrameIff` | src/stream-runner.js:168-227 | the step that ends a run posts a closing frame if and only if it is neither a failed load nor a throw after the abort |
| `StreamRunner.SilentEndIff` | src/worker-thread-entry.js:99-181 | a finished run posted no closing frame if and only if its load failed or the generator threw after the abort |
| `Closings.ClosingTells` | src/stream-runner.js:111-227 | over every run an error frame with e was posted if and only if the function threw e at its start or the generator before any abort, a normal end if and only if it returned before any abort, an aborted end if and only if it returned or was closed after it |
| `Closings.AbortEnds` | src/stream-runner.js:146-227 | from every state of a run under way an abort ends it with the pending step and `return()` of the generator, without a further chunk |
| `StreamRunner.FinishedForGood` | src/stream-runner.js:211-227 | after the end nothing changes |
| `StreamRunner.NoChunkAfterAbort` | src/stream-runner.js:146-198 | once the abort flag is set no further chunk is posted |
| `StreamRunner.OneChunkPerPause` | src/stream-runner.js:58-83 | while the pause lasts at most the one chunk already cleared goes out |
| `StreamRunner.PauseController.Unpause` | src/stream-runner.js:69-75 | clears the flag and wakes every waiter exactly once |
| `StreamRunner.PauseController.WaitWhilePaused` | src/stream-runner.js:76-81 | parks the caller if and only if paused |
| `StreamRunner.Await` | src/stream-runner.js:146-187 | control messages that arrive at an await act on flag and waiters as the machine says, and post nothing |
| `StreamRunner.TakeTurn` | src/stream-runner.js:168-207 | one turn of the loop: the abort checks around the pause, the chunk and the next step, as the machine takes them |
| `StreamRunner.CloseRun` | src/stream-runner.js:211-226 | the closing frame after the loop, none for a throw after the abort |
| `StreamRunner.RunStream` | src/stream-runner.js:111-227 | the loop posts what the machine posts on the part of the schedule it used, and stops early only when the run is over |
| `StreamProtocol.ParkedMeansFull` | src/stream-runner.js:168-208 | in every run, a parked worker with no control message on the way means: backpressured, at least HWM/2 chunks buffered, never aborted |
| `StreamProtocol.DeliveredIsPrefix` | src/worker-handle.js:267-301 | in every run, what was delivered and buffered is a prefix of the generator's yields, and all of them when the end was pushed |
| `Closings.FrameArrives` | src/worker-handle.js:267-301 | in every run a chunk frame taken by an unsettled stream is accepted, an error frame with e frees the slot and is told to the consumer as e after the chunks before it, an end is told as done and recorded as an end unless aborted |
| `StreamProtocol.WedgeIff` | src/streaming.js:171-183 | a state where worker and consumer wait for each other with empty channels is reachable if and only if the high-water mark is 1 and the signal was not aborted from the start |
| `StreamProtocol.WedgedStays` | src/worker-handle.js:409-445 | no pull, frame, control message or worker step leaves it |
| `StreamProtocol.PullsWake` | src/worker-handle.js:425-445 | with a mark of at least 2, from every such parked state enough pulls send RESUME and clear the held chunk |
| `StreamProtocol.AbortLostIff` | src/streaming.js:270-306 | in every run, while the slot is held and the worker runs, the worker of an aborted stream has neither its abort flag nor an ABORT on the way if and only if the signal was aborted before the stream was made, a `throw()` aborted the stream, or ABORT arrived before the run began |
| `StreamProtocol.AbortedSignalLoses` | src/streaming.js:82-88 | the first cause is reached, as soon as the worker has begun |
| `StreamProtocol.RunsForNobody` | src/worker-runtime.js:1131-1171 | under it, in every run, the worker is never paused, parked or told to stop, and no chunk reaches the consumer |
| `StreamProtocol.ThrowLoses` | src/streaming.js:295-306 | the second cause is reached |
| `StreamProtocol.EarlyAbortLoses` | src/worker-thread-entry.js:186-191 | the third cause is reached |
| `StreamProtocol.LostForGood` | src/worker-handle.js:409-416 | a lost abort reaches the worker in no continuation |
| `StreamProtocol.StrandedStays` | src/stream-runner.js:186-198 | a parked worker of a stream aborted without its knowledge stays as it is under every move except a pull, and with a mark of 1 under pulls too |
| `StreamProtocol.StrandedIff` | src/streaming.js:171-183 | some continuation moves it if and only if the mark is at least 2 |
| `StreamProtocol.StrandingRun` | src/streaming.js:295-306 | such a state is reached for every mark: the buffer fills, the worker parks, the consumer throws |
| `StreamProtocol.SlotHeldForGoodIff` | src/worker-handle.js:267-301 | once the run is over, the stream slot of the handle stays taken in every continuation if and only if no closing frame was posted, that is if and only if some move was a failed load or a throw after the abort |
| `StreamProtocol.LoadFailureHangs` | src/worker-thread-entry.js:170-181 | after a failed load, in any run, the slot is never freed, and the consumer of an unsettled stream gets no answer until it gives up |
| `StreamProtocol.SlotHeldAfterThrow` | src/stream-runner.js:219-226 | after a throw that followed the abort, in any run, the slot is never freed |
| `StreamProtocol.AbortedPullReached` | src/stream-runner.js:146-159 | a run in which such a throw can come exists for every mark |
| `StreamProtocol.StepKept` | src/worker-thread-entry.js:186-201 | every move keeps the channel, data and control invariants; with an empty control channel the worker's flag is the stream's |
| `TaskQueues.AlwaysSorted` | src/task-queue.js:150-167 | in every run the list is ordered by priority descending and arrival ascending |
| `TaskQueues.DequeueBest` | src/task-queue.js:110-148 | `dequeue` returns the best eligible task, nothing exactly when none is eligible, and to a dedicated worker never a task pinned elsewhere |
| `TaskQueues.BoundedAdmission` | src/task-queue.js:57-102 | never more than the bound, and waiters only while the queue is full |
| `TaskQueues.NoBarging` | src/task-queue.js:57-102 | what was let in was enqueued before everything that still waits; waiters are in call order |
| `TaskQueues.OnePlace` | src/task-queue.js:57-200 | every enqueued task is queued, waiting, dequeued or turned away, and only one of these |
| `TaskQueues.TurnedAwaySettled` | src/task-queue.js:84-200 | whatever timed out, was abandoned or destroyed has a settled task |
| `QueueSteps.EnqueueTells` | src/task-queue.js:57-102 | a settled task is ignored; another is queued if and only if there is room, and else waits last |
| `QueueSteps.AdmitsUnsettled` | src/task-queue.js:169-182 | no call lets a settled task into the queue |
| `QueueSteps.TimeoutTells` | src/task-queue.js:84-98 | a timeout turns away and settles its waiter, and the others keep their places |
| `QueueSteps.DestroyTells` | src/task-queue.js:187-200 | destroying leaves nothing queued or waiting and settles all of it |
| `QueueSteps.DequeueServes` | src/task-queue.js:110-148 | a worker with an unsettled task of its key gets one; else a dedicated one gets a task without a key, any other any task; nothing if and only if there is none |
| `QueueSteps.AnyoneServed` | src/task-queue.js:110-148 | without a worker the first unsettled task is dequeued |
| `TaskQueues.SettledBlock` | src/task-queue.js:118-127 | a queue answers every sequence of `dequeue` calls with nothing and lets no waiter in if and only if it holds settled tasks only |
| `TaskQueues.SettledBlockReached` | src/task-queue.js:118-143 | such a queue is reachable |
| `TaskQueues.TaskQueue.InsertSorted` | src/task-queue.js:150-160 | the insertion loop is `Insert` |
| `TaskQueues.TaskQueue.Enqueue` | src/task-queue.js:57-102 | the method is the step, and says whether the task was ignored, admitted or made to wait |
| `TaskQueues.TaskQueue.Dequeue` | src/task-queue.js:110-148 | the two searches return the task `Select` finds |
| `TaskQueues.TaskQueue.DrainWaiters` | src/task-queue.js:169-182 | the loop turns settled waiters away and promotes the first that is still wanted |
| `TaskQueues.TaskQueue.ExpireWaiter` | src/task-queue.js:84-98 | a waiter that times out leaves and its task is rejected |
| `TaskQueues.TaskQueue.Destroy` | src/task-queue.js:187-200 | everything waiting or queued is rejected |
| `LeaseTable.BecomesPendingIff` | src/queue/sqlite-backend.js:255-277 | a transaction makes an id pending if and only if it enqueues it, or reclaims it with budget left |
| `LeaseTable.FailedStays` | src/queue/sqlite-backend.js:255-277 | a failed row never returns to pending unless its id is enqueued again |
| `LeaseTable.LeavesIff` | src/queue/sqlite-backend.js:660-727 | an id leaves the table if and only if `markDone` deletes it or a vacuum removes its old failed row |
| `LeaseTable.NothingLost` | src/queue/sqlite-backend.js:660-727 | over any log, across instances and crashes, an id that is gone was removed in one of these two ways |
| `LeaseTable.ClaimsExclusive` | src/queue/sqlite-backend.js:529-588 | between two claims of one id by any instances there is a new enqueue or a reclaim of it, and a reclaim not before the lease ran out |
| `LeaseTable.AlwaysLeased` | src/queue/sqlite-backend.js:572-581 | every claimed row carries a lease expiry |
| `LeaseTable.RetryBudget` | src/queue/sqlite-backend.js:227-293 | without re-enqueue a row with a attempts and m retries is claimed at most max(0, m - a) + 1 times, and pending rows keep attempt at most max(a, m) |
| `LeaseTable.BudgetReached` | src/queue/sqlite-backend.js:227-293 | that bound is reached from every pending row |
| `Lifecycles.LifecycleIff` | src/queue/sqlite-backend.js:239-293 | a row comes to be pending by an enqueue or a reclaim within budget, processing by a claim, failed by `markFailed` whatever it was, by quarantine, by a purge while pending or by a reclaim beyond budget, and in no other way |
| `Lifecycles.OthersKept` | src/queue/sqlite-backend.js:572-581 | a row that no transaction moves or rewrites is the same row |
| `Lifecycles.PresenceIff` | src/queue/sqlite-backend.js:660-727 | an id enters by an enqueue and leaves by `markDone` or as a failed row last changed before the cutoff |
| `Lifecycles.EnvelopeStands` | src/queue/sqlite-backend.js:445-456 | over any log a row has the priority, affinity and budget of the last enqueue of its id, a conflict included, and its attempts plus one for each lapsed claim since |
| `Lifecycles.PlaceStands` | src/queue/sqlite-backend.js:445-456 | over any log an id keeps its enqueue time as long as it stays in the table |
| `Lifecycles.StampTells` | src/queue/sqlite-backend.js:717-727 | the stamp of a row is the time of its last change |
| `Lifecycles.FailedForGood` | src/queue/sqlite-backend.js:678-707 | over any legal log, after a `markFailed` of an id, whatever its row was, it is neither pending nor processing nor claimed until its next enqueue |
| `Lifecycles.MarkFailedTells` | src/queue/sqlite-backend.js:694-696 | `markFailed` fails the row of its id and changes no other |
| `SqliteQueue.OpenRecovers` | src/queue/sqlite-backend.js:191-331 | opening loses no id, handles and count are exactly the readable rows that were pending or claimed under an expired lease with budget left, and no row stays claimed if and only if every lease found had run out |
| `SqliteQueue.ReenqueueKeepsPlace` | src/queue/sqlite-backend.js:445-456 | enqueuing a pending id again at its priority keeps its place among all rows |
| `DurableSteps.EnqueueTells` | src/queue/sqlite-backend.js:388-402 | a closed queue rejects the task, a settled task is ignored, another is queued with a handle if and only if the table has room and else waits last |
| `DurableSteps.ClaimTells` | src/queue/sqlite-backend.js:572-614 | a chosen row is handed out if and only if it has a handle or can be read, then claimed until now + leaseMs and else failed; its handle is gone and no other row changes but those of waiters let in |
| `DurableSteps.NothingHanded` | src/queue/sqlite-backend.js:567-570 | a `dequeue` that finds nothing changes no row, handle, waiter or count |
| `DurableSteps.MarksTell` | src/queue/sqlite-backend.js:660-707 | `markFailed` fails the row of its id, `markDone` removes it, and both leave other rows, handles and waiters alone |
| `DurableSteps.ReclaimTells` | src/queue/sqlite-backend.js:239-293 | the sweep is committed and makes no handles |
| `DurableSteps.SweepsTell` | src/queue/sqlite-backend.js:717-795 | a purge fails exactly the pending rows, a vacuum drops exactly the failed ones older than the cutoff |
| `DurableSteps.PeekTells` | src/queue/sqlite-backend.js:364-375 | `peek` fails the row at the head if and only if it has no handle and cannot be read |
| `DurableSteps.TurnedAway` | src/queue/sqlite-backend.js:757-776 | a timeout or `destroy` settles the waiters it turns away and changes no row |
| `DurableSteps.ClosedKeepsRows` | src/queue/sqlite-backend.js:757-776 | whatever is called on a closed queue, nothing changes but who is settled: its rows stay for the next instance |
| `DurableSteps.SettledTells` | src/queue/sqlite-backend.js:388-402 | a call settles exactly the rejected newcomer, the waiters it turns away, and whom it is told about |
| `DurableSteps.StatementIff` | src/queue/sqlite-backend.js:541-565 | the shared statement gets its flavour from the first call that finds no task pinned to its worker |
| `DurableSteps.FailDriftsIff` | src/queue/sqlite-backend.js:678-707 | `markFailed` makes the count drift if and only if the row was pending and the count not positive |
| `DurableSteps.PurgeCounts` | src/queue/sqlite-backend.js:786-795 | a purge that finds nothing changes nothing; else the count loses what was purged, but stops at zero |
| `DurableSteps.HandlesGiven` | src/queue/sqlite-backend.js:584-588 | in every run no claimed row has a handle left |
| `DurableSteps.ResultIsFinal` | src/queue/sqlite-backend.js:660-707 | in every run, after `markFailed` or `markDone` of an id it is neither pending nor processing again unless it is enqueued again |
| `DurableSteps.FailedAfterClaim` | src/queue/sqlite-backend.js:678-707 | so for a task enqueued, claimed and marked failed, however its lease ends |
| `SqliteQueue.DrainEnds` | src/queue/sqlite-backend.js:479-506 | after draining a waiter waits only for the cached count or for the table; one that finds the table full while the count has room goes to the end of the line |
| `SqliteQueue.DrainKeepsOrderIff` | src/queue/sqlite-backend.js:479-506 | what waits after draining is the end of the line that waited before if and only if the loop does not stop at a wanted waiter, with a different one behind it, while the count has room and the table not |
| `SqliteQueue.RearmsIff` | src/queue/sqlite-backend.js:729-741 | for waiters new to the table the loop stops so if and only if the count is below the bound and below the pending rows, and the first wanted waiter beyond the room in the table is not the last in line |
| `SqliteQueue.ExactKeepsOrder` | src/queue/sqlite-backend.js:729-741 | with an exact count the order of the waiters is kept |
| `SqliteQueue.RearmReached` | src/queue/sqlite-backend.js:479-506 | a single-instance run from an empty table in which the first of three waiters is let in and the other two end up in reverse |
| `SqliteQueue.OvertakesIff` | src/queue/sqlite-backend.js:388-402 | a newcomer enters if and only if it is wanted and the table has room, waiters or not; it leaves them all waiting if and only if the count is then full, or the first of them is wanted and the table is then full |
| `SqliteQueue.OvertakeReached` | src/queue/sqlite-backend.js:678-707 | a single-instance run in which a newcomer takes the place a waiter waits for |
| `SqliteQueue.BoundBrokenIff` | src/queue/sqlite-backend.js:239-293 | one operation takes the pending rows beyond the bound and beyond their number before if and only if it is a reclaim that puts back more than there is room for |
| `SqliteQueue.BoundBrokenReached` | src/queue/sqlite-backend.js:239-293 | with room for one and a lease of any length a run reaches two pending rows |
| `SqliteQueue.BoundKept` | src/queue/sqlite-backend.js:421-434 | in every run without a reclaim the pending rows stay within the bound, or within their number at the start |
| `SqliteQueue.RoomLeftIff` | src/queue/sqlite-backend.js:660-795 | an operation first makes tasks wait while there is room if and only if it takes away a pending row by `markDone` or `markFailed`, or purges |
| `SqliteQueue.WaitOnlyWhenFull` | src/queue/sqlite-backend.js:388-506 | in every run without these three, tasks wait only while there is no room |
| `SqliteQueue.EmptyTableBlocks` | src/queue/sqlite-backend.js:529-570 | with no row pending no sequence of `dequeue` calls lets a waiter in |
| `SqliteQueue.RoomLeftReached` | src/queue/sqlite-backend.js:678-707 | a run reaches that: the queued task fails, nothing is pending or counted, and the next in line waits on |
| `SqliteQueue.CountNeverAbove` | src/queue/sqlite-backend.js:421-470 | in every single-instance run with an advancing clock that starts on readable rows the cached count is at most the pending rows |
| `SqliteQueue.CountExact` | src/queue/sqlite-backend.js:421-470 | it equals them in such runs without `markDone` that enqueue only ids new to the table and to the waiters |
| `SqliteQueue.OpenExact` | src/queue/sqlite-backend.js:191-331 | opening on a table of readable rows is such a start |
| `SqliteQueue.ReclaimCountIff` | src/queue/sqlite-backend.js:271-293 | the reclaim count is right if and only if no other pending row carries the sweep's time stamp |
| `SqliteQueue.StampReached` | src/queue/sqlite-backend.js:271-293 | a run with an enqueue and a sweep in one millisecond counts three rows where two are pending |
| `SqliteQueue.InsertDriftsIff` | src/queue/sqlite-backend.js:435-468 | an insert makes the count drift if and only if it revives a row that was not pending |
| `SqliteQueue.ReviveReached` | src/queue/sqlite-backend.js:435-468 | a run does so: one pending row, none counted |
| `SqliteQueue.DoneDriftsIff` | src/queue/sqlite-backend.js:660-668 | `markDone` makes it drift if and only if the row was not pending, or pending and not counted |
| `SqliteQueue.DoneReached` | src/queue/sqlite-backend.js:660-668 | a run does so: a claimed task is done while another is queued, which is then not counted |
| `SqliteQueue.PeekDriftsIff` | src/queue/sqlite-backend.js:364-375 | `peek` makes it drift if and only if it quarantines a row without a handle |
| `SqliteQueue.PeekReached` | src/queue/sqlite-backend.js:364-375 | a run does so, from a table with an unreadable claimed row whose lease runs out: one counted, none pending |
| `SqliteQueue.KeepsPinsIff` | src/queue/sqlite-backend.js:554-563 | dedicated workers only claim unpinned tasks and their own if and only if the shared statement was not prepared by a general one |
| `SqliteQueue.PinTakenReached` | src/queue/sqlite-backend.js:554-563 | a run from an empty table hands a task pinned elsewhere to a dedicated worker |
| `SqliteQueue.ServesAllIff` | src/queue/sqlite-backend.js:554-563 | general workers find a task whenever one is pending if and only if it was not prepared by a dedicated one |
| `SqliteQueue.Database.Commit` | src/queue/sqlite-backend.js:421-466 | a transaction changes the table as one step and keeps the log legal, so the theorems about logs hold of every shared database |
| `SqliteQueue.Database.SelectBest` | src/queue/sqlite-backend.js:546-565 | the ordered SELECT returns a row no other candidate precedes |
| `SqliteQueue.SqliteTaskQueue.constructor` | src/queue/sqlite-backend.js:191-221 | construction is `Open`: reclaim, then rebuild the handles |
| `SqliteQueue.SqliteTaskQueue.RecoverPending` | src/queue/sqlite-backend.js:295-331 | the loop quarantines the unreadable pending rows and takes in exactly the others |
| `SqliteQueue.SqliteTaskQueue.ReclaimExpired` | src/queue/sqlite-backend.js:239-293 | the method is the step `AfterReclaim` |
| `SqliteQueue.SqliteTaskQueue.Insert` | src/queue/sqlite-backend.js:421-470 | inserts if and only if the table has room, then lets waiters in |
| `SqliteQueue.SqliteTaskQueue.DrainWaiters` | src/queue/sqlite-backend.js:729-741 | the loop and its re-entry through `#insert` are `Drain` |
| `SqliteQueue.SqliteTaskQueue.Enqueue` | src/queue/sqlite-backend.js:388-402 | the method is the step `AfterEnqueue` |
| `SqliteQueue.SqliteTaskQueue.SelectNext` | src/queue/sqlite-backend.js:541-565 | the two SELECTs return a best candidate, and the first caller fixes the shared statement |
| `SqliteQueue.SqliteTaskQueue.ClaimSelected` | src/queue/sqlite-backend.js:572-614 | the selected row is claimed with a lease; without a handle and unreadable it is quarantined instead of handed out |
| `SqliteQueue.SqliteTaskQueue.Dequeue` | src/queue/sqlite-backend.js:529-619 | the method is the step `AfterDequeue` for a choice the SELECTs may make |
| `SqliteQueue.SqliteTaskQueue.MarkDone` | src/queue/sqlite-backend.js:660-668 | the method is the step `AfterMarkDone` |
| `SqliteQueue.SqliteTaskQueue.MarkTaskFailed` | src/queue/sqlite-backend.js:678-707 | the method is the step `AfterMarkFailed` |
| `SqliteQueue.SqliteTaskQueue.VacuumCompleted` | src/queue/sqlite-backend.js:717-727 | the method is the step `AfterVacuum` |
| `SqliteQueue.SqliteTaskQueue.PurgePending` | src/queue/sqlite-backend.js:786-795 | the method is the step `AfterPurge` |
| `SqliteQueue.SqliteTaskQueue.Destroy` | src/queue/sqlite-backend.js:757-776 | drops the volatile part and rejects the waiters, leaves the table alone |
| `QueueRefinement.DurableRefinesMemory` | src/queue/sqlite-backend.js:529-588 | for new ids, room, an advancing clock and workers of one kind, the durable queue gives every history of calls the answers of the in-memory queue |
| `QueueRefinement.SameChoiceIff` | src/queue/sqlite-backend.js:541-570 | from corresponding states both queues answer alike if and only if the statement has the caller's flavour, or a task is pinned to the caller, or the first task is not pinned |
| `QueueRefinement.MixedWorkersDiffer` | src/queue/sqlite-backend.js:333-340 | after a dedicated worker found nothing, a general one is refused a pinned task that the in-memory queue hands out |
| `QueueRefinement.StepSim` | src/task-queue.js:110-148 | every call keeps the correspondence of list and table, and its two answers agree |
| `Workers.OneOutcomeEach` | src/worker-handle.js:200-319 | over all interleavings each started task leaves the slot exactly once, in order, and all have left when the thread is gone |
| `Outcomes.DepartsIff` | src/worker-handle.js:200-319 | a reply of success, another message naming the task, the exit and a kill each give the task in the slot their own outcome, and nothing else takes one out |
| `Outcomes.OutcomesTell` | src/worker-handle.js:200-319 | in every run each departure was made by a step of its kind with that task in the slot: success by a reply of success, crash by the exit, preemption by a kill |
| `Outcomes.SettledIff` | src/worker-handle.js:237-256 | in every run a task is settled if and only if it succeeded, crashed or was preempted here or was settled elsewhere, and the count of completions is that of the results |
| `Outcomes.StartsIff` | src/worker-handle.js:326-363 | a task starts if and only if it comes unsettled to an idle worker, and is timed if and only if it may be killed |
| `Outcomes.TimersRightly` | src/worker-handle.js:467-516 | in every run only a task that may be killed is timed and only one with a grace period warned |
| `Outcomes.StreamsIff` | src/worker-handle.js:267-400 | a stream starts if and only if it comes to an idle worker and is closed if and only if its end or error comes from a live thread |
| `Workers.SlotsExclusive` | src/worker-handle.js:326-400 | task and stream slot are never both full, idle means both empty, busy means one full |
| `Workers.TimersWatchCurrent` | src/worker-handle.js:467-516 | at most one timer is armed, for the task in the slot; an unsettled task that may be killed is never without one until the thread is terminated |
| `Workers.WatchdogKills` | src/worker-handle.js:489-580 | the watchdog of an unsettled task ends in its preemption, after the grace period if it has one |
| `Workers.PreemptedForGood` | src/worker-handle.js:528-580 | after a preemption the worker is never idle again, nothing starts and nothing leaves |
| `Workers.StreamLeftOpenIff` | src/worker-handle.js:303-319 | the exit settles every task; a stream in flight stays open for ever |
| `Workers.RetireDrainsIff` | src/worker-handle.js:630-666 | retiring terminates the worker when its work is done if and only if it has a task or is idle; with a stream, or while starting, it ends idle |
| `Workers.RetiredLingers` | src/worker-handle.js:447-462 | and is then terminated by nothing but a termination, a retirement or new work |
| `Workers.DrainingShowsIdle` | src/worker-handle.js:200-219 | a draining worker shows as idle to the listeners of its task's settlement |
| `Statuses.TerminateTells` | src/worker-handle.js:671-682 | terminating disarms the timers and takes the thread, a worker being preempted keeps that status, and a second call reports terminated at once |
| `Statuses.TerminatedIff` | src/worker-handle.js:676-681 | the handle is detached when the thread it waits for is gone, and not before |
| `Statuses.LeavingForGood` | src/worker-handle.js:200-223 | a worker on its way out that has said it is ready is idle in no continuation and takes nothing in |
| `Statuses.ComesBack` | src/worker-handle.js:179-188 | recycled, retired or terminated before that, it is idle when it says so and takes a task |
| `Statuses.MarkIff` | src/worker-handle.js:156-161 | marking is refused only by a worker that is terminating or terminated |
| `Statuses.RetireTells` | src/worker-handle.js:630-666 | retiring a starting or busy worker drains it, twice like once; an idle one is terminated; any other is left alone |
| `Statuses.NextTaskRetires` | src/worker-handle.js:630-666 | a worker that outlived its retirement is terminated when its next task settles |
| `Workers.StepKept` | src/worker-handle.js:170-319 | every step keeps the invariant of history, slots, timers and phases |
| `Workers.WorkerHandle.OnReady` | src/worker-handle.js:179-188 | the ready message makes the worker idle, whatever its status |
| `Workers.WorkerHandle.OnFrame` | src/worker-handle.js:200-301 | a message that names the current task settles it and runs waiting retirements; a closing frame frees the stream slot |
| `Workers.WorkerHandle.OnExit` | src/worker-handle.js:303-319 | the exit rejects the task in the slot and reports the status before it |
| `Workers.WorkerHandle.ExecuteTask` | src/worker-handle.js:326-363 | refused unless idle, skipped when settled, else the slot is taken and the watchdog armed |
| `Workers.WorkerHandle.ExecuteStreamTask` | src/worker-handle.js:379-400 | refused unless idle with an empty stream slot |
| `Workers.WorkerHandle.TeardownStream` | src/worker-handle.js:447-462 | the slot is freed, and the status is idle unless the worker is on its way out |
| `Workers.WorkerHandle.SetRecycling` | src/worker-handle.js:156-161 | marks the worker unless it is terminating or terminated |
| `Workers.WorkerHandle.OnWatchdog` | src/worker-handle.js:489-515 | the watchdog warns or preempts, or does nothing for a task that is settled or gone |
| `Workers.WorkerHandle.OnGrace` | src/worker-handle.js:506-509 | the end of the grace period preempts |
| `Workers.WorkerHandle.Preempt` | src/worker-handle.js:528-536 | preempts the current task, if any, once |
| `Workers.WorkerHandle.PreemptWorker` | src/worker-handle.js:542-580 | empties the slot, rejects the task and marks the worker |
| `Workers.WorkerHandle.Retire` | src/worker-handle.js:630-666 | no-op, terminate, or drain, by status |
| `Workers.WorkerHandle.Terminate` | src/worker-handle.js:671-682 | clears the timers and waits for the thread; a second call reports terminated at once |
| `Workers.WorkerHandle.OnTerminated` | src/worker-handle.js:676-681 | once the thread is gone the status is terminated and the handle detached |
| `Supervisors.Capacity` | src/supervisor.js:505-795 | in every run the workers that count are alive and number target + grows - retires plus one per cause beyond the first of a worker: never fewer, and exactly that many if and only if every worker departs for one cause |
| `Supervisors.SecondReplacementIff` | src/supervisor.js:757-795 | a departing worker is replaced again at its exit if and only if it was preempted or is neither recycling nor terminating |
| `Supervisors.RecycledThenPreempted` | src/supervisor.js:642-795 | recycled while its task runs, then preempted: one worker too many |
| `Supervisors.RetiredThenCrashed` | src/supervisor.js:535-570 | retired while its task runs, then crashed: the retirement is undone |
| `Supervisors.LowestIs` | src/supervisor.js:538-557 | nobody is chosen if and only if nobody is retirable; otherwise the first with the fewest completions |
| `Supervisors.StepKept` | src/supervisor.js:505-795 | every step keeps the marks of departing workers and the balance of spawns and causes |
| `Recyclings.CheckIff` | src/supervisor.js:582-660 | a check recycles if and only if the worker is general, at its task limit without the opt-out or below it with a memory signal, rested and not on its way out; it warns if and only if the limit is reached under the opt-out for the first time |
| `Recyclings.LimitRecycles` | src/supervisor.js:587-668 | the message that settles the last task allowed recycles the worker then and there |
| `Recyclings.FinishTells` | src/supervisor.js:668-716 | the end of a recycling terminates its worker, uses up one pending recycling and touches nobody else |
| `Recyclings.ExitForgets` | src/supervisor.js:739-795 | the exit takes the worker out of the pool and forgets its date and warning, and no other |
| `Recyclings.RetireTells` | src/supervisor.js:535-570 | a retirement takes its worker out of the pool, and no other |
| `Recyclings.RetiresLeast` | src/supervisor.js:538-557 | nobody is retired if and only if no general worker is starting, idle or busy; else one with the fewest completed tasks |
| `Supervisors.RecyclesSpaced` | src/supervisor.js:596-660 | two recyclings of one worker are at least the interval apart, and the exhaustion warning comes at most once per worker |
| `Supervisors.RecycledBusyIff` | src/supervisor.js:798-826 | a recycling decision leaves its worker with a task in the slot if and only if a check other than that of a settling task took it while one ran |
| `Supervisors.RecycleCrashIff` | src/supervisor.js:642-716 | if the worker neither answers nor is killed until its replacement is ready, whatever the others do, its termination crashes a task if and only if one ran at the decision |
| `Supervisors.BusyRecycleReached` | src/supervisor.js:582-653 | a pool reaches such a decision with a task running |
| `Supervisors.OptOutMasksIff` | src/supervisor.js:586-632 | with a memory signal and nothing else in the way a worker is recycled if and only if the opt-out is off or its task limit is not reached |
| `Supervisors.MaskedForGood` | src/supervisor.js:613-632 | under the opt-out no recycling of a worker past its limit is recorded in any continuation |
| `Supervisors.OutcomesSurvive` | src/supervisor.js:582-795 | whatever the pool decides, each task any worker started left its slot exactly once, and none is left in a dead worker |
| `Supervisors.SettledHandle` | src/supervisor.js:798-826 | a recycle decision taken by the listener of a settling task leaves the handle as one taken right after |
| `Dispatch.RoundRobin` | src/supervisor.js:440-491 | with the same n idle, general, used workers any n consecutive dispatches are a permutation of them |
| `Strategies.CandidatesAre` | src/supervisor.js:412-424 | the candidates are the idle general workers in the order of the pool |
| `Strategies.StrategyPicks` | src/supervisor.js:440-491 | of used candidates `fifo` picks the first, `random` the one drawn, `lru` the one after the last dispatched, and the cursor goes there |
| `Strategies.DedicatedServed` | src/supervisor.js:395-411 | a ready dedicated worker is returned for a key that names nobody else if and only if the key is its affinity or its name |
| `Dispatch.FreshFirst` | src/supervisor.js:440-450 | under every strategy the earliest worker without completions is picked first |
| `Dispatch.AffinityOverridesFresh` | src/supervisor.js:401-411 | a named idle worker, else an unpinned one, is returned for an affinity key without asking the strategy or moving its cursor |
| `Dispatch.FreshFirstIff` | src/supervisor.js:401-450 | the first fresh worker is the answer if and only if there is no key, or it is the first idle one the key names, or the key names none and it is the first idle unpinned one or there is none |
| `Dispatch.FreshPassedOver` | src/supervisor.js:408-411 | of two idle unpinned workers the used first one gets a task with a key, the fresh second one a task without |
| `Dispatch.PairReached` | src/supervisor.js:408-411 | such a pool is reached |
| `Dispatch.DedicatedOnlyOnMatch` | src/supervisor.js:395-424 | the worker returned is idle, and a dedicated one only if the task's key is its affinity or name |
| `Dispatch.NoWorkerIff` | src/supervisor.js:395-424 | no worker is returned if and only if every idle one is dedicated and not named by the task |
| `Pool.Supervisor.constructor` | src/supervisor.js:371-388 | the pool is filled up to its target |
| `Pool.Supervisor.SpawnWorker` | src/supervisor.js:729-737 | a new worker with a new id at the end of the pool |
| `Pool.Supervisor.SpawnIdleWorker` | src/supervisor.js:505-509 | the step that grows the pool |
| `Pool.Supervisor.CreateDedicatedWorker` | src/supervisor.js:830-835 | a dedicated worker, which capacity does not count |
| `Pool.Supervisor.OnExit` | src/supervisor.js:739-795 | the exit handler is `Exit`, and says whether it spawns a replacement |
| `Pool.Supervisor.CheckRecycling` | src/supervisor.js:582-660 | the cascade of guards is `Decide`, its effect `Check` |
| `Pool.Supervisor.BeginRecycling` | src/supervisor.js:642-668 | the worker is marked, dated and its replacement spawned |
| `Pool.Supervisor.FinishRecycling` | src/supervisor.js:668-716 | the old worker is terminated once per recycling |
| `Pool.Supervisor.OnMessage` | src/supervisor.js:803-826 | a settling task is checked for recycling before any retirement acts |
| `Pool.Supervisor.LowestLoad` | src/supervisor.js:538-557 | the loop finds the first retirable worker with the fewest completions |
| `Pool.Supervisor.RetireLowestLoadWorker` | src/supervisor.js:535-570 | that worker leaves the pool and is retired |
| `Pool.Supervisor.PickLru` | src/supervisor.js:481-491 | the one after the last dispatched, or the first |
| `Pool.Supervisor.PickByStrategy` | src/supervisor.js:440-468 | the pick, and the cursor it leaves |
| `Pool.Supervisor.FindWorkerForTask` | src/supervisor.js:395-424 | the searches return what module Dispatch specifies |
| `Adaptive.StaysInHull` | src/adaptive-controller.js:176-185 | the average never leaves the hull of its start and its samples |
| `Adaptive.GapShrinks` | src/adaptive-controller.js:176-185 | under samples of at least s the gap below s shrinks by the factor 1 - alpha each tick |
| `Adaptive.RemainingIs` | src/adaptive-controller.js:176-185 | what is left of a gap g after n ticks is (1 - alpha)^n * g |
| `Adaptive.TicksSuffice` | src/adaptive-controller.js:176-185 | a closed form for a number of ticks that brings any gap below any room |
| `Adaptive.ClassifyMonotone` | src/adaptive-controller.js:463-479 | more load never turns shrink into anything else, less load never turns grow into anything else |
| `Adaptive.ClassifyIff` | src/adaptive-controller.js:463-479 | shrink if and only if either signal is above its threshold, grow if and only if both are below theirs and neither shrinks, hold otherwise or without samples |
| `Adaptive.FiresIffStreak` | src/adaptive-controller.js:361-390 | a tick fires if and only if the run of equal directions it ends has a length divisible by the threshold |
| `Adaptive.FiresApart` | src/adaptive-controller.js:361-390 | two fires are at least the threshold apart |
| `Adaptive.StartsIff` | src/adaptive-controller.js:617-624 | a tick starts a resize if and only if the run of equal directions it ends is divisible by the threshold, resizing is enabled and the size is inside that bound; and one of that kind |
| `Adaptive.SustainedLoadShrinks` | src/adaptive-controller.js:720-737 | from any state, with utilization at least s above the threshold, a shrink fires within k + debounceTicks ticks, k with (1 - alpha)^k * gap < s - threshold |
| `Adaptive.ResponseTime` | src/adaptive-controller.js:720-737 | the same with that k in closed form |
| `Adaptive.SustainedLatencyShrinks` | src/adaptive-controller.js:720-737 | the same for latency at least s above its threshold, at whatever utilization |
| `Adaptive.LatencyResponseTime` | src/adaptive-controller.js:720-737 | and with the k in closed form |
| `Adaptive.SustainedIdleGrows` | src/adaptive-controller.js:463-479 | with thresholds that do not overlap, both signals below theirs for k + debounceTicks ticks fire a grow |
| `Adaptive.BandByOverlap` | src/adaptive-controller.js:617-624 | with at most p resizes under way the size is off the band by at most p - 1 |
| `Adaptive.OverlapExceedsBand` | src/adaptive-controller.js:617-624 | that bound is reached for every p, above and below, in a run with at most p resizes under way, from every start with room on that side |
| `Adaptive.BandHoldsIff` | src/adaptive-controller.js:617-825 | the size stays in [min, max] in every run with at most p resizes under way if and only if p is at most 1, or resizing is disabled, or min is max |
| `Adaptive.SizeTells` | src/adaptive-controller.js:759-825 | in every run the size is the initial one plus the grows less the shrinks that came back with a worker |
| `Adaptive.BandKept` | src/adaptive-controller.js:617-825 | the size stays in [min, max] in every run where each resize settles within the debounce window |
| `Adaptive.Ewma.Update` | src/adaptive-controller.js:176-185 | the first sample is taken as it is, later ones are mixed in |
| `Adaptive.DebounceCounter.Note` | src/adaptive-controller.js:361-390 | counts equal directions, fires at the threshold, then starts again from 0 |
| `Adaptive.AdaptiveController.TickOnce` | src/adaptive-controller.js:720-737 | sample, classify, note, and the gated resize of a fire |
| `Adaptive.AdaptiveController.ResizeSettled` | src/adaptive-controller.js:759-825 | only a resize that returned a worker id changes the size |
| `Adaptive.CreateAdaptiveController` | src/adaptive-controller.js:496-582 | a controller is made if and only if the band, the smoothing factor and the threshold are acceptable |

## Left out

- Shutdown of the pool, restarts after it, and its clearing of timers: runs are those of a started pool.
- A spawn that throws and a worker that never becomes ready: a spawned worker counts from its spawn, as in the source.
- `src/worker-runtime.js` is not part of this model; its wiring is assumed as stated above. Streams that wait for a worker
  are left out too: those aborted while they wait are dropped there.
- The supervisor's poll loop: its body is the steps `OpCheck` and `OpHandle(OpPreempt)` per worker, in any order.
- The accumulation rate and the memory readings: `Seen` says only whether they are over their bounds.
- Pool.Supervisor: its workers are values in a map, not objects; aliasing between the pool and a retired handle is by id.
- Workers whose ids collide through `options.id`.
- Timers and clocks: a timer fires at any time while armed, a clock reading is a parameter.
- Reason strings, return values of generators, statistics, listeners of `Stream.on`, memory events and snapshots.
- Signal listeners after construction are the step `SignalAbort`; ABORT, PAUSE and RESUME posts are in `StreamProtocol`.
- The affinity index of the in-memory queue, which is written and never read.
- The SQL engine, WAL checkpoints, schema migration, JSON envelopes (a flag says whether one is readable), rows without a lease.
- `ROLLBACK` after an error of the database.
- Rounding of the averages: they are real numbers.
- The signal monitor, `ticksSinceResize` and the resize events; direct calls of `spawnWorker` and `retireLowestLoadWorker`, which bypass the gate.
- Randomness of the random strategy: the index drawn is a parameter.
- Easy members: error classes, event shims, `attempt`, pool sizing, dependency scanning.
