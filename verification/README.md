# skeino runs: a verified model

skeino serves LangGraph runs over HTTP. This project models the part of it that has to be
right under every interleaving, and proves what it is for: the event stream that a client
can leave and rejoin, the life of a run from its request to its last cleanup, the run
table that several workers write at once, and the maintenance that repairs what a dead
worker leaves behind.

`dafny verify dfyconfig.toml` checks everything.

| file | what it models |
|---|---|
| Common.dfy | ids, `Option`, `Result` |
| Frames.dfy | the frames of `sse.py`, and a client that decodes them by section 9.2.6 of the WHATWG HTML Living Standard |
| Delivery.dfy | one run's stream and one subscriber as a machine: publish, eviction, overflow, catch-up, close, and the drain's steps between awaits and yields |
| EventStream.dfy | `RunEventStream`, its queues and its subscriptions as classes changed in place, proved against Delivery |
| Resume.dfy | `Last-Event-ID`, `join_run_stream`, and the end-to-end resume theorems over Frames and Delivery |
| Retention.dfy | `RunStreamRegistry`, its stream map and its expiry queue |
| Lifecycle.dfy | one run: admission task, main task, finalizer, its row and its stream; one function per await |
| RunRegistry.dfy | `BackgroundRunRegistry` as a class over a value |
| Process.dfy | all runs of one thread in one process: both locks, registry, `cancel`, `wait`, shutdown |
| RunTable.dfy | the run rows of the stores under writes, heartbeats and sweeps of any number of workers |
| Heartbeat.dfy | how old the heartbeat of a live run can get |
| StuckThreads.dfy | the orphan sweep's release of threads, its retry sets, and the paged scan for stuck threads |
| IndexBuild.dfy | building the Postgres indexes from several processes |

How the concurrent parts are read. Code between two awaits (or yields) is one step. A
machine's steps are functions on a state, a run of it is a list of steps, and every main
theorem quantifies over all such lists. Cancellation is requested at any moment and lands
at the task's next step. `Process.EveryRunIsALife` says that each run of a process lives a
life of the machine in Lifecycle.dfy, so the theorems there hold of it. The graph is a source of events that ends in success, an
exception or a cancel. Other workers may finalize or delete a run's row between any two
steps; `RunTable.OthersMeddle` shows that this is all they can do to it.

Where the code and its documentation disagree, the model follows the code:

* `after_run` is documented as awaited exactly once (src/skeino/ops/runs.py:326-328). It
  is never awaited twice, but not at all if a run's first cancel lands while the row of
  its failed insert (or failed hand-off) is being undone (src/skeino/ops/runs.py:444-460).
  `Lifecycle.CleanupExactlyOnce` gives the exact condition, `CleanupCanBeSkipped` such a
  run from its request on.
* A stream is meant to end with its one terminal event, and the row to say the same. The
  run itself publishes one, last; but a graph may emit events of its own under any name,
  `end` and `error` included (src/skeino/ops/runs.py:651-654,
  src/skeino/streaming/runner.py:157-159), and a store that fails while a failure or a
  cancellation is recorded leaves the client told of it and the row as it was
  (src/skeino/ops/runs.py:1762-1820). `Lifecycle.OutcomeAgreement` says exactly when the
  first happens, and that only the second makes the two disagree; `GraphCanForgeTheEnd`
  and `BlindFailureDisagrees` are such runs.
* A hand-off that fails after it opened the run's stream leaves it mapped and open
  (src/skeino/ops/runs.py:375-378, 454-460): `Lifecycle.StreamCanBeOrphaned`, and the
  exact condition in `OutcomeAgreement`. No statement in between fails on account of the
  request; it takes an exception such as `MemoryError`.
* A resumable subscriber is documented to fail only once the events it missed have been
  evicted (src/skeino/streaming/run_streams.py:199-202). With a mode filter it also fails
  if only events that its filter rejects have been: `Delivery.HonestExactlyUnfiltered` says
  that this is so for every non-empty filter, `FilteredOverflowIsConservative` gives the run.
* An event with an empty name does not survive the wire: a client reports it as
  `message`. `Frames.RoundTripExactlyForValidNames` says for exactly which names it does.
* The scan for stuck threads orders by `updated_at` alone (src/skeino/ops/runs.py:1095-1116,
  src/skeino/persistence/metadata_store.py:471-481). If threads with equal timestamps come
  in a different order from one page to the next, one can be missed until the next pass.
  `StuckThreads.CompleteExactlyWithoutStraddling` gives the exact condition on the table:
  a group of equally old stuck threads lies across a page boundary.
* The settings check (src/skeino/config.py:130-139) promises that live runs are never
  swept. That takes three passes, the lag of the run's own stamps, the delay between its
  insert and its registration and the clock skew to fit into one interval:
  `Heartbeat.SettingsProtectLiveRuns`. With passes of a third of the interval it holds of
  streaming runs only, `Heartbeat.BackgroundRunsNeedMore`.
* A client cut off before its first whole frame has no id to send, so its next stream
  starts at the live end. `Resume.ResumeRoundTrip` and `ManyReconnects` state the resume
  theorem for exactly the clients it holds for.

## Model

| member | source | states |
|---|---|---|
| `Frames.FeedFrame` | src/skeino/streaming/sse.py:17-25 | a whole frame makes an idle client dispatch one message with the published id, name and data, and leaves it idle |
| `Frames.FeedPartOfFrame` | src/skeino/streaming/sse.py:17-25 | a frame cut anywhere dispatches nothing and leaves the last event id where it was |
| `Frames.DecodeCut` | src/skeino/streaming/sse.py:17-25 | a body cut after any number of characters decodes to exactly the whole frames in it; the last event id is that of the last one |
| `Frames.RoundTripExactlyForValidNames` | src/skeino/streaming/sse.py:12-25 | concatenated frames decode to exactly the published list if and only if every event name is non-empty and has no line break |
| `Frames.EmptyNameIsLost` | src/skeino/streaming/sse.py:17-25 | a concrete published event, with an empty name, that a client does not get back |
| `Delivery.FilterAccepts` | src/skeino/streaming/run_streams.py:48-64 | no modes accept everything; others accept exactly `metadata`, `error` and `end`, the events named like a mode, those of a mode's subgraphs (the mode, a bar, anything), and every `messages*` event if `messages` or `messages-tuple` is among them |
| `Delivery.EncodedDecodes` | src/skeino/streaming/run_streams.py:126-143 | the byte counter's count for a character is the length of its UTF-8 encoding (section 3 of RFC 3629), which decodes to the character |
| `Delivery.Utf8IsEncoded` | src/skeino/streaming/run_streams.py:126-143 | the counter counts the bytes of the whole encoding, one for each character of a plain text |
| `Delivery.AppendKeepsLog` | src/skeino/streaming/run_streams.py:126-143 | one publish keeps the history the longest suffix of everything published that fits the event and byte budgets, the byte counter its true size, and the ids consecutive from 1 |
| `Delivery.RetainedHistory` | src/skeino/streaming/run_streams.py:126-157 | the same after any sequence of publishes and closes, and that a non-resumable stream keeps nothing |
| `Delivery.ExpiredExactlyWhenSomethingIsLost` | src/skeino/streaming/run_streams.py:155-157 | a cursor of -1 or more on a resumable stream has expired if and only if some published event above it is no longer retained |
| `Delivery.MatchingIds` | src/skeino/streaming/run_streams.py:48-64 | the events owed are exactly the published ones above the cursor that the modes accept, in order, each once |
| `Delivery.SubscribeEstablishes` | src/skeino/streaming/run_streams.py:183-244 | a new subscription, on a stream with any past and with any cursor, satisfies the delivery invariant |
| `Delivery.CatchUpIsExact` | src/skeino/streaming/run_streams.py:270-277 | re-attaching after an overflow from a cursor that has not expired replays exactly what is still owed |
| `Delivery.SkipsExactlyWhatIsNotOwed` | src/skeino/streaming/run_streams.py:266-267 | the drain drops a queued event if and only if it is not owed |
| `Delivery.StepKeeps` | src/skeino/streaming/run_streams.py:126-279 | every publish, close, drain step and abandonment keeps: yielded + to replay + queued is exactly what is owed, or, after an overflow, a prefix of it |
| `Delivery.RunKeeps` | src/skeino/streaming/run_streams.py:126-279 | the same over every interleaving |
| `Delivery.ExactDelivery` | src/skeino/streaming/run_streams.py:126-280 | over every past and interleaving, what a subscriber has yielded is a gap-free, duplicate-free prefix of the matching events above its cursor (or above the last id at subscribe), and all of them once it returns |
| `Delivery.BurstFits` | src/skeino/streaming/run_streams.py:126-153 | from any state with n events waiting, no next 256 - n events make a subscriber fail or catch up, whether it drains or not: a queue overflows only when 256 accepted events wait in it |
| `Delivery.HonestOverflow` | src/skeino/streaming/run_streams.py:144-157 | a resumable subscriber raises overflow only if an event above the last one it yielded was evicted; unfiltered, with a live cursor, one that it was owed |
| `Delivery.FilteredOverflowIsConservative` | src/skeino/streaming/run_streams.py:155-157 | for every non-empty list of modes, a run in which overflow is raised though every event owed is retained |
| `Delivery.HonestExactlyUnfiltered` | src/skeino/streaming/run_streams.py:199-202 | over all budgets, pasts, live cursors and interleavings a resumable subscriber is failed only if an event it was owed and never got has been evicted, if and only if it asks for no modes |
| `Delivery.GuaranteedEnd` | src/skeino/streaming/run_streams.py:159-181 | after close every drain finishes within a bound, with at most one more catch-up, never blocked; it fails only if its queue had been lost, else it has yielded all it is owed |
| `EventStream.RunEventStream.constructor` | src/skeino/streaming/run_streams.py:78-109 | an empty, open stream with id 1 next |
| `EventStream.RunEventStream.Publish` | src/skeino/streaming/run_streams.py:126-153 | on a closed stream an error and no change; else the history evicted in place becomes the machine's, every registered queue gets, misses or loses its events as the machine says, and every subscription that was exact stays exact |
| `EventStream.RunEventStream.Detach` | src/skeino/streaming/run_streams.py:170-181 | the queue is unregistered and holds only the overflow mark |
| `EventStream.RunEventStream.Close` | src/skeino/streaming/run_streams.py:159-168 | every registered queue that is not full gets the end mark; a second close changes nothing; exact subscriptions stay exact |
| `EventStream.RunEventStream.AttachQueue` | src/skeino/streaming/run_streams.py:222-244 | the replay snapshot and the fresh queue, registered unless the stream is closed, as the machine's attach |
| `EventStream.RunEventStream.Subscribe` | src/skeino/streaming/run_streams.py:183-210 | the new subscription is the machine's, registered before its first iteration, and exact; its queue is its own, and every other subscription stays as it was |
| `EventStream.Subscription.Listen` | src/skeino/streaming/run_streams.py:258-269 | the inner loop stops at the first event not yet delivered, the end, the overflow mark or an empty queue, as the machine does |
| `EventStream.Subscription.CatchUp` | src/skeino/streaming/run_streams.py:270-277 | fails or re-attaches as the machine does, and leaves every subscription with another queue as it was |
| `EventStream.Subscription.Advance` | src/skeino/streaming/run_streams.py:246-279 | one resumption of the generator is the machine's run up to its next yield, wait or end; the event handed over is the one it yields; an exact subscription stays exact, and so does every other with another queue |
| `EventStream.Subscription.Abandon` | src/skeino/streaming/run_streams.py:212-220 | the queue is unregistered; what was yielded stays, and stays exact; every subscription with another queue stays as it was |
| `EventStream.ResumedIsMoves` | src/skeino/streaming/run_streams.py:246-279 | a resumption is a finite number of the machine's moves, and ends at a yield, an empty queue or the end |
| `EventStream.DeliveredExactly` | src/skeino/streaming/run_streams.py:246-280 | the events an exact subscription object has handed over are, in order, the first of the published ones it is owed, and all of them once its generator has returned |
| `Resume.CursorRoundTrip` | src/skeino/ops/runs.py:87-110 | the id a client was last given parses back to itself |
| `Resume.NegativeCursors` | src/skeino/ops/runs.py:87-110 | -1 is accepted and every other negative id refused |
| `Resume.BlankIsNone` | src/skeino/ops/runs.py:87-110 | a header of blanks is no header |
| `Resume.HeaderIsItsNumber` | src/skeino/ops/runs.py:87-110 | any other header, blanks around it or not, is read as the number that its text denotes (a sign, digits, single underscores between them) if that is -1 or more, and refused if and only if it denotes none such |
| `Resume.JoinAnswers` | src/skeino/ops/runs.py:543-579 | for every header and stream, when a join is answered with the final state, refused as malformed, refused as ahead of the stream, refused as expired, or attached; whoever is attached has a cursor that is not above the last id |
| `Resume.AttachedIsOwedWhatComes` | src/skeino/ops/runs.py:543-579 | every event published after the join that the modes accept is owed to whoever was attached, and on a resumable stream every one above the id that was sent |
| `Resume.ReconnectsWhereItStopped` | src/skeino/ops/runs.py:543-579 | a client of any modes, cut off anywhere, is attached at the id of its last whole frame, or told that it expired |
| `Resume.ReturnedGetsTheRest` | src/skeino/ops/runs.py:543-579 | a subscription of any modes from a live cursor that returns has written a body that decodes to exactly the events of the rest of the run that they accept, in order |
| `Resume.ResumeRoundTrip` | src/skeino/ops/runs.py:518-579 | for any run, any modes, any cut and any rest of the run: the two decoded parts make up exactly the published events that the modes accept, each once and in order, if and only if the client had an id to send or no such event had been published |
| `Resume.ManyReconnects` | src/skeino/ops/runs.py:518-579 | a client of any modes attached from the start of a run, cut off and let in again any number of times: once a stream has returned and arrived whole, all it decoded is the published events that the modes accept, each once and in order, if and only if none of them had been published when it last joined without an id |
| `Resume.UnfilteredIsAll` | src/skeino/streaming/run_streams.py:48-64 | without modes those are all events |
| `Retention.RunStreamRegistry.Create` | src/skeino/streaming/run_streams.py:293-311 | a negative budget is refused, else an empty registry that holds the five arguments it was given, each as itself |
| `Retention.RunStreamRegistry.Sweep` | src/skeino/streaming/run_streams.py:353-361 | looking only at the front drops every expired stream, no other, and keeps the queue sorted by closing time |
| `Retention.RunStreamRegistry.Open` | src/skeino/streaming/run_streams.py:313-324 | the fresh stream is mapped; no other run's stream goes unless expired |
| `Retention.RunStreamRegistry.HistoryFits` | src/skeino/streaming/run_streams.py:303-324 | a resumable stream that the registry maps keeps the longest suffix of what it published that fits the registry's own two history budgets |
| `Retention.RunStreamRegistry.Get` | src/skeino/streaming/run_streams.py:326-336 | finds a stream if and only if it is mapped, of this thread and not expired |
| `Retention.RunStreamRegistry.Close` | src/skeino/streaming/run_streams.py:338-361 | running streams stay, finished ones are kept within the window; the streams that go are the oldest of the queue, each because it expired or because newer ones fill the budget |
| `Retention.RunStreamRegistry.DropOldest` | src/skeino/streaming/run_streams.py:348-361 | the front is unmapped if it is still the one mapped, and nothing else |
| `Retention.RunStreamRegistry.FinishedFit` | src/skeino/streaming/run_streams.py:338-361 | after every method the finished streams that are kept fit the budget |
| `RunRegistry.SpawnsAreForgotten` | src/skeino/concurrency.py:84-147 | across a hand-off the first task's callback forgets nothing; the end of the last task or finalizer restores the registry exactly |
| `RunRegistry.BackgroundRunRegistry.RegisterExternal` | src/skeino/concurrency.py:149-157 | the run is active on the thread, with whatever task it had; no other run's entry changes |
| `RunRegistry.BackgroundRunRegistry.Spawn` | src/skeino/concurrency.py:84-147 | the run is listed under the new task, with a completion if it is finalized; no other run's entry changes |
| `RunRegistry.BackgroundRunRegistry.Forget` | src/skeino/concurrency.py:159-166 | the run has no task and is not active on the thread, no other run's entry changes, and no empty thread entry is left |
| `RunRegistry.BackgroundRunRegistry.OnTaskDone` | src/skeino/concurrency.py:107-115 | nothing changes if another task is tracked by now; a run listed under this task alone is unlisted; no other run's entry changes |
| `RunRegistry.BackgroundRunRegistry.OnFinalized` | src/skeino/concurrency.py:121-140 | the run is unlisted: no completion, task or active entry; no other run's entry changes |
| `RunRegistry.BackgroundRunRegistry.ActiveRuns` | src/skeino/concurrency.py:49-70 | the pruning loop returns exactly the active ids that are not finished without a finalizer, and forgets the others |
| `Lifecycle.AdmitWaitKeeps` | src/skeino/ops/runs.py:427-434 | waiting for the execution lock: the lock taken, or the cancel's cleanup, keeps what the run may rely on about its row and its stream |
| `Lifecycle.AdmitInsertKeeps` | src/skeino/ops/runs.py:366-460 | so does the insert, with the hand-off to the producer or, on any failure of either, the release of the lock; a hand-off that fails may leave the stream open |
| `Lifecycle.AdmitUndoKeeps` | src/skeino/ops/runs.py:444-460 | so does the undo of a failed insert, cancelled or not |
| `Lifecycle.ClaimKeeps` | src/skeino/ops/runs.py:1708-1720 | so does the claim: won, lost, failed or cancelled, landed or not |
| `Lifecycle.ClaimLostKeeps` | src/skeino/ops/runs.py:142-149 | so does a run that lost its row before it started: it reports the outcome it lost to |
| `Lifecycle.GraphKeeps` | src/skeino/ops/runs.py:649-679 | so does the graph, whatever its events are called and whichever way it ends; each event that it yields is added to those published, and nothing else is |
| `Lifecycle.SaveKeeps` | src/skeino/ops/runs.py:681-689 | so does the final `success`, which may lose, fail after landing, or be cancelled after landing |
| `Lifecycle.SaveLostKeeps` | src/skeino/ops/runs.py:681-689 | so does a run whose `success` lost: it reports the outcome it lost to, as its terminal event |
| `Lifecycle.FailKeeps` | src/skeino/ops/runs.py:1762-1791 | so does the failure write: done, lost, cancelled, or failing with its store, when the failure is reported all the same |
| `Lifecycle.FailThreadKeeps` | src/skeino/ops/runs.py:1778-1791 | so does the thread's move to `error`, after which the failure is published |
| `Lifecycle.MarkKeeps` | src/skeino/ops/runs.py:1793-1820 | so does the `interrupted` write of a cancelled run, failing with its store included |
| `Lifecycle.MarkLostKeeps` | src/skeino/ops/runs.py:392-407 | a cancel that lost reports the outcome it lost to, or settles the thread of its own saved success |
| `Lifecycle.CleanupKeeps` | src/skeino/ops/runs.py:383-411 | the finalizer's end closes the stream even if `after_run` fails |
| `Lifecycle.TaskKeeps` | src/skeino/ops/runs.py:423-460 | whatever the stage, a step takes the execution lock only once, gives it back only once and when held, and leaves a cancel only where it can land |
| `Lifecycle.OwnerKeeps` | src/skeino/ops/runs.py:307-338 | whatever the stage, a step calls `after_run` only if nobody has, and only for its owner |
| `Lifecycle.StepKeeps` | src/skeino/ops/runs.py:366-460 | every step of every task keeps the invariant, keeps a settled row, and takes, gives and hands over what its place says |
| `Lifecycle.MeddlingKeeps` | src/skeino/ops/runs.py:1725-1740 | so does anything another worker may do to the row |
| `Lifecycle.OutcomeAgreement` | src/skeino/ops/runs.py:142-149 | over every life of a run: when it is over its stream is closed; a closed stream ends with the run's own terminal event, and the row is final and says the same, or is gone, unless the store failed before the failure or cancellation was recorded; a run that lost to a deletion reports its own deletion; an earlier event is named `error` or `end` if and only if the graph emitted one; a stream is left open for good if and only if its hand-off failed after opening it |
| `Lifecycle.OutputIsPublished` | src/skeino/ops/runs.py:646-650 | over every life: the graph's events on the stream are exactly those that its awaits yielded, in order, each once; while it runs they follow the metadata, and on a closed stream they are all that lies between the metadata and the terminal event |
| `Lifecycle.StepRecords` | src/skeino/ops/runs.py:600-724 | one step publishes at most one event, and only one that its stage has earned; it writes only its stage's own row, and only over a row in flight; a run fails if and only if an await of its body raises, and of that exception; success is written only after the graph has ended normally; a final write that took effect is followed by the thread's |
| `Lifecycle.EveryReportIsEarned` | src/skeino/ops/runs.py:706-724 | over every life: the next step of a failing run tells the client, and the row, the last exception that was raised; a run reports what it lost to, its saved success or its own cancel only at those stages, after the thread is written |
| `Lifecycle.RowTellsTheStage` | src/skeino/ops/runs.py:1708-1720 | over every life: until somebody else ends it, the row reads `pending` while the run waits for its claim, and `running` from the claim to the final write, without an error text |
| `Lifecycle.ClaimedAndSingleWinner` | src/skeino/ops/runs.py:1708-1760 | the graph runs only after the run's own claim; a writer told it lost finds a final row or none; a run whose final write lost writes no thread status, but to settle after its own saved success; the lock is taken at most once, and given back once unless it is still held |
| `Lifecycle.NothingLeftInFlight` | src/skeino/ops/runs.py:1822-1840 | a run that is over leaves its row final or gone, unless one of these stranded it: a background insert that failed after it landed, an undo that did not land, a background run cancelled before its first step or in its failure write, a store that failed under the failure or cancellation being recorded |
| `Lifecycle.FinalStays` | src/skeino/ops/runs.py:1725-1735 | a final row keeps its status and text until it is deleted, a deleted row stays deleted |
| `Lifecycle.CleanupExactlyOnce` | src/skeino/ops/runs.py:307-338 | `after_run` is never called twice, and exactly once by the end of a run if and only if no cancel landed in the undo of a failed insert |
| `Lifecycle.AnsweredOnceBegun` | src/skeino/ops/runs.py:456-516 | the request of a run can be answered if and only if it has not been, and its admission task has begun or is over |
| `Lifecycle.CleanupCanBeSkipped` | src/skeino/ops/runs.py:444-460 | such a run, from its request on: the insert fails, a cancel lands in the undo, the run ends and nobody has called `after_run` |
| `Lifecycle.StreamCanBeOrphaned` | src/skeino/ops/runs.py:375-378 | a run, from its request on, whose hand-off fails after it opened the stream; it is over and has left its stream open |
| `Lifecycle.GraphCanForgeTheEnd` | src/skeino/streaming/runner.py:157-159 | a run whose graph emits an event named `end`, so that its stream holds one before its own |
| `Lifecycle.BlindFailureDisagrees` | src/skeino/ops/runs.py:1762-1791 | a run that reports its failure while its row stays in flight |
| `Lifecycle.StepsEnd` | src/skeino/ops/runs.py:600-724 | every step but another graph event brings the run closer to its end |
| `Lifecycle.NeverStuck` | src/skeino/ops/runs.py:366-460 | a task can always go on, unless it waits for the execution lock |
| `Lifecycle.CancelledAdmissionEnds` | src/skeino/ops/runs.py:423-460 | a cancelled admission task hands its run to nobody |
| `Process.WorkKeeps` | src/skeino/ops/runs.py:366-460 | a task's step keeps the whole process's invariant: rows, both locks, registry, admission, waiters, shutdown |
| `Process.AdmitKeeps` | src/skeino/ops/runs.py:1264-1289 | so does entering the admission lock with any strategy |
| `Process.AimAtTask` | src/skeino/concurrency.py:187-205 | so does the cancel of an active run, which is then waited for |
| `Process.StoppedKeeps` | src/skeino/ops/runs.py:1284-1289 | so does the end of that wait, with the row deleted on rollback |
| `Process.EnrollStreaming` | src/skeino/ops/runs.py:359-364 | so does the registration of a streaming run with the spawn of its admission |
| `Process.EnrollBackground` | src/skeino/ops/runs.py:1247-1262 | so does the start of a background run's insert, under the admission lock |
| `Process.WokenInv` | src/skeino/concurrency.py:168-185 | a caller of `wait` that goes on finds a successor, a pending finalizer, or nothing unfinished |
| `Process.MoveKeeps` | src/skeino/concurrency.py:24-221 | every move of the process keeps the invariant |
| `Process.MutualExclusion` | src/skeino/ops/runs.py:366-460 | over every run of the process: at most one run of the thread executes the graph, after its own claim and holding the lock; each run takes the lock at most once, and has given it back once unless it still holds it |
| `Process.QuietAtTheEnd` | src/skeino/concurrency.py:121-166 | once every task and finalizer is over, the lock is free and the task, completion and active maps are empty |
| `Process.UnbrokenTracking` | src/skeino/concurrency.py:49-70 | `active_runs` returns exactly the runs with an unfinished task or finalizer, hand-off included |
| `Process.WaitSeesTheEnd` | src/skeino/concurrency.py:168-185 | `wait`, called while a task is tracked, returns only when no task or finalizer of that run is unfinished |
| `Process.WaitIsForItsRun` | src/skeino/concurrency.py:168-185 | a caller of `wait` waits for the run that it named, through every hand-off, and returns only once that run is finished |
| `Process.WaitReturns` | src/skeino/concurrency.py:168-185 | once the run is over, every caller of `wait` can go on, and returns after at most two wake-ups |
| `Process.RejectsExactlyWhenBusy` | src/skeino/ops/runs.py:1275-1283 | `reject` refuses a run if and only if some run of the thread is unfinished |
| `Process.AdmissionLooks` | src/skeino/ops/runs.py:1264-1289 | in every reachable state: `reject` gives up if and only if some run is unfinished; `interrupt` and `rollback` are to stop exactly the unfinished runs; `enqueue` is to stop none |
| `Process.AdmissionStopsNoOther` | src/skeino/ops/runs.py:1284-1289 | whatever happens while an admission holds the lock, no run is added to those it stops, and the one it waits for is among them |
| `Process.EnqueueStopsNobody` | src/skeino/ops/runs.py:1264-1275 | while an `enqueue` admission holds the lock nothing is to be stopped, no run can be aimed at, and its own run can be registered at once |
| `Process.CancelledExactlyBy` | src/skeino/concurrency.py:187-221 | in every reachable state a run that can be cancelled is asked to stop by exactly these moves: its own cancel, an interrupting or rolling-back admission that listed it, and a shutdown |
| `Process.RowsChangeOnlyBy` | src/skeino/ops/runs.py:1215-1289 | a run's row changes only by its own stage's write, another worker's, a rollback that waited for the run, which deletes it (an `interrupt` leaves it), or a shutdown's sweep, after which a row that was in flight reads `interrupted` |
| `Process.AdmissionGoesOn` | src/skeino/ops/runs.py:1284-1289 | an admission ends: until its run is registered there is a move that registers it, stops one more run, or brings a run closer to its end |
| `Process.ExclusiveAdmission` | src/skeino/ops/runs.py:1247-1289 | an admission with `reject`, `interrupt` or `rollback` registers its run as the only active one |
| `Process.ShutdownLeavesNothing` | src/skeino/ops/runs.py:1215-1230 | every run that was active when shutdown began ends finished, with a final row or none |
| `Process.ShutdownEndsAll` | src/skeino/ops/runs.py:1215-1230 | every run that was unfinished when a shutdown began is finished when its sweep is done, whatever happens in between, with a final row or none |
| `Process.ShutdownComesToAnEnd` | src/skeino/concurrency.py:207-221 | and its sweep gets done: until then there is a move that ends the wait, sweeps one more run, or brings a run closer to its end |
| `Process.EveryRunConcludes` | src/skeino/ops/runs.py:392-411 | outcome agreement, cleanup and the final row hold for each run, with the same exact conditions, whatever the others, admissions and shutdown do |
| `Process.EveryRunIsALife` | src/skeino/ops/runs.py:307-516 | in every reachable state each run, with its row, is what its own machine makes of the acts that can be told from the process's moves, so everything proved of every life of a run holds of every run of a process |
| `Process.NoDeadlock` | src/skeino/ops/runs.py:366-460 | while a run is unfinished some task can take a step that brings its run closer to the end |
| `RunTable.FinalRowsStay` | src/skeino/persistence/in_memory_store.py:138-155 | after its final status no write changes a row, finalizes it again, or reports it |
| `RunTable.SingleWinner` | src/skeino/persistence/in_memory_store.py:138-155 | over any history of all workers' writes each run takes at most one terminal write, and at most one sweep reports it |
| `RunTable.ClaimsAreFinal` | src/skeino/persistence/metadata_store.py:633-661 | a claimed run was in flight, stale and not excluded at the claim, and is `error` after it |
| `RunTable.InsertIsTheRuns` | src/skeino/persistence/in_memory_store.py:116-136 | the insert is the one that a run's own machine makes, in the thread it names |
| `RunTable.UpdateIsWritten` | src/skeino/persistence/metadata_store.py:529-560 | a status update is the guarded write that a run's own machine makes |
| `RunTable.OthersMeddle` | src/skeino/persistence/metadata_store.py:633-661 | whatever other workers write to a row, sweeps and deletes included, is what that machine allows them |
| `RunTable.HeartbeatWins` | src/skeino/persistence/sqlite_store.py:423-469 | a run heartbeated after the cutoff is not claimed by a later claim, whatever lands in between |
| `RunTable.HeartbeatStamps` | src/skeino/persistence/in_memory_store.py:185-191 | a heartbeat changes the timestamp of the in-flight runs that it names, and of no other, and nothing else of any |
| `RunTable.StampedByItsLastChange` | src/skeino/persistence/in_memory_store.py:116-215 | over any history of writes the timestamp of a row is that of the last write that changed it |
| `RunTable.DeadRunIsClaimed` | src/skeino/persistence/in_memory_store.py:185-215 | the other half: whatever writes land that do not name a run, other workers' heartbeats included, a sweep claims it if and only if its last stamp is older than the cutoff |
| `RunTable.UnnamedStays` | src/skeino/persistence/in_memory_store.py:138-215 | no history of writes that neither name a run nor drop its thread changes its row, its thread or its timestamp |
| `RunTable.ClaimedIsReported` | src/skeino/persistence/mongo_store.py:246-292 | what a claim-by-claim sweep returns are reports of atomic claims in the merged history of all workers |
| `RunTable.OneByOneIsAtOnce` | src/skeino/persistence/mongo_store.py:246-292 | left alone, a claim-by-claim sweep ends in the state of the single atomic update |
| `RunTable.ScanThenClaimRefines` | src/skeino/persistence/sqlite_store.py:423-469 | a scan-then-claim sweep claims nothing the atomic one at claim time would not, misses only rows changed since the scan, and left alone is the atomic one |
| `RunTable.InMemoryStore.UpdateRunStatus` | src/skeino/persistence/in_memory_store.py:138-155 | only an in-flight row is written, and the answer says whether it was |
| `RunTable.InMemoryStore.TouchRuns` | src/skeino/persistence/in_memory_store.py:185-191 | the loop stamps exactly the in-flight rows named |
| `RunTable.InMemoryStore.DeleteThread` | src/skeino/persistence/in_memory_store.py:107-114 | the rows left are those of other threads, unchanged |
| `RunTable.InMemoryStore.FailStaleRuns` | src/skeino/persistence/in_memory_store.py:193-215 | the loop is the atomic sweep, and reports each failed run once |
| `RunTable.SqliteStore.ClaimAll` | src/skeino/persistence/sqlite_store.py:448-463 | the claims of one transaction are the atomic sweep of what did not change since the scan |
| `RunTable.SqliteStore.FailStaleRuns` | src/skeino/persistence/sqlite_store.py:423-469 | the same with other processes writing in between; on failure everything is rolled back and nothing reported |
| `RunTable.MongoStore.FailStaleRuns` | src/skeino/persistence/mongo_store.py:246-292 | the loop is a history of atomic claims merged with other workers' writes; a failure returns the runs claimed so far, or raises if there are none |
| `Heartbeat.AgeIsBounded` | src/skeino/ops/runs.py:1166-1194 | a live run's row never looks older than two intervals and three passes, plus the lag of its other writes and the delay before it is tracked |
| `Heartbeat.LiveRunIsNotSwept` | src/skeino/persistence/in_memory_store.py:200-215 | a timeout that covers this and the clock skew never lets a sweep find it stale |
| `Heartbeat.SettingsProtectLiveRuns` | src/skeino/config.py:130-139 | every timeout the settings check accepts protects every live run if and only if three passes, the lag of its other writes, its delay before it is tracked and the clock skew fit into one interval |
| `Heartbeat.BoundIsTight` | src/skeino/ops/runs.py:1176-1194 | for any timeout smaller than two intervals, three passes, the lag, the delay and the clock skew: a live owner's schedule, a row tracked that late, and a moment at which it is stale |
| `Heartbeat.SafeExactlyFromTheBound` | src/skeino/config.py:130-139 | no live run tracked within a given delay is ever stale if and only if the timeout is at least two intervals, three passes, the lag, that delay and the skew |
| `Heartbeat.BackgroundRunsNeedMore` | src/skeino/ops/runs.py:1247-1262 | with passes of a third of the interval the settings check protects exactly the runs tracked before their insert and stamped without lag, on one clock, so no background run |
| `StuckThreads.ScanFromPage` | src/skeino/ops/runs.py:1095-1116 | if every query sees one order, the early-stopping scan collects all stuck threads from any page on, oldest first, each once |
| `StuckThreads.ScanIsComplete` | src/skeino/ops/runs.py:1095-1116 | whatever each query does with ties, it collects exactly the threads busy since before the cutoff, if no group of equally old ones lies across a page boundary |
| `StuckThreads.TiesCanHide` | src/skeino/persistence/metadata_store.py:471-481 | if one does, answers to the queries, each oldest first, under which a stuck thread is missed |
| `StuckThreads.ATieAcrossPages` | src/skeino/persistence/metadata_store.py:471-481 | such a table: 101 threads busy since the same moment |
| `StuckThreads.CompleteExactlyWithoutStraddling` | src/skeino/ops/runs.py:1095-1116 | the scan is complete for every way of breaking ties if and only if no group of equally old stuck threads lies across a page boundary |
| `StuckThreads.DistinctNeverStraddle` | src/skeino/persistence/metadata_store.py:471-481 | distinct timestamps never do |
| `StuckThreads.CollectStuck` | src/skeino/ops/runs.py:1095-1116 | the loop computes that scan |
| `StuckThreads.Maintenance.ReleaseOrphans` | src/skeino/ops/runs.py:1059-1073 | a reported thread is released unless a run is in flight; exactly those whose release failed are kept for the next pass |
| `StuckThreads.Maintenance.ReleaseStuck` | src/skeino/ops/runs.py:1117-1146 | exactly the collected threads without a run in flight, and whose release does not fail, settle as their latest run left them |
| `StuckThreads.Maintenance.RetryUnsettled` | src/skeino/ops/runs.py:1682-1706 | exactly the threads that could not be read, or are still busy with a run in flight or a failing settle, are kept; the others are settled if busy |
| `StuckThreads.Maintenance.FailOrphanedRuns` | src/skeino/ops/runs.py:1034-1075 | one pass: the atomic sweep; the threads of its orphans, and those not released before, are released, in use, or kept for the next pass; then the stuck threads; the two kinds of release fail independently |
| `StuckThreads.OrphansAreReleasedOrRetried` | src/skeino/ops/runs.py:1059-1073 | the thread of a run that the pass failed is released by it, in use, or in the retry set |
| `StuckThreads.PassReleasesStuck` | src/skeino/ops/runs.py:1077-1146 | after a pass in which no stuck thread's release fails, no stuck thread without a run in flight is busy, whatever happens to the release of orphans |
| `StuckThreads.PassLeavesOthers` | src/skeino/ops/runs.py:1034-1146 | a pass leaves alone every thread with a run in flight, and every other that is neither stuck nor to be released |
| `StuckThreads.PassSparesUsedThreads` | src/skeino/ops/runs.py:1205-1213 | a pass changes a thread only if no task of this process runs on it and no row of any of its runs is in flight once the orphans are failed |
| `StuckThreads.OrphansThreadFails` | src/skeino/ops/runs.py:1059-1073 | the busy thread of a run that the pass fails ends with an error, if nothing else runs on it and its release does not fail |
| `StuckThreads.RetriesExactly` | src/skeino/ops/runs.py:1059-1073 | a thread is in the retry set after a pass if and only if its release failed and it was there before, or the pass failed a stale run on it |
| `StuckThreads.StuckEndsAsItsRun` | src/skeino/ops/runs.py:1117-1146 | a stuck thread that nothing runs on ends idle exactly after a success or an interruption, interrupted exactly after a success with its graph waiting on one, and else, without a run too, with an error |
| `StuckThreads.RetriedUntilReleased` | src/skeino/ops/runs.py:1059-1073 | over any passes, with other workers' writes between them, a thread is in the retry set if and only if it was there, or was reported, and every release of it since then failed |
| `IndexBuild.MoveKeeps` | src/skeino/persistence/metadata_store.py:261-322 | every statement, exception and crash of any process keeps the invariant, and every valid index valid |
| `IndexBuild.NeverDropsALiveBuild` | src/skeino/persistence/metadata_store.py:300-312 | what a process drops is always the leftover of an interrupted build, never a live one or a valid index |
| `IndexBuild.OneBuilder` | src/skeino/persistence/metadata_store.py:289-299 | at most one process is in its locked part |
| `IndexBuild.FinishedMeansValid` | src/skeino/persistence/metadata_store.py:300-322 | a process that got the lock and finished leaves every index valid, for good |
| `IndexBuild.FailsExactlyWhenHurt` | src/skeino/persistence/metadata_store.py:289-322 | a process that does not crash fails if and only if one of its statements, or its connection's end, did; a failed unlock is suppressed |
| `IndexBuild.LockIsFreed` | src/skeino/persistence/metadata_store.py:313-322 | once no process is at work, crashed ones included, the lock is free and no build is open |
| `IndexBuild.SendsEnd` | src/skeino/persistence/metadata_store.py:300-322 | a process that nothing interrupts ends, within a bound |
| `IndexBuild.Catalog.CreateIndexes` | src/skeino/persistence/metadata_store.py:261-322 | one process's loop is a run of the machine; it skips if and only if the lock is taken, always gives the lock back, and all indexes are valid if it finishes |

## Left out

- FastAPI routes, schemas, manifest loading, tracing and token usage: plumbing.
- LangGraph, checkpoints and message serialization: the graph is a source of events; a JSON payload is a text without line breaks.
- Database drivers and SQL: each statement is its effect on the rows and its atomicity. A commit that fails after it took effect, and Mongo's `update_many` stopping half way, are not modelled.
- asyncio: `Task`, `Lock`, `Queue` and `shield` as documented. Cancellation lands at awaits only, once per task; a spawned task's first step precedes its spawner's next one; the order in which the lock is granted is left open.
- Lifecycle.StepsEnd: the retries of a graph that has emitted nothing are part of the graph.
- Process.WaitSeesTheEnd: `wait` raises what the finalizer raised; the model does not tell the two returns apart.
- Process.ExclusiveAdmission: about the runs of one process, as the code is.
- Process.ShutdownLeavesNothing: the sweep's read and guarded write of a row are one step; they act as one, since only an in-flight row is written.
- EventStream.RunEventStream.Publish: each queue is proved against the machine on its own; the iteration order over subscribers does not matter to any of them.
- Resume.CursorRoundTrip: `int()` also reads digits of other scripts, and refuses more than 4300 of them; both are left out.
- The final-state answer of `join_run_stream` for runs without a stream, and `_relay`'s cancel on disconnect, which is a `cancel` like any other.
- RunTable.InMemoryStore.UpdateRunStatus: rows are values here; the store hands out its live rows.
- StuckThreads.Maintenance.FailOrphanedRuns: a store failure for a thread happens before its write lands; the newest run of each thread and the threads parked on an interrupt are parameters.
- Checking that a busy thread always has a run: the settle retry and the stuck-thread release write without the execution lock, so it is not claimed.
- `wait_stateless_run`, which executes on a fresh thread without a row or the lock.
- The status `timeout`, which other writers may set and this code never does.
