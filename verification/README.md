# Verification of the Python runner

The repository is a desktop process supervisor. A Go backend starts Python scripts, talks to each over
a bidirectional stream, keeps a registry of shared-memory blocks, and reports to a UI that rebuilds its
own picture of the world from events. This project models the protocols between those parts in Dafny
and proves what they promise, for every interleaving, every input and every history.

## How it is organised

* `Cache.dfy`: the shared-memory registry. A specification (a map from key to segment, size and set of
  runs, with a log of every block ever created) and the class that edits `Refs` slices in place.
* `Lifecycle.dfy`: the run lifecycle as a transition system over unboundedly many runs. Each goroutine
  has its own program counter; a step is one atomic access or one critical section. The two locks that
  are held across a wait (the server lock in `UnregisterRun`, `phaseMu` in `trySend`) are in the state.
  `LifecycleInvariants` and `LifecycleTheorems` hold the inductive invariant, `LifecycleResults` what
  follows for status, cancellation, records, channel and cache, `LifecycleContent` what the channel
  carries, `LifecycleStreams` the direction from the server to Python, `LifecycleText` the text for the
  database, `LifecycleTimeouts` when streams are quiet, `LifecycleProgress` deadlock freedom and
  termination, `LifecycleRaces` a race over cancelled runs.
* `GrpcServer.dfy`, `Manager.dfy`: the same components as Go writes them, as classes whose methods run one
  at a time, proved against folds over everything a client said. `LifecycleContent.DeliveryIsSequential`
  shows that the concurrent system delivers what these sequential methods send. `CacheAnswers.dfy`: what
  clients are told about the cache, read off everything all runs did before.
* `Client.dfy`: the Python side: many threads, one request lock, one reader thread, one response queue.
  `ClientCancel.dfy`: what it puts on the stream before and after a cancel or its end.
* `RunnerService.dfy`, `ParallelRuns.dfy`: parallel groups, forwarding to the UI, starting a batch.
  `Forwarding.dfy`: what comes out of the forwarder, in terms of what went in. `EndToEnd.dfy`: from the
  process to the screen, across all of these and the frontend.
* `Banners.dfy`, `NotificationStack.dfy`: the reservoir's banner list and the frontend's mirror of it.
  `PassingEntries.dfy`: the other half of the frontend's list, toasts and critical entries.
* `Registry.dfy`, `IssueBanners.dfy`: scanning, booting and reloading the script registry, and the banners it
  publishes. `ScanResults.dfy`: what a scan finds, said of the directory alone. `Paths.dfy`: cleaning and
  joining of slash-separated paths, on which their keys depend.
* `EnvOps.dfy`, `EnvHistory.dfy`: the install/uninstall bracket, and what its trace tells. `RunStore.dfy`: the frontend's runs and groups. `Ring.dfy`:
  the log ring and its viewer. `Ids.dfy`, `Wrappers.dfy`, `Sequences.dfy`: what several modules share.

The lifecycle, the client and the install bracket are step systems on values: what is to be proved is about
every interleaving, and a sequence of method calls has none. Their operations appear a second time as
classes (`GrpcServer`, `Manager`, `EnvOps.EnvService`), where the in-place updates are the point.

## Hypotheses

* One `Execute` stream per run, as `connect()` opens, and none opened after the process has exited; run ids do not repeat.
* Synchronous client calls are made after `connect()`. Each stream direction is a FIFO with an end.
* The banner mirror runs sequentially; its other conditions are in `NotificationStack.OpOk`.
* The events of one run reach the frontend in the order in which they were emitted (`EndToEnd.Carries`).
* Groups are registered before the terminal message of a member is forwarded; `ClearBeforeRegisterLeaks` shows
  what happens otherwise, since the forwarders start first (`internal/services/runner_service.go:191-195`).

## Where the code and its documentation differ

The model follows the code.

* Any error message counts, so `warn()` and `info()` make a run Failed, although `scripts/_lib/runner.py:260-278`
  says they do not end or invalidate it. `TerminalStatusOfACompleteStream` is the exact condition,
  `AnySeverityFails` a reachable run for every error message.
* `CancelRun` may return no error while the run is not recorded as Cancelled: the flag was set after it was read
  (`LateCancelIsLost`).
* "Cancelled runs surface fail(...) as an ErrorMsg; demote to log-only" (`internal/services/runner_service.go:348-350`)
  holds only until the run is recorded, which does not wait for the consumer (`CancelledUntilRecorded`): an error
  handled later still opens the error pane (`CancelledErrorIsNotDemoted`).
* When the wait for a stream times out, the run can be cleaned up before its handler registers a block. That block is
  then held for as long as the program runs (`LateHandlerLeaks`, `LeaksAreForEver`). `EmptyIffNothingKept` has the exact
  condition for the registry to be empty, `LeakedIffKept` for a block to be lost, both read off the events;
  `NothingLeaks` is the case that no handler acquires anything after its run's cleanup.
* The reader thread and its queue replace an orphaned receiver that desynchronised the protocol after a timeout
  (`scripts/_lib/runner.py:118-120`), but a timeout still does: the late response stays in the queue, the next caller
  takes it for its own, and when both expect the same kind it goes on with the other call's data
  (`NextCallerGetsTheWrongReply`, for every two API functions; a file dialog left open for thirty seconds is enough).
  `OwnReplyIffNothingAbandoned` has the condition.
* "Each worker gets a unique VaryParam name" (`internal/services/runner_service.go:91`) depends on the script's
  own list of names (`NamesAreUniqueIff`, `WorkersDifferIff`): with `Worker-2` as the only configured name, two
  workers get it (`ConfiguredNameCollides`).
* A parallel script whose `max_workers` is below one starts nobody and registers a group that no clear removes
  (`CapBelowOneLeaks`, `EmptyGroupStays`).
* A reload after boot reports a change exactly if `os.Stat` fails on the plugin directory for another reason than
  absence, although the directory can be read and is not empty (`BootThenReload`, `OddDirectoryIsDropped`). The two are
  separate system calls, so this takes a failure that hits the first and not the second, such as a passing error of
  a network file system: boot skips the directory only if `os.IsNotExist`, a reload on any error.
* The updater given to `setRuns` mutates an object of the previous state, so in React's strict mode, which the app
  turns on (`frontend/src/main.tsx:32-34`) and which calls updaters twice in development builds, a line of output
  of a known run is shown twice (`TwiceIsOnceIff`).
* The run:error event of a rejected `cache_set` carries no script id (`internal/runner/grpc_server.go:439-447`), so a run
  first heard of that way shows the order of arrival for good (`RejectedCacheSetShowsTheOrder`, with
  `ArrivalOrderIrrelevantIff` as the exact condition).

## Model

| member | source | states |
|---|---|---|
| Cache.RegisterIsSound | internal/runner/cache.go:34-48 | Registering, also under a taken key, keeps every block referenced and every created block either live or unlinked exactly once |
| Cache.LookupIsSound | internal/runner/cache.go:50-64 | So does a lookup |
| Cache.ReleaseIsSound | internal/runner/cache.go:70-90 | So does a release, also of a block the run does not hold |
| Cache.LookupAddsOneMembership | internal/runner/cache.go:50-64 | The caller of a known key becomes a holder and nothing else changes; an unknown key or a second lookup changes nothing at all |
| Cache.ReleaseRemovesOneMembership | internal/runner/cache.go:70-90 | Exactly the one membership goes, and the block exactly when its set of holders empties |
| Cache.CleanedOneMore | internal/runner/cache.go:96-111 | Cleaning one more key is one release, so the order in which the map is visited does not matter |
| Cache.CleanupForgetsRun | internal/runner/cache.go:96-111 | After a cleanup nobody but the run lost a membership, the run holds nothing, and exactly the blocks only it held are gone |
| Cache.CleanupIsIdempotent | internal/runner/cache.go:92-111 | Cleaning up twice is cleaning up once |
| Cache.EmptyIffAllUnlinked | internal/runner/cache.go:83-88 | The registry is empty exactly if every block ever registered has been unlinked once, under its own name |
| Cache.CacheBlock.AddRef | internal/runner/cache.go:57-63 | The search-then-append loop adds the run to the holders and keeps the slice free of duplicates |
| Cache.CacheBlock.DropRef | internal/runner/cache.go:77-84 | The splice loop removes the run from the holders entirely, and says whether it was one |
| Cache.CacheManager.Register | internal/runner/cache.go:34-48 | The class refines the specification; false exactly for a taken key |
| Cache.CacheManager.LookupAndRef | internal/runner/cache.go:50-64 | The class refines the specification and returns the segment registered under the key |
| Cache.CacheManager.Release | internal/runner/cache.go:70-90 | The class, whose own record of `unlinkShm` calls must agree with the specification's, refines it; true exactly if the run held the block |
| Cache.CacheManager.CleanupRun | internal/runner/cache.go:96-111 | The loop that deletes and unlinks while it iterates refines the specification for every order of keys |
| LifecycleInvariants.SummaryAppend | internal/runner/grpc_server.go:365-398 | Sticky error flag, first terminal report, last error text: what one more message does to the three folds |
| LifecycleInvariants.HandleKeepsFlags | internal/runner/grpc_server.go:365-398 | At every program point of the handler the atomics equal the folds of what it has taken |
| LifecycleInvariants.StepKeepsOk | internal/runner/grpc_server.go:200-217 | Every step of every thread keeps the invariant that ties flags, phases, maps, locks and channel to the history |
| LifecycleTheorems.HoldersAfter | internal/runner/grpc_server.go:419-471 | Only the run's own handler gives it a reference, and a cleanup leaves it none |
| LifecycleTheorems.RetiringRecords | internal/runner/manager.go:332-356 | A run is recorded in one step, with the status it settled on, and that entry stays as it is |
| LifecycleTheorems.RetiringUpdates | internal/runner/manager.go:358-372 | The database gets that same status and its text, once, in the step after |
| LifecycleTheorems.Invariance | internal/runner/manager.go:282-383 | The invariant over all runs, the server lock, history, database and cache holds in every reachable state |
| LifecycleResults.HistoryIsTheEvents | internal/runner/grpc_server.go:328-353 | What a handler received and still has to receive is what the client sent, in order; exit and cancel likewise |
| LifecycleResults.TerminalStatusIsAFold | internal/runner/manager.go:216-234 | In every interleaving the run ends Cancelled exactly if the flag was set before it was read, and, if no handler was live at the derivation, with the verdict on the whole message history |
| LifecycleResults.CompletedIsEarned | internal/runner/manager.go:216-234 | In every interleaving whatever, also when the wait for the stream times out, Completed implies a clean exit, no cancel in time, and a first terminal report that says completed |
| LifecycleResults.TerminalStatusOfACompleteStream | internal/runner/manager.go:216-234 | Completed exactly if not cancelled, exit clean, no error of any severity, and the first terminal report says completed |
| LifecycleResults.AnySeverityFails | internal/runner/grpc_server.go:390-398 | For every error message, of whatever severity, a reachable run that sent it, reported success and exited cleanly, all received in time, and is decided Failed |
| LifecycleResults.CancelCausality | internal/runner/manager.go:403-426 | If Python ever read a cancel, the run ends Cancelled whatever it then did; when it has read one is the subject of the `LifecycleStreams` rows |
| LifecycleStreams.StreamIsAQueue | internal/runner/grpc_server.go:277-296 | In every reachable state what waits for Python is what the events put on its stream (a cancel per successful `SendCancel`, a response per request served) less what it has read, in order; and Python has seen a cancel exactly if one is among what it read |
| LifecycleStreams.EmptyStreamMeansSeen | scripts/_lib/runner.py:133-145 | Once Python has read all there is, it has seen a cancel exactly if one was ever sent |
| LifecycleStreams.SentCancelArrives | internal/runner/manager.go:403-426 | A cancel sent to a live process arrives: after reading what waited before it Python has seen it, it counts as in time, and the run ends Cancelled or not at all |
| LifecycleStreams.CancelsAreRead | scripts/_lib/runner.py:133-145 | A reachable state in which Python has read a cancel |
| LifecycleStreams.CancelsAreConserved | internal/runner/manager.go:403-426 | Every accepted `CancelRun` is still on its way or has been sent, or failed to be, exactly once |
| LifecycleStreams.CancelledUntilRecorded | internal/runner/manager.go:236-243 | `WasCancelled` answers true exactly from the first accepted cancel until the run is recorded |
| LifecycleRaces.CancelledErrorIsNotDemoted | internal/services/runner_service.go:347-356 | A reachable state in which a run is recorded as Cancelled, an error it sent is still to be handled, and it no longer counts as cancelled |
| LifecycleStreams.EveryRequestIsAnswered | internal/runner/grpc_server.go:365-417 | In every reachable state one response was put on the stream per request taken, but for the one at work or the one that could not be sent |
| LifecycleStreams.DialogsWaitForTheUser | internal/runner/grpc_server.go:496-526 | The handler has gone on after exactly the dialogs that the user closed |
| LifecycleTimeouts.QuietUnlessTimedOut | internal/runner/grpc_server.go:237-255 | Unless the wait for its stream timed out, a run's status is derived and its cache cleaned up after its stream has ended: the hypothesis of the rows about quiet streams |
| LifecycleTimeouts.WithoutTimeoutsNothingLeaks | internal/runner/cache.go:92-111 | If no wait timed out and all runs have been reaped, the registry is empty |
| LifecycleTimeouts.NothingIsSentAfterClose | internal/runner/grpc_server.go:209-217 | Once a channel is Done, no continuation adds to what was sent on it |
| LifecycleResults.DecisionsStand | internal/runner/manager.go:311-348 | No step of any thread revises a decided status |
| LifecycleResults.LateCancelIsLost | internal/runner/manager.go:332-348 | A reachable state in which a cancel was accepted and the run is nevertheless decided Failed |
| LifecycleResults.ExactlyOneEnd | internal/runner/manager.go:330-356 | A launched run is active or in the history, never both; its one history record equals the one status it sent and the one database update |
| LifecycleResults.NothingElseIsRecorded | internal/runner/manager.go:334-345 | Runs never launched leave no record, and the "ignoring status transition" branch is unreachable |
| LifecycleResults.LaunchedIffSpawned | internal/runner/manager.go:116-174 | A run is launched exactly if its process could be spawned, and otherwise withdrawn |
| LifecycleResults.HistoryHasNoDuplicates | internal/runner/manager.go:77-111 | The records loaded from the database followed by the new ones have one per run, if the loaded ones do and their runs are not started again |
| LifecycleResults.ChannelSafety | internal/runner/grpc_server.go:95-122 | Each Go channel is closed at most once, nothing is sent after the close, a run is registered until Done, and the consumer gets everything sent, in order |
| LifecycleResults.PhasesAdvance | internal/runner/grpc_server.go:95-122 | Phases only advance, one legal transition at a time, and what was sent or delivered stays so |
| LifecycleResults.NoReferenceAfterCleanup | internal/runner/manager.go:329-330 | A run that was cleaned up is not referenced unless its handler created or looked up a block afterwards |
| LifecycleResults.QuietCleanupIsInTime | internal/runner/grpc_server.go:237-255 | A run whose stream had ended before its cleanup is among those that are never referenced again |
| LifecycleResults.NoReferenceWithoutStream | internal/runner/grpc_server.go:311-319 | A run whose client never connected is never referenced |
| LifecycleResults.HeldIff | internal/runner/grpc_server.go:419-494 | In every reachable state a run holds a block exactly if, by the events, its last effective use of the key acquired it and neither a release nor its cleanup followed |
| LifecycleResults.EmptyIffNothingKept | internal/runner/cache.go:92-111 | The exact condition for leaks: the registry is empty, and every block ever registered was unlinked once, if and only if by the events no run keeps anything |
| LifecycleResults.NothingLeaks | internal/runner/cache.go:92-111 | In particular, when all runs have been reaped and no handler created or looked up a block after its run's cleanup, the registry is empty and every block was unlinked once |
| LifecycleResults.LateHandlerLeaks | internal/runner/grpc_server.go:237-255 | After a timed-out wait, a reachable state in which a run is reaped, its stream has ended, and it holds a block |
| LifecycleResults.HoldingIsFinal | internal/runner/manager.go:329-330 | Once a run is reaped and its stream has ended, no continuation adds to what it holds or takes from it |
| LifecycleResults.LeakedIffKept | internal/runner/cache.go:70-111 | For such a run, a block stays held in every continuation if and only if the events so far say it keeps it |
| LifecycleResults.LeaksAreForEver | internal/runner/cache.go:70-111 | In every continuation of such a state the block stays held by that run, and so is never unlinked |
| LifecycleContent.DeliveryIsSequential | internal/runner/grpc_server.go:365-398 | In every interleaving in which the stream ended before the derivation, the consumer receives exactly what serving the client alone sends, then the verdict, and nothing more |
| LifecycleText.DatabaseIsToldOnce | internal/runner/manager.go:313-372 | In every interleaving whatever, a reaped run has had one database update, Cancelled exactly if cancelled in time, with the text that belongs to its exit and to an initial part of what was received; if the stream ended in time, with the verdict on all of it and the text that belongs to all of it |
| LifecycleText.ErrorTextIsProper | internal/runner/manager.go:313-327 | The text of a failure is stderr, whole up to 4096 characters, else its first 4096 and the mark; without stderr, the message of the last error received, if not empty; else the process error or nothing; and no text for any other status |
| LifecycleText.ProperTextIsUnique | internal/runner/manager.go:313-327 | These cases determine the text |
| LifecycleText.LastErrorIsLast | internal/runner/grpc_server.go:390-393 | The text kept by last-write-wins is that of the error after which no other came |
| LifecycleContent.DeliveryIsFaithful | internal/runner/grpc_server.go:209-217 | In every interleaving whatever, what is delivered besides the status is an initial part of what the client said, in order |
| LifecycleProgress.LockHolderCanStep | internal/runner/grpc_server.go:200-217 | Whoever holds the server lock waits at most for `phaseMu`, whose holder waits at most for room, which the consumer makes |
| LifecycleProgress.LiveRunCanStep | internal/runner/grpc_server.go:209-217 | While its process lives, handler, consumer and starter never block one another: one can step unless all await a message or the user |
| LifecycleProgress.DeadlockFreedom | internal/runner/grpc_server.go:200-217 | In every reachable state, a run, live or not, either has all its goroutines waiting for Python or the user, or it, or the holder of the server lock, can take a step that waits for nobody |
| LifecycleProgress.ReapingIsBounded | internal/runner/manager.go:282-356 | Once no process is left, at most a computable number of further steps is taken, cancels in flight and the closing of dialogs included |
| LifecycleProgress.StuckMeansFinished | internal/runner/manager.go:282-356 | When the backend can take no more, every goroutine of every run has returned, callers of `CancelRun` included, except handlers with a file dialog open |
| LifecycleProgress.LiveProcessIsFree | internal/runner/grpc_server.go:299-354 | A live process may connect, speak, read and end in any way at any time: no interleaving is left out |
| LifecycleProgress.FailuresMayHappen | internal/runner/grpc_server.go:328-353 | So may a spawn, a receive or a send fail, and a wait for a stream time out |
| LifecycleProgress.CancellableIff | internal/runner/manager.go:403-411 | A run may be cancelled exactly while it is launched and not yet recorded |
| GrpcServer.RunChannel.TransitionTo | internal/runner/grpc_server.go:95-122 | Applies exactly the legal transitions, and never closes a closed channel |
| GrpcServer.RunChannel.TrySend | internal/runner/grpc_server.go:209-217 | Sends exactly while the channel is open |
| GrpcServer.RunChannel.Note | internal/runner/grpc_server.go:376-393 | The compare-and-swap and the stores keep the flags equal to the folds of everything taken |
| GrpcServer.Server.RegisterRun | internal/runner/grpc_server.go:192-198 | A fresh open channel under the run's id, the others untouched |
| GrpcServer.Server.UnregisterRun | internal/runner/grpc_server.go:200-207 | The channel is closed with what it carried and leaves the map; an unknown run changes nothing |
| GrpcServer.ServeCache | internal/runner/grpc_server.go:419-494 | Create, lookup and release act on the registry; what is shown is `EffectsOf` the registry as it was, and what that has to be, the `CacheAnswers` rows say |
| GrpcServer.Server.HandleClientMessage | internal/runner/grpc_server.go:365-417 | One message is taken, applied to the cache, answered and reported, and forwarded if it is output, progress or error and the channel is open; false exactly if it asks and the response cannot be sent; `ResponseComesLast`, `UnsentIsReported` and the `CacheAnswers` rows say what is answered |
| GrpcServer.ResponseComesLast | internal/runner/grpc_server.go:399-417 | A request has one response, of its kind and for its key, as the last of its effects; no other message has any |
| GrpcServer.UnsentIsReported | internal/runner/grpc_server.go:345-360 | A response that cannot be sent is replaced by a report, never both, and what went before is the same |
| CacheAnswers.HeldAsDeedsSay | internal/runner/grpc_server.go:419-494 | After any accesses of any runs in any order, a run holds a key exactly if it created it while nobody did, or looked it up while somebody did, and has not let go |
| CacheAnswers.BlockIsTheCurrentOne | internal/runner/cache.go:34-64 | A held key has the segment, size and owner of the create that took effect when nobody held it, held by somebody ever since |
| CacheAnswers.LookupIsAnswered | internal/runner/grpc_server.go:459-471 | A lookup is answered found, with that segment and size, exactly if somebody holds the key; else not found, empty and zero |
| CacheAnswers.CreateIsAnswered | internal/runner/grpc_server.go:419-457 | A create is rejected as a duplicate, with a report, exactly if somebody holds the key; else it is registered and current |
| CacheAnswers.ReleaseIsAnswered | internal/runner/grpc_server.go:473-494 | A release is honoured exactly if the run holds the key |
| CacheAnswers.CreateThenLookup | internal/runner/grpc_server.go:419-471 | From a create of a free key until its run lets go, every lookup by anybody, whatever all runs do meanwhile, is answered with the segment and size registered |
| CacheAnswers.RegistryIsTheDeeds | internal/runner/grpc_server.go:419-494 | In every interleaving of the lifecycle the registry is what the accesses so far say, so the answers above are those given |
| GrpcServer.Server.Execute | internal/runner/grpc_server.go:299-354 | The receive loop deals with everything sent, or up to the first message whose response cannot be sent; an unknown run id changes nothing |
| GrpcServer.ServedInFull | internal/runner/grpc_server.go:328-353 | Serving messages one at a time, each against the cache the previous left, equals the four folds over the whole stream, also after the channel is closed |
| GrpcServer.DealtInFull | internal/runner/grpc_server.go:356-360 | However it stops, the loop amounts to the four folds over the messages it dealt with, a report standing in for the response that was not sent |
| GrpcServer.StopsOnce | internal/runner/grpc_server.go:328-353 | Where the loop stops, and whether it failed, is determined by the messages and the sends |
| GrpcServer.NotedIsSummary | internal/runner/grpc_server.go:376-393 | Compare-and-swap and stores, one message after another, amount to: any error, the first terminal report, the last error text |
| Manager.Manager.RequestCancel | internal/runner/manager.go:403-411 | The flag is set exactly for an active run, and its status is untouched |
| Manager.Manager.WasCancelled | internal/runner/manager.go:236-243 | True exactly for an active run whose flag is set |
| Manager.Manager.DeriveFinalStatus | internal/runner/manager.go:216-234 | The ladder over the flags equals the verdict on everything the client ever said |
| Manager.Manager.FailureText | internal/runner/manager.go:313-327 | Stderr, whole or its first 4096 characters and the mark; else the message of the last error the client sent, if not empty; else the process error; and only for a failure |
| Manager.Manager.CrashReport | internal/runner/manager.go:292-309 | Standard error goes to the run's pane exactly for a failure with an exit code, some text, and no error ever reported by the client |
| Manager.Manager.Retire | internal/runner/manager.go:332-356 | Leaves the active map, enters the history once, with the old status only if that was already terminal |
| Manager.Manager.Withdraw | internal/runner/manager.go:329-356 | Cleanup, close and record: the cache forgets the run, the channel keeps what it carried |
| Manager.Manager.WaitForExit | internal/runner/manager.go:282-356 | The last channel message carries the verdict on all the client said, and so does the history, or the old status if that was already terminal; the cache is cleaned up and the channel closed and dropped |
| Manager.Manager.LoadHistory | internal/runner/manager.go:94-110 | The rows that can be read are appended in order, the others skipped |
| Manager.RowsAreReadInOrder | internal/runner/manager.go:94-110 | Each readable row comes after exactly the readable rows before it |
| Client.Invariance | scripts/_lib/runner.py:69-166 | In every interleaving of callers, unlocked senders, reader and server, the responses taken and under way match the requests put, in order |
| Client.RepliesAreAligned | scripts/_lib/runner.py:126-166 | The k-th response taken from the queue is the right answer to the k-th synchronous request put on the stream |
| Client.OwnReplyIffNothingAbandoned | scripts/_lib/runner.py:151-166 | A caller's response is its own and of the expected kind exactly if no wait was given up before |
| Client.NoTimeoutsNoMixups | scripts/_lib/runner.py:333-424 | Without timed-out waits every caller that gets a response gets its own, of the matching kind |
| Client.NextCallerGetsTheWrongReply | scripts/_lib/runner.py:118-166 | For every two API functions, a reachable state in which one call gave up and the next took its answer, noticing exactly if the two expect different kinds |
| ClientCancel.CancelledIffRead | scripts/_lib/runner.py:133-145 | In every interleaving the cancel event is set exactly if some pushed cancel has been read |
| ClientCancel.CallAsksIff | scripts/_lib/runner.py:106-112 | A thread may call whenever the lock is free; undisturbed, it puts its request exactly if the client has neither finished nor been cancelled; cancelled it gives up, finished it waits all the same |
| ClientCancel.NoteGoesOutIff | scripts/_lib/runner.py:106-112 | A message without an answer goes out exactly if the client has neither finished nor been cancelled |
| ClientCancel.NobodyAsksAnymore | scripts/_lib/runner.py:106-112 | After a cancel was read, or after the end, no continuation puts another request but the one that had passed its checks |
| ClientCancel.AllThatWasPutIsSent | scripts/_lib/runner.py:83-99 | After `_finish` gRPC can take everything that was put, in order, and then finds the end |
| ClientCancel.NoEndBeforeFinish | scripts/_lib/runner.py:83-99 | It never finds the end before |
| ClientCancel.ReaderEndWakes | scripts/_lib/runner.py:143-145 | When the reader thread ends, a waiting caller is woken, empty-handed if nothing was left |
| ClientCancel.OutsideIsFree | scripts/_lib/runner.py:106-166 | A wait may be given up, the client finish, the server push a cancel or end, and the reader fail, at any time |
| RunnerService.RegisterKeepsConsistent | internal/services/runner_service.go:249-261 | With fresh ids, groups and mapping stay consistent exactly if the new group has a member |
| RunnerService.RegisterMapsMembers | internal/services/runner_service.go:249-261 | Whatever the table held: the members map to the new group, all other runs as before |
| RunnerService.ClearKeepsConsistent | internal/services/runner_service.go:265-280 | Clearing a run keeps them consistent |
| RunnerService.GroupLivesWhileAMemberDoes | internal/services/runner_service.go:265-280 | After any clears in any order a group exists exactly if some run mapped to it was not cleared |
| RunnerService.ClearingAllMembersRemovesTheGroup | internal/services/runner_service.go:249-280 | Registering a group and clearing its members in any order restores the table exactly |
| RunnerService.EarlyClearsDoNotCount | internal/services/runner_service.go:191-195 | Whatever was cleared before a group was registered, in any order, the group goes exactly when every member is cleared afterwards |
| RunnerService.ClearBeforeRegisterLeaks | internal/services/runner_service.go:191-195 | In particular, one member whose terminal message precedes the registration keeps the group for ever |
| RunnerService.EmptyGroupStays | internal/services/runner_service.go:265-280 | A group registered without members survives every sequence of clears |
| RunnerService.StatusEventsOf | internal/services/runner_service.go:288-370 | The UI sees the statuses on the channel, each once, in order |
| RunnerService.ToastIffFailed | internal/services/runner_service.go:288-370 | Over a channel with one status, one failure toast if that is Failed and none otherwise, with the last error before it or the fallback |
| RunnerService.OneStatusReachesTheScreen | internal/services/runner_service.go:288-370 | In every interleaving, a drained run showed one status, the recorded one, and a failure toast exactly if it is Failed |
| RunnerService.DrainedRunIsCleared | internal/services/runner_service.go:344-346 | In every interleaving a run has left its group when its channel is drained, and not before a status is delivered |
| RunnerService.DrainedGroupIsGone | internal/services/runner_service.go:249-280 | Once the channels of all members are drained, in any order, the table is as it was before their group |
| Forwarding.LinesAndNotesGoOut | internal/services/runner_service.go:295-318 | The texts of the run:output events are those of the output messages, and the numbers and names of the run:progress events those of the progress messages, each once, in order |
| Forwarding.EventsConvey | internal/services/runner_service.go:294-325 | Lines, notes and statuses go out in the order in which they came among each other, one event each; errors have none |
| Forwarding.LinesAreLogged | internal/services/runner_service.go:302-309 | Every line is logged, once and in order |
| Forwarding.ErrorsAreReported | internal/services/runner_service.go:347-366 | Every error is reported with its text and traceback, once and in order; demoted to a one-shot info exactly if the run counts as cancelled, otherwise in flight with the severity the client meant |
| Forwarding.SeverityIsMeant | internal/services/runner_service.go:374-386 | The severities round-trip, and an unspecified or unassigned number counts as an error |
| Forwarding.ToastsAreProper | internal/services/runner_service.go:328-343 | Over any channel: one toast per failure, with the text and traceback of the last error before it, or the fallback if that has no text or there is none |
| EndToEnd.WhatIsShownWasSaid | internal/services/runner_service.go:288-320 | In every interleaving the lines and notes that went to the UI are the first ones Python put on its stream, in order |
| EndToEnd.AllThatWasTakenIsShown | internal/services/runner_service.go:288-330 | Once drained, a run whose stream ended in time has sent the UI every line and note the server received, in order, and one status, the verdict |
| EndToEnd.CardShowsTheRun | frontend/src/hooks/useScripts.ts:113-149 | Whatever else arrives in between, such a run's card shows all those lines in order, its last note, and the verdict |
| EndToEnd.CardIsFaithful | frontend/src/hooks/useScripts.ts:113-149 | At any time in any interleaving the lines on a card are the first ones its process printed |
| EndToEnd.ErrorsComeUp | internal/notify/notify.go:216-261 | A client's error comes up nowhere once its run counts as cancelled, else on the critical pane, with its run or as a toast, by the severity it meant |
| EndToEnd.PaneGetsTheErrors | internal/services/runner_service.go:347-366 | The run's own pane gets exactly its undemoted errors that were meant as errors, in order |
| EndToEnd.CardShowsTheLastError | frontend/src/hooks/useScripts.ts:145-149 | The card shows the last of them |
| EndToEnd.FailureStaysOnScreen | frontend/src/hooks/useNotifications.tsx:116-148 | The toast of a failed run is on the frontend's list, whatever went before or happens after, exactly until it is closed or times out |
| RunnerService.Service.RegisterGroup | internal/services/runner_service.go:249-261 | The loop adds the group and maps exactly its members |
| RunnerService.Service.ClearRunFromGroup | internal/services/runner_service.go:265-280 | The scan drops the group exactly if no other run maps to it |
| RunnerService.Service.ForwardMessages | internal/services/runner_service.go:288-370 | The loop with its last-error variables computes the folds over the whole channel, and clears the run at its terminal status; what the folds say, the `Forwarding` rows tell |
| ParallelRuns.SomebodyStartsIff | internal/services/runner_service.go:122-128 | The clamped worker count is positive exactly if the script's cap is, and then the count itself, one, or the cap |
| ParallelRuns.DecimalIsInjective | internal/services/runner_service.go:130-135 | Distinct worker numbers are printed differently |
| ParallelRuns.NamesAreUniqueIff | internal/services/runner_service.go:91-135 | Worker names are distinct exactly if the configured ones that are used differ from each other and from the generated ones that are used |
| ParallelRuns.ConfiguredNameCollides | internal/services/runner_service.go:130-135 | A configured list that holds a generated name gives two workers that name |
| ParallelRuns.ChainLinksNeighboursIff | internal/services/runner_service.go:141-156 | Each worker's chain parameter equals its predecessor's varied one exactly if the chain does not overwrite that, or the two earlier names agree; the first worker's is empty |
| ParallelRuns.OtherParamsAreKept | internal/services/runner_service.go:141-145 | Every other parameter is what the user entered, for every worker |
| ParallelRuns.WorkersDifferIff | internal/services/runner_service.go:141-156 | Workers are told apart exactly if the names allow it, and when the chain parameter overwrites the varied one exactly if the shifted names do |
| ParallelRuns.StartParallelRuns | internal/services/runner_service.go:93-198 | Either all workers start and form one registered group, or exactly those started before the failure are cancelled in order and no group is left; all that started are forwarded |
| ParallelRuns.ReportedIffNotActive | internal/services/runner_service.go:171-190 | After a failed start exactly the runs that can no longer be cancelled are reported |
| ParallelRuns.CapBelowOneLeaks | internal/services/runner_service.go:122-128 | With a cap below one nobody starts, and the group that is registered survives every sequence of clears |
| Banners.SeriousEventsAreShown | internal/notify/notify.go:216-261 | Only a one-shot info is not shown; critical and catastrophic events go to the pane, in-flight errors of a run to its pane, other ongoing ones to a banner, all else to a toast |
| Banners.StampingFillsIn | internal/notify/notify.go:159-166 | Id and time are filled in where the caller left them out, once, and nothing else changes |
| Banners.OthersStayInOrder | internal/notify/notify.go:311-318 | A replacement leaves the other banners in their order |
| Banners.OthersAllStay | internal/notify/notify.go:311-318 | And all of them, as often as they were there |
| Banners.UpsertKeepsDistinct | internal/notify/notify.go:279-291 | Non-empty banner keys stay pairwise distinct under a report |
| Banners.DropFirstKeepsDistinct | internal/notify/notify.go:293-309 | And under a dismissal, which adds no key |
| Banners.ReplaceKeepsDistinctIff | internal/notify/notify.go:311-344 | A replacement keeps them distinct exactly if the batch is distinct and meets no key that stays |
| Banners.PrefixedBatchKeepsDistinct | internal/notify/notify.go:311-344 | In particular a batch of distinct keys carrying the prefix does |
| Banners.Reservoir.UpsertBanner | internal/notify/notify.go:279-291 | In-place replacement of the first banner with the key, or an append; an empty key never matches |
| Banners.Reservoir.Report | internal/notify/notify.go:159-261 | The stamped event is logged, entered if ongoing, and routed to at most one surface, none before an app is set |
| Banners.Reservoir.DismissBanner | internal/notify/notify.go:293-309 | Splices out the first match and tells the UI even if there was none; an empty key does nothing |
| Banners.Reservoir.ReplaceBannersByPrefix | internal/notify/notify.go:311-344 | Keeps the others in order, appends the stamped batch, publishes the whole list |
| NotificationStack.AddIsUpsert | frontend/src/hooks/useNotifications.tsx:116-148 | Find-then-map by id acts on the ongoing entries as the reservoir's own upsert, and adding any other entry leaves them as they are; those others are the subject of the `PassingEntries` rows |
| NotificationStack.DismissByKeyLoop | frontend/src/hooks/useNotifications.tsx:101-114 | The loop keeps, in order, exactly the entries with another key |
| NotificationStack.ReplaceOngoingLoop | frontend/src/hooks/useNotifications.tsx:150-170 | The loop keeps the entries that are not ongoing and appends the snapshot |
| NotificationStack.ReportKeepsMirrorIff | internal/notify/notify.go:216-261 | A report leaves UI and backend in agreement exactly if it is not an ongoing critical one that changes the list |
| NotificationStack.DismissKeepsMirrorIff | frontend/src/hooks/useNotifications.tsx:101-114 | Dropping the first (backend) and dropping all (UI) agree exactly if no two banners share the key |
| NotificationStack.RemoveKeepsMirrorIff | frontend/src/hooks/useNotifications.tsx:96-99 | An entry that is closed or times out leaves agreement exactly if it is not an ongoing one |
| NotificationStack.RaiseKeepsMirrorIff | frontend/src/hooks/useNotifications.tsx:116-148 | An entry the frontend raises leaves agreement exactly if it is not ongoing or repeats the banner it replaces |
| NotificationStack.PerformKeepsMirrorIff | frontend/src/hooks/useNotifyChannel.ts:54-71 | For every operation of either side, the exact condition under which the two lists stay in agreement |
| NotificationStack.ListResynchronises | frontend/src/hooks/useNotifyChannel.ts:54-71 | A banners:list event brings any frontend state back into agreement |
| NotificationStack.PerformKeepsInStep | internal/notify/notify.go:159-344 | Every admissible operation keeps agreement, distinct keys and fresh ids |
| NotificationStack.MirrorAgrees | internal/notify/notify.go:346-352 | After any admissible session the frontend's ongoing entries are `ListBanners()`, in order and content |
| NotificationStack.MirrorRecovers | frontend/src/hooks/useNotifyChannel.ts:54-71 | After any session at all, critical banners, hand-closed ones and the frontend's own included, one replacement restores agreement, and admissible operations keep it if the keys are then distinct |
| PassingEntries.AddOnPassing | frontend/src/hooks/useNotifications.tsx:116-148 | Adding a one-shot or catastrophic entry lists it; an in-flight or ongoing one neither adds nor removes any such entry |
| PassingEntries.PerformOnPassing | frontend/src/hooks/useNotifyChannel.ts:54-71 | Each operation of either side adds the toast or critical entry it calls for and takes away those with the given id or non-empty key; banners and their lists touch none |
| PassingEntries.ListedIffStillThere | frontend/src/hooks/useNotifications.tsx:96-148 | After any session the listed toasts and critical entries are exactly those that some operation added and none since took away |
| PassingEntries.ListIsOrdered | frontend/src/hooks/useNotifications.tsx:116-148 | They stand in the order of their ids, each once |
| PassingEntries.LaterIsNewer | frontend/src/hooks/useNotifications.tsx:116-148 | And ids are handed out in the order of the operations |
| PassingEntries.ShownUntilTakenAway | frontend/src/hooks/useNotifications.tsx:96-148 | From the report to the screen: what is routed as a toast or to the pane is listed, whatever happens, exactly until its own id or key is taken away |
| Registry.EveryDirectoryIsAccountedFor | internal/registry/registry.go:292-337 | Registered scripts plus issues equals the number of sub-directories other than `_lib` |
| Registry.FirstDirectoryWins | internal/registry/registry.go:322-333 | A scan gives an id to the first directory that offers it, and to none if none does |
| ScanResults.RegisteredIff | internal/registry/registry.go:292-366 | A script is registered exactly if some sub-directory other than `_lib` holds a readable, well-formed script.json with its non-empty id and a main file, and then with the text and directory of the first that does |
| ScanResults.ReportedIff | internal/registry/registry.go:292-366 | An issue is reported exactly if it says what is wrong with some such sub-directory: not readable, malformed, without id, without main file, or a duplicate, naming the first directory |
| Registry.PluginWins | internal/registry/registry.go:161-186 | Across scans the plugin wins, and the reported overrides are exactly the shared ids |
| Registry.CappingTwice | internal/registry/registry.go:368-374 | Capping after each load is capping once at the end |
| Registry.RescanIsTheSame | internal/registry/registry.go:292-337 | A rescan of the same entries differs in its timestamps only |
| Registry.DigestDetermines | internal/registry/registry.go:399-429 | Fingerprints are equal exactly if the scripts agree up to directory and the issues up to order and time, as multisets |
| Registry.AlwaysCoherent | internal/registry/registry.go:93-208 | In every history of loads and reloads, failed ones included, the remembered fingerprint is that of the registered state |
| Registry.ReloadEqualsFreshScan | internal/registry/registry.go:152-208 | After any history, a reload that succeeds leaves what a fresh scan of the disk gives, up to directories and times, and one that fails leaves everything as it was |
| Registry.PluginScanShows | internal/registry/registry.go:399-429 | A non-empty plugin scan always shows in the fingerprint, whatever the builtin scan and the cap |
| Registry.BootIsAnOverlay | internal/registry/registry.go:93-146 | The two boot steps build what one scan of both directories builds |
| Registry.BootThenReload | internal/registry/registry.go:152-208 | A reload after boot succeeds, and finds nothing changed exactly unless the plugin directory cannot be stat'ed but can be read and is not empty |
| Registry.OddDirectoryIsDropped | internal/registry/registry.go:118-175 | A disk on which boot registers an issue of the plugin directory and the next reload drops it |
| Registry.Registry.BuildFromDir | internal/registry/registry.go:292-337 | The loop computes the scan, and fails only if the directory cannot be read |
| Registry.Registry.PutOver | internal/registry/registry.go:172-183 | The merge loop puts the new scripts on top and notices each override once, for any order of keys |
| Registry.Registry.LoadBuiltin | internal/registry/registry.go:93-108 | Merges the scan and publishes the issues, or changes nothing |
| Registry.Registry.LoadPlugins | internal/registry/registry.go:113-146 | The same for plugins, reporting the overrides; a missing directory is no error |
| Registry.Registry.Reload | internal/registry/registry.go:152-208 | Swaps to a fresh scan exactly if its fingerprint is new, nothing changes otherwise or on failure, and afterwards the state is the fresh scan up to directories and times |
| Paths.JoinIsInjective | internal/registry/registry.go:309 | Joined paths are equal exactly if the entry names are and the directories clean to the same path, however they are spelled |
| Paths.CleanIsIdempotent | internal/registry/registry.go:309 | Cleaning twice is cleaning once, and texts clean alike exactly if they parse to the same segments |
| Paths.ParseRender | internal/registry/registry.go:309 | Every canonical path is rendered to a text that parses back to it |
| Paths.CleanLeadsTheSameWay | internal/registry/registry.go:309 | A cleaned path leads where the path as written leads, step by step: from the root if it is rooted, else from any directory |
| Paths.JoinLeadsToTheEntry | internal/registry/registry.go:309 | A joined path leads to the entry of that name in the directory |
| IssueBanners.ScanIssuesAreDistinct | internal/registry/registry.go:292-337 | One scan reports each directory at most once |
| IssueBanners.PublishedKeysAreDistinct | internal/registry/registry.go:380-394 | Every load and reload of two directories with different clean paths publishes distinct, prefixed banner keys, as the mirror needs |
| IssueBanners.SameDirectoryTwiceIff | internal/registry/registry.go:380-394 | Given one directory twice, under any two spellings, the keys are distinct exactly if there are no issues or enough for the cap to drop the first scan's |
| IssueBanners.IssuesAreWarnings | internal/registry/registry.go:380-394 | A load issue is an event for a banner, and no more than a warning |
| EnvOps.Invariance | internal/services/env_service.go:55-68 | With any number of threads, the flag, the one holder's progress and the emitted trace agree in every reachable state |
| EnvOps.TraceIsBracketed | internal/services/env_service.go:274-322 | Every trace is a sequence of brackets: start, own log lines, one own outcome, own end, and nobody polls idle inside |
| EnvOps.MutualExclusion | internal/services/env_service.go:55-68 | At most one thread is past the compare-and-swap, and the flag is set while there is one |
| EnvOps.InsideItsBracket | internal/services/env_service.go:383-389 | Every log line, outcome and end belongs to the last start before it, the end with the same operation and spec |
| EnvOps.NextEdgeIsItsEnd | internal/services/env_service.go:120-122 | The next start or end after a start is its own end, and until then the service reports busy |
| EnvOps.EndAfterItsOutcome | internal/services/env_service.go:297-321 | Between a start and its end the outcome was reported, after the last log line |
| EnvOps.FlagIsReleasable | internal/services/env_service.go:65-68 | From every reachable state the holder alone can reach the cleared flag with all brackets closed |
| EnvHistory.TraceIsWhatHappened | internal/services/env_service.go:274-322 | For any number of threads, the trace without polls is what their actions call for: starts and ends with the job asked for, lines as they came, outcomes as the command ended, refusals, in order and nothing more |
| EnvHistory.EveryCallIsAnswered | internal/services/env_service.go:274-290 | Every call has been answered by one refusal or one start, but one about to be |
| EnvHistory.CallIsLetInIff | internal/services/env_service.go:55-61 | Anybody may call at any time, and is let in exactly if nobody else is |
| EnvHistory.PollTells | internal/services/env_service.go:120-122 | A poll answers whether some thread is past the compare-and-swap |
| EnvHistory.OutcomeAfterTheStreams | internal/services/env_service.go:375-380 | No outcome is reported before both streams of the command were forwarded to their ends |
| EnvHistory.CommandIsFree | internal/services/env_service.go:357-389 | A command may fail to start, write any line while its stream is open, close its streams in any order and end either way: no interleaving is left out |
| EnvOps.EnvService.TryEnter | internal/services/env_service.go:55-61 | Enters exactly if idle, emitting the start only then |
| EnvOps.EnvService.ForwardLines | internal/services/env_service.go:383-389 | One log event per line, in order |
| EnvOps.EnvService.RunInstall | internal/services/env_service.go:274-322 | A busy call only reports a refusal; any other emits one whole bracket, also when the command cannot start, and leaves the flag as found |
| RunStore.OnRunEvent | frontend/src/hooks/useScripts.ts:113-131 | The new map shows the event applied; for a known run the previous map shows it too, because the run object is shared |
| RunStore.OnRunEventTwice | frontend/src/main.tsx:32-34 | What a doubly called updater leaves, given that sharing |
| RunStore.TwiceIsOnceIff | frontend/src/hooks/useScripts.ts:113-149 | Calling the updater twice equals calling it once exactly unless it adds output to a known run |
| RunStore.RunShowsItsEvents | frontend/src/hooks/useScripts.ts:113-149 | A run is listed exactly if it was known or an event names it; its output grows by its own lines in order, and its status, progress and error are its own last ones, if any |
| RunStore.NewRunShowsOnlyItsEvents | frontend/src/hooks/useScripts.ts:113-149 | A run first heard of by its events is running until one says otherwise, and shows nothing but what they say |
| RunStore.ArrivalOrderIrrelevantIff | frontend/src/hooks/useScripts.ts:182-235 | The start result may arrive before or after any events with the same final map, exactly if none of those events introduced one of its runs under another script |
| RunStore.RejectedCacheSetShowsTheOrder | frontend/src/hooks/useScripts.ts:113-131 | For every run first heard of by a rejected cache_set, the final map tells which came first, that event or the start result |
| RunStore.InsertStarted | frontend/src/hooks/useScripts.ts:217-227 | The insertion loop adds exactly the unknown runs |
| RunStore.CollectGroups | frontend/src/hooks/useScripts.ts:262-279 | The deletion loop drops exactly the groups whose members are all known and finished, in any order |
| RunStore.GroupRemainsIff | frontend/src/hooks/useScripts.ts:259-279 | Whatever arrives and however often groups are collected, a started group is listed after a collection exactly if some member is known and running |
| RunStore.MembersAreKnown | frontend/src/hooks/useScripts.ts:217-235 | From its start on a group's members are known, whatever arrives, and those that were not are running |
| Ring.RingBuffer.Push | internal/logging/ring.go:44-52 | For every positive capacity the array with head and count represents the whole push history |
| Ring.RingBuffer.Entries | internal/logging/ring.go:69-80 | The index loop returns the last min(n, capacity) pushes, oldest first |
| Ring.ViewerFollowsRing | frontend/src/components/LogViewer.tsx:39-41 | A viewer that starts from the entries of a ring of capacity 1000 (`main.go:31`) shows that ring's entries after any further pushes |

## Left out

- gRPC transport, protobuf encoding, sockets and flow control: each stream direction is an unbounded FIFO, so a blocked `Send` under `streamMu` is not modelled.
- Process spawning, signals and stderr capture: exit code, wait error and stderr text are arbitrary inputs; texts are measured in characters, where Go counts bytes.
- `SendStart`, `waitAndSendStart` and the connect timeout: they send one message and otherwise kill the process, which the model allows at any time.
- The crash report that routes stderr to the run pane, among the steps of `Lifecycle`: a report outside the channel that affects neither status nor records; `Manager.Manager.CrashReport` says when it is made.
- `CancelAll` and `CancelGroup`: loops over `CancelRun` that add nothing to its interleavings.
- Real time: every timeout, grace period and auto-dismiss timer is a step that may happen whenever it is armed; the file watcher's debounce is not modelled.
- SQL and SQLite: only the status and text passed to the run record; the answers to dialogs and database requests are not told apart.
- SHA-256 and JSON: the fingerprint is taken as injective on what is encoded; sorting before hashing is modelled by a map and a multiset.
- `Registry.Issues`, `List`, `PluginDir` and path resolution: `List` sorts with ties in random map order; name, description, parameters and parallel settings of a script are one text.
- Paths.Join: uses the slash rules; the separators and volume names of Windows are not modelled.
- Shared-memory system calls, pickling and the Python-side clean-up of segments: `unlinkShm` is an entry in a ghost log, and Python's own unlinking is not modelled.
- Listeners that are not yet attached when an event is emitted, the log ring's push callback, and the order in which the UI lists the entries of a map.
- The text of the fallback toast and of override, refusal and load-issue messages; load-issue banners carry the directory as their message.
- Lifecycle.Step: works on values; the in-place updates of the same operations are in `GrpcServer` and `Manager`, where the buffer has no bound and methods do not interleave.
- GrpcServer.RunChannel.TrySend: has no bound on the buffer and so never waits; the bounded channel with the blocked sender is in `Lifecycle`.
- LifecycleProgress.DeadlockFreedom: the locks whose holders wait for nothing (`Manager.mu`, `groupsMu`, the reservoir's and the cache's) are not in the state; the consumer takes only such locks.
- LifecycleProgress.StuckMeansFinished: leaves handlers in an open file dialog waiting, for as long as the user does.
- GrpcServer.RunChannel.TransitionTo: has no retry loop, because both callers hold the server lock and the swap cannot fail.
- Client.Invariance: works on values; the condition variable, the queues and the lock are a step system, so aliasing of message objects is not captured.
- NotificationStack.MirrorAgrees: covers sequential sessions without ongoing critical events, hand-closed banners and banners raised by the frontend itself; `NotificationStack.PerformKeepsMirrorIff` says when those make the lists differ, `MirrorRecovers` when they agree again.
- ParallelRuns.StartParallelRuns: takes the outcome of each spawn and the set of cancellable runs as inputs instead of interleaving with the runs; what their forwarders do meanwhile is in `RunnerService.EarlyClearsDoNotCount`.
