# Verified model of the Telegram bridge's single-writer handoff

The bridge lets one Telegram chat continue coding threads that another program may be
writing. This project models the parts of it that decide what is executed, when a thread
is forked, which worker may write, and what is reported, and proves what those parts
promise over every run and every input.

`dafny verify dfyconfig.toml` checks the whole project (Dafny 4.11).

## How the model is built

Identifiers are natural numbers compared for equality, with zero for the empty string;
times are integers. One SQL transaction, one locked section of an object, or one App
Server call is one atomic step. App Server answers, worker acquisition, stored thread
metadata, clocks, encryption failures and crashes are parameters of the steps, so every
statement holds for all of them.

Objects whose methods change fields are classes (`MinimalStore.Store`,
`LinkWorkerManager.Manager`, `RpcClient.Client`, `LiveTools.Service`, `Snapshots.Cell`,
`TerminalGate.Gate`, `TurnOrder.Walk`, `VisualMarkers.Service`); each method is proved
against a function on values, and the properties are proved about that function and about
runs of it. Loops of the source are loops with invariants. The protocols that interleave
are transition systems: a state, one function per step, and a `Run` over any list of steps.

| module | what it models |
|---|---|
| `PendingCommands`, `Continuations`, `LinkedThreads` | the rows of three tables and their guarded updates (internal/storage/store_minimal.go) |
| `GenerationCounters` | worker generations drawn from a counter that restarts with the daemon, against rows that do not |
| `MinimalStore` | the store object, the startup recovery order and the drain loop of the router |
| `Handoff` | every task of the router between two atomic steps: queue, source backlog, thread and link locks, fork, activation, turn start, settling, crash and recovery |
| `HandoffInvariant`, `HandoffSafety`, `HandoffDelivery`, `HandoffPrompts` | its invariant, its main results, and where every prompt went |
| `HandoffOutcomes`, `HandoffReasons`, `HandoffExample` | how each turn start ends its command, that waiting prompts can be started, why a command may end, and a run that exercises the protocol |
| `LinkWorkers`, `LinkWorkerManager` | the worker registry as functions and as an object with shared worker objects |
| `WorkerSessions`, `WorkerSafety`, `WorkerConservation` | acquires, binds, releases and shutdowns in any interleaving |
| `WorkerAnswers` | which requests to the manager are accepted, in terms of acquires in flight and live workers |
| `RpcClient`, `RpcCorrelation`, `RpcReplies` | the JSON-RPC client: locked sections, reply channels outside the lock, and which reply reaches which waiter |
| `VoiceConfirmations`, `VoicePreviews` | the two-button voice previews as tables, and as the list that users see |
| `Notifier`, `NotifierBaselines`, `NotifierQueue`, `Snapshots`, `LiveTools`, `TerminalGate` | what is observed and delivered |
| `MessageSplitter`, `CodeBlocks`, `TurnOrder`, `SourceAnchors`, `VisualMarkers` | self-contained algorithms |

### Why a prompt starts at most once

A command whose prompt was handed to the App Server stays claimed until it is finalized, so
only `RecoverCreatingMinimalContinuations` could return it. That step looks at commands
whose continuation is being created. A task that creates a continuation holds the lock of
the source thread and of the linked row; once the source is linked, or its own continuation
is active, no creating continuation of that key can appear again (`Settled` in
`HandoffInvariant`). Every prompt that is handed on either belongs to a settled key or to a
task that still holds the lock of its source. Copies made behind a busy target are covered:
the original counts as handed on when its copy is queued. A copy goes to the end of the
queue, so first-in first-out order is claimed for thread claims only.

### Where the code does less than it promises

- The finish step that the daemon calls resets the generation of the row
  (internal/storage/store.go:2515-2575), and the counter of the workers restarts with the
  daemon, so one generation can be used for a second turn; `ResettingFinishReusesGeneration`
  gives a run. Within one process it cannot (`OneTurnPerProcess`). Across restarts
  `SafeExactlyWhenNothingIsAhead` is the exact condition: a ready row is safe until the next
  restart if and only if the counter has passed every generation that the row was used with
  and no idle worker holds one of them.
- The router closes an unbound worker without asking whether it is still registered
  (internal/daemon/minimal_continuation.go:714-734). After a shutdown took that worker its
  session is closed twice; `UnboundReleaseSafeExactlyWhenRegistered` is the exact condition.
- A thread can get its baseline without a read of its turns: it is only listed and then
  marked ready (internal/storage/store_notifier.go:187-202), or its read saw no turn. The next
  read then looks at the last turn only (internal/daemon/notifier_observer.go:288-299), which
  loses turns that ended before it, and reports an old turn when nothing was added.
  `UnreadBaselineRightExactlyWhen` is the exact condition for one read,
  `UnreadBaselineExactlyOnceExactlyWhen` for whole runs.
- A live tool whose id equals the output detail of another tool loses its entry and can
  become current again (internal/daemon/service.go:1371-1390);
  `ReturnsExactlyWhenItsIdWasTaken` is the exact condition over runs.
- A JSON-RPC id is truncated before it is looked up (internal/appserver/client.go:1154-1167),
  so a fractional id resolves a request; `ResolvedExactlyByItsIntegerPart` says exactly which
  numbers resolve which request.

## Model

| member | source | states |
|---|---|---|
| `HandoffSafety.PromptsStartAtMostOnce` | internal/daemon/minimal_router.go:655-789 | Over every run of drains, backlogs, direct messages, forks, releases, crashes and recoveries, no prompt has two turn starts that were accepted or left unknown, and no pending command carries a started prompt |
| `HandoffSafety.ForksAreSpaced` | internal/daemon/minimal_continuation.go:471-563 | Between two fork calls for one chat, source thread and source turn there is a definite failure of that key or an explicit repair of its chat |
| `HandoffSafety.ActiveStaysActive` | internal/storage/store_minimal.go:627-721 | An active continuation keeps its child in every later state of the whole protocol |
| `HandoffSafety.NextKeeps` | internal/daemon/minimal_continuation.go:121-615 | Every single step of every task keeps the protocol invariant |
| `HandoffSafety.HandedOnIsNotCreating` | internal/storage/store_minimal.go:401-441 | A claimed command whose prompt was handed on never has a continuation in the making, so recovery cannot return it |
| `HandoffSafety.CrashKeeps` | internal/daemon/service.go:146-178 | A crash at any point leaves a state from which recovery is safe |
| `HandoffSafety.RecoverContinuationsKeeps` | internal/storage/store_minimal.go:401-441 | Returning the claimed commands of interrupted continuations keeps the invariant |
| `HandoffSafety.AdoptKeeps` | internal/storage/store_minimal.go:462-545 | Adopting an active continuation as a link keeps the invariant |
| `HandoffSafety.ActivateLinkedKeeps` | internal/storage/store_minimal.go:627-721 | Activation, one transaction over three tables, keeps the invariant for every other task |
| `HandoffSafety.CopyBehindKeeps` | internal/daemon/minimal_continuation.go:373-469 | Queueing a prompt again behind a busy target keeps exactly one copy that may still start |
| `HandoffPrompts.CompletedMeansHandedOn` | internal/daemon/minimal_router.go:655-716 | In every reachable state the prompt of a completed command is among the turn starts, accepted or unknown, or a later command was queued with it |
| `HandoffPrompts.NoPromptIsLost` | internal/daemon/minimal_router.go:655-789 | Over every run the prompt of every command ever queued was started, or the last command queued with it still stores it or failed with it: the chain of copies behind a completed command never ends in a completed one without a start |
| `HandoffPrompts.StepAccounts` | internal/daemon/minimal_continuation.go:373-413 | A step hands a prompt on only to a turn start or to the row it appends, and then every prompt is still accounted for |
| `HandoffOutcomes.BusyLinkWaits` | internal/daemon/minimal_router.go:731-746 | In every reachable state a routed command whose link is running or waits for its release goes back to waiting with its prompt, and one whose link failed is failed |
| `HandoffOutcomes.ReadyLinkStarts` | internal/daemon/minimal_router.go:743-766 | With a ready link whose generations are not used up some continuation appends the prompt of a routed command to the turn starts |
| `HandoffOutcomes.OtherRouteStarts` | internal/daemon/minimal_router.go:768-789 | A command that is not on its link is resumed or started on its own thread, and some continuation starts its prompt |
| `HandoffOutcomes.OldestPromptCanStart` | internal/daemon/minimal_router.go:655-716 | In every reachable state a drain of a free thread claims its oldest waiting command with its prompt, and unless the link of that command is busy, failed or out of generations some continuation starts it next |
| `HandoffOutcomes.ThreadStartEnds` | internal/daemon/minimal_router.go:688-716 | A start on the thread completes its command when it was accepted and fails it when it was refused or not answered |
| `HandoffOutcomes.LinkedStartEnds` | internal/daemon/minimal_continuation.go:449-468 | A start on a linked row completes its command when accepted and recorded on the row, leaves it claimed when accepted but not recorded, and fails command and row otherwise |
| `HandoffOutcomes.NothingStartedWaits` | internal/daemon/minimal_router.go:691-704 | Every step that finds that no turn can be started now gives the command back to waiting with its prompt |
| `HandoffOutcomes.ForkErrorEnds` | internal/daemon/minimal_continuation.go:751-762 | After an error of the fork call the key may be forked again exactly for the four codes |
| `HandoffOutcomes.ForkPathStarts` | internal/daemon/minimal_continuation.go:471-563 | A task that may fork starts its prompt in the new child, which is then linked and active, and the unfinished commands of the source move there |
| `HandoffOutcomes.CopyEnds` | internal/daemon/minimal_continuation.go:406-417 | A busy target takes the prompt over: the last command of the target carries it, and the old one is completed when the running turn is known |
| `HandoffOutcomes.DirectMessageStarts` | internal/daemon/minimal_router.go:350-420 | A message to a free thread that is not a link of its chat can be started at once with a prompt of its own, and queues nothing |
| `HandoffOutcomes.LinkPath` | internal/daemon/minimal_continuation.go:121-360 | A resumed command of a turn from another writer locks its link and finds exactly the linked row of its chat and source, or that there is none |
| `HandoffOutcomes.DirectMessageOnLink` | internal/daemon/minimal_continuation.go:371-425 | A message to a linked thread is queued behind a running turn, started on a ready row, and refused before the start otherwise |
| `HandoffOutcomes.BacklogTakesOldest` | internal/daemon/minimal_router.go:426-480 | Behind a backlog the new message is queued last and the oldest waiting command of its source is claimed, unless one is claimed already |
| `HandoffOutcomes.CrashRecovers` | internal/daemon/service.go:153-178 | From any state a crash and the recovery leave nothing in flight, and say per row, link and continuation what became of it |
| `HandoffReasons.FailedOnlyForAReason` | internal/daemon/minimal_router.go:655-789 | Over every run a command is failed only by a refused or unanswered start, a failure before the start, a failed link, a copy that could not be queued or has no known turn, or a startup that found it claimed |
| `HandoffReasons.CompletedOnlyForAReason` | internal/daemon/minimal_router.go:712-716 | Over every run a command is completed only by an accepted start, recorded when it is on a link, or by a copy behind a known turn |
| `HandoffInvariant.Push` | internal/daemon/minimal_continuation.go:471-563 | An attempt for a key that was not tried since its last reopening keeps the attempts spaced |
| `Handoff.ForkFailureKind` | internal/daemon/minimal_continuation.go:751-762 | A failed fork is definite exactly for the codes -32700, -32600, -32601 and -32602 and ambiguous for every other code or error |
| `HandoffExample.RestartedPromptStartsOnce` | internal/daemon/service.go:146-178 | There is a run in which a prompt survives a crash during its fork, is forked again after a repair, and starts once |
| `HandoffExample.CrashWhileForking` | internal/storage/store_minimal.go:401-441 | After such a crash, recovery and repair leave the prompt waiting and nothing in flight |
| `PendingCommands.FifoOverEveryRun` | internal/storage/store_minimal.go:1862-1949 | Over every run of thread-keyed operations at most one command of a thread is claimed, the finished ones are a prefix of its enqueue order, and a prompt is stored exactly while its command is pending or claimed |
| `PendingCommands.ClaimTakesOldestUnfinished` | internal/storage/store_minimal.go:1888-1949 | A thread claim succeeds exactly when nothing is claimed and something is pending, and takes the oldest unfinished command with its prompt |
| `PendingCommands.RunKeeps` | internal/storage/store_minimal.go:2019-2115 | Finished rows never change and every row keeps its thread, source and prompt |
| `PendingCommands.FirstFrom` | internal/storage/store_minimal.go:1906-1915 | The selected row is the oldest that satisfies the condition |
| `Continuations.ActiveIsAbsorbing` | internal/storage/store_minimal.go:186-240 | Over every run an active continuation keeps its row and can never be claimed for another fork |
| `Continuations.ClosedUntilReopened` | internal/storage/store_minimal.go:370-460 | A key that may not be forked stays so until a definite failure of it or an explicit rearm of its chat |
| `LinkedThreads.OneTurnEverWithoutClear` | internal/storage/store_minimal.go:723-870 | Without the resetting finish the row's own guard is enough, over all runs and restarts |
| `LinkedThreads.GuardAloneGivesFreshness` | internal/storage/store_minimal.go:723-752 | The guard of the claim alone then makes every ownership use a fresh generation |
| `LinkedThreads.GenerationsRiseWithClaims` | internal/storage/store_minimal.go:723-951 | Over every run without a resetting finish of the row its generation never decreases, rises with every accepted claim, and is unchanged exactly when there was none |
| `LinkedThreads.OtherGenerationsChangeNothing` | internal/storage/store_minimal.go:754-936 | Any number of mark, begin, finish or fail steps with other generations changes nothing |
| `LinkedThreads.RestingRowsHaveNoTurn` | internal/storage/store_minimal.go:841-936 | In every reachable table a ready or failed row has no active turn |
| `LinkedThreads.FailedIsFinal` | internal/storage/store_minimal.go:906-936 | A failed row never changes again |
| `LinkedThreads.RestartedTurnFinishes` | internal/storage/store_minimal.go:938-951 | However often the daemon restarts and whatever happens to other links, the turn of a running row can be finished afterwards with its generation and turn, which makes the row ready and keeps its other columns |
| `LinkedThreads.FailsOnlyByItsOwner` | internal/storage/store_minimal.go:906-951 | Over every run a link fails only by a fail step of its own generation while it is owned; a restart never fails one |
| `LinkedThreads.ResettingFinishReusesGeneration` | internal/storage/store.go:2515-2575 | A run in which the resetting finish lets one generation record two turns |
| `GenerationCounters.OneTurnPerProcess` | internal/daemon/minimal_link_worker.go:150-152 | In every run without a restart each linked thread and generation records at most one turn, although the row's generation is reset |
| `GenerationCounters.SafeExactlyWhenNothingIsAhead` | internal/storage/store.go:2515-2575 | In every reachable world, after any restarts, no way to go on in this process records a second turn for a generation of a ready row if and only if no generation recorded for it is above the counter or held by an idle worker |
| `GenerationCounters.SafeAfterRestartExactlyWhenUnused` | internal/storage/store_minimal.go:723-780 | Right after a restart that means: if and only if no turn was ever recorded for the row |
| `GenerationCounters.AheadIsReused` | internal/storage/store_minimal.go:723-752 | Otherwise a run of draws, a claim and a mark that records the second turn |
| `MinimalStore.Store.EnqueuePendingCommand` | internal/storage/store_minimal.go:1862-1886 | Appends one pending row with the protected prompt, or nothing when a field is empty or protection fails |
| `MinimalStore.Store.ClaimPendingCommand` | internal/storage/store_minimal.go:1888-1949 | Claims the oldest pending row of a thread that has no claimed one and changes nothing else |
| `MinimalStore.Store.ClaimPendingCommandForSource` | internal/storage/store_minimal.go:1951-2017 | The same by source key; an incomplete key claims nothing |
| `MinimalStore.Store.ReleaseClaimedPendingCommand` | internal/storage/store_minimal.go:2019-2038 | Changes a row exactly when it is claimed |
| `MinimalStore.Store.FinalizePendingCommand` | internal/storage/store_minimal.go:2090-2104 | Completes or fails a row exactly when it is claimed and drops its prompt |
| `MinimalStore.Store.RecoverClaimedPendingCommands` | internal/storage/store_minimal.go:2106-2115 | Leaves no claimed row |
| `MinimalStore.Store.ClaimMinimalContinuation` | internal/storage/store_minimal.go:186-240 | Reports creation exactly when the key is new or failed definitely without a child |
| `MinimalStore.Store.FailMinimalContinuation` | internal/storage/store_minimal.go:370-399 | Fails exactly a creating row, with a definite or ambiguous kind |
| `MinimalStore.Store.RecoverCreatingMinimalContinuations` | internal/storage/store_minimal.go:401-441 | One transaction: returns the claimed commands of creating continuations and fails these as ambiguous |
| `MinimalStore.Store.RearmAmbiguousMinimalContinuations` | internal/storage/store_minimal.go:443-460 | Keeps all keys and all rows except the ambiguous failures of the chat, leaves the chat none of them, and makes exactly those without a child claimable again; without a chat id nothing changes |
| `MinimalStore.Store.AdoptMinimalLinkedThreads` | internal/storage/store_minimal.go:462-545 | Afterwards every active continuation's source is linked, old links are unchanged and every new link comes from the first row of its source; a conflict changes nothing |
| `MinimalStore.Store.ActivateMinimalLinkedThread` | internal/storage/store_minimal.go:627-721 | All three tables change together or none does |
| `MinimalStore.Store.ClaimMinimalLinkedWorker` | internal/storage/store_minimal.go:723-752 | Takes a ready row exactly when the generation is valid and greater |
| `MinimalStore.Store.MarkMinimalLinkedTurnStarted` | internal/storage/store_minimal.go:754-780 | Records a turn exactly on a running row of that generation without one |
| `MinimalStore.Store.BeginMinimalLinkedRelease` | internal/storage/store_minimal.go:809-839 | Reports a change exactly when the row changed |
| `MinimalStore.Store.FinishMinimalLinkedReleaseWithReadyDelivery` | internal/storage/store.go:2515-2575 | Makes exactly the matching release-pending row ready and resets its generation |
| `MinimalStore.Store.FailMinimalLinkedThread` | internal/storage/store_minimal.go:906-936 | Fails exactly an owned row of that generation |
| `MinimalStore.Store.RecoverMinimalLinkedWorkers` | internal/storage/store_minimal.go:938-951 | Per row: a running link keeps every column but its state, which becomes release pending; every other row is unchanged |
| `MinimalStore.Store.RecoverAtStartup` | internal/daemon/service.go:153-178 | In startup order: nothing is left in flight and no voice preview is open; of the claimed commands exactly those whose continuation was being created wait again, the others failed; running links wait for their release, the other old links are unchanged and every new one was adopted; a conflict in the adoption stops after the first step |
| `MinimalStore.Store.DrainNext` | internal/daemon/minimal_router.go:655-716 | For any outcome of each attempt (not linked to the tasks of `Handoff`), the loop ends; it fails exactly the waiting commands before the first whose attempt does not fail, leaves that one as its outcome says, and touches no other row |
| `WorkerConservation.RegistryAlwaysValid` | internal/daemon/minimal_link_worker.go:92-458 | In every interleaving the three indexes describe one worker set, reservations are disjoint from live workers, the wait group counts the busy keys, and a confirmed release names no live thread and only a worker whose close or exit was confirmed |
| `WorkerConservation.CommitRefusedOnlyByShutdown` | internal/daemon/minimal_link_worker.go:129-150 | The duplicate re-checks of a commit are unreachable |
| `WorkerConservation.SessionsAreConserved` | internal/daemon/minimal_link_worker.go:104-178 | Every session handed out has exactly one holder while it is open, none afterwards, and is closed at most once |
| `WorkerConservation.ShutdownClosesEverything` | internal/daemon/minimal_link_worker.go:332-366 | After a shutdown and the releases in flight every session was closed exactly once |
| `WorkerConservation.NothingAfterShutdown` | internal/daemon/minimal_link_worker.go:394-398 | After a shutdown no worker is registered and no session is handed out, ever |
| `WorkerAnswers.AcquireAcceptedExactly` | internal/daemon/minimal_link_worker.go:394-420 | Over every run a new acquire is accepted if and only if it has a key, no shutdown began, and no acquire in flight and no live worker has its key or thread |
| `WorkerAnswers.AcquireErrors` | internal/daemon/minimal_link_worker.go:394-420 | Which failing condition gives which error, in the same terms |
| `WorkerAnswers.CommitRegisters` | internal/daemon/minimal_link_worker.go:129-178 | A commit registers a live worker with the key, thread and session of its acquire, or after the begin of a shutdown leaves the session to be closed |
| `WorkerAnswers.BindAcceptedExactly` | internal/daemon/minimal_link_worker.go:189-225 | A worker is bound exactly when it is live and no other worker and no acquire in flight has the thread |
| `WorkerAnswers.ReleaseTakesExactly` | internal/daemon/minimal_link_worker.go:255-283 | A release takes exactly the live worker of that thread and generation; all others stay live |
| `WorkerAnswers.ReleaseRefusedExactly` | internal/daemon/minimal_link_worker.go:263-267 | Without such a worker a release changes nothing |
| `WorkerAnswers.ShutdownTakesExactly` | internal/daemon/minimal_link_worker.go:332-353 | A shutdown waits for the acquires in flight and then takes exactly the live workers |
| `WorkerAnswers.ConfirmedReleaseIsRecorded` | internal/daemon/minimal_link_worker.go:368-383 | A confirmed release is recorded for its thread unless the thread has a live worker again |
| `WorkerAnswers.ReleaseCloses` | internal/daemon/minimal_link_worker.go:271-283 | Closing a released worker closes its session once, and goes on to the record exactly when close or exit was confirmed |
| `WorkerAnswers.FailedAcquireCanBeRetried` | internal/daemon/minimal_link_worker.go:104-128 | After an acquire whose session was missing or did not start the same request is accepted again |
| `WorkerConservation.UnboundReleaseSafeExactlyWhenRegistered` | internal/daemon/minimal_continuation.go:714-734 | The unbound release is safe for all schedules of the remaining closes if and only if its worker is still registered |
| `WorkerConservation.ReleaseAfterShutdownClosesTwice` | internal/daemon/minimal_continuation.go:714-734 | A run in which a session is closed twice |
| `WorkerSafety.RunKeepsInv` | internal/daemon/minimal_link_worker.go:92-458 | Every step of every acquire, release and shutdown keeps the manager's invariant |
| `LinkWorkers.LiveWorkersDiffer` | internal/daemon/minimal_link_worker.go:150-167 | Live workers differ in key, in thread and in generation |
| `LinkWorkers.CommitKeeps` | internal/daemon/minimal_link_worker.go:129-170 | Registering a worker keeps the indexes coherent and retires the confirmed release of its thread |
| `LinkWorkers.RemoveKeeps` | internal/daemon/minimal_link_worker.go:443-458 | Removing a worker takes it out of all indexes and leaves every other worker live |
| `LinkWorkers.BindKeeps` | internal/daemon/minimal_link_worker.go:189-225 | Binding a thread keeps the indexes coherent |
| `LinkWorkers.RecordKeeps` | internal/daemon/minimal_link_worker.go:368-383 | Recording a release never names a live thread |
| `LinkWorkerManager.Manager.BeginAcquire` | internal/daemon/minimal_link_worker.go:394-420 | Answers with the first failing check, or reserves key and thread |
| `LinkWorkerManager.Manager.CommitAcquire` | internal/daemon/minimal_link_worker.go:129-170 | Registers a fresh worker object under all its indexes and ends the reservation, or changes nothing |
| `LinkWorkerManager.Manager.BindThread` | internal/daemon/minimal_link_worker.go:189-225 | Binds through the shared worker object, seen by every index |
| `LinkWorkerManager.Manager.RemoveLocked` | internal/daemon/minimal_link_worker.go:443-458 | Removes exactly the entries that point to this object |
| `LinkWorkerManager.Manager.TakeForRelease` | internal/daemon/minimal_link_worker.go:255-270 | Takes out the live worker of the thread exactly when the generation matches |
| `LinkWorkerManager.Manager.RecordConfirmedRelease` | internal/daemon/minimal_link_worker.go:368-383 | Records the release unless the thread is live again |
| `LinkWorkerManager.Manager.TakeAll` | internal/daemon/minimal_link_worker.go:341-353 | Hands every registered worker to the caller and empties the registry |
| `RpcCorrelation.ChannelsUsedOnce` | internal/appserver/client.go:198-231 | Every reply channel gets at most one value, is closed at most once and not before its value; nothing panics and the shutdown send always finds room |
| `RpcCorrelation.DeliveryNeverBlocks` | internal/appserver/client.go:1048-1069 | A reader that took a channel can always send to it |
| `RpcCorrelation.WaitersGetTheirReply` | internal/appserver/client.go:277-332 | A waiter never reads a bare closed channel; its response was read by the process its request went to, and carries a number in the unit interval from the request's id on, which is that id exactly when the number is integral |
| `RpcCorrelation.ServerRequestsAreCurrent` | internal/appserver/client.go:360-434 | A server request is answered exactly when it is pending with the same identity and the write succeeds, and then never again |
| `RpcCorrelation.NextKeeps` | internal/appserver/client.go:121-332 | Every step of readers, waiters and shutdowns keeps the channel discipline |
| `RpcReplies.WaitersGetWhatWasRead` | internal/appserver/client.go:1048-1069 | Over every run the response a waiter receives has the generation, id and value that some step read when it took this channel |
| `RpcReplies.OneReadOneWaiter` | internal/appserver/client.go:1048-1069 | No two waiters receive the same read |
| `RpcReplies.ClosedMeansShutdown` | internal/appserver/client.go:198-231 | A waiter is told that the process closed only when a shutdown found it waiting |
| `RpcReplies.ResponseReachesItsWaiter` | internal/appserver/client.go:1048-1069 | In every reachable state the response of the running process to a waiting request reaches its waiter with its value |
| `RpcReplies.ShutdownReachesItsWaiter` | internal/appserver/client.go:198-231 | A shutdown reaches every waiting request |
| `RpcReplies.TimedOutIsForgotten` | internal/appserver/client.go:300-332 | After a timeout a late response resolves nothing |
| `RpcReplies.StaleResponseIsDropped` | internal/appserver/client.go:1048-1059 | Over every run a response of a process that was shut down changes nothing |
| `RpcReplies.ServerRequestStays` | internal/appserver/client.go:360-434 | A server request stays pending with its identity, and can be answered, over every run that does not answer, resolve or replace it |
| `RpcClient.ResolvedExactlyByItsIntegerPart` | internal/appserver/client.go:1048-1167 | For every number and pending request: a response takes the request exactly when its process is current and the number lies between the id and the next one, and then takes no other |
| `RpcClient.FractionalIdResolves` | internal/appserver/client.go:1154-1167 | In particular 1.5 resolves request 1 |
| `RpcClient.Client.StartProcess` | internal/appserver/client.go:121-160 | Starts a new generation exactly when none runs and the process was created |
| `RpcClient.Client.TakeAllPending` | internal/appserver/client.go:198-217 | Hands over all pending channels and ends the generation |
| `RpcClient.Client.Register` | internal/appserver/client.go:277-289 | A request waits under an id that no pending request has |
| `RpcClient.Client.TakeForResponse` | internal/appserver/client.go:1048-1059 | Takes the channel of the id only for the running generation |
| `RpcClient.Client.RespondServerRequest` | internal/appserver/client.go:360-434 | Answers with the first failing check and forgets the request exactly when it was written |
| `VoiceConfirmations.ConsumedAtMostOnce` | internal/storage/store_minimal.go:1445-1531 | Execute and cancel together succeed at most once per confirmation over all runs, and an execution returns the transcript it was created with |
| `VoiceConfirmations.ButtonsMatchStatus` | internal/storage/store_minimal.go:1336-1577 | A pending confirmation has exactly two active buttons with its own binding; any other has none and keeps no transcript |
| `VoiceConfirmations.MatchingClaimSucceeds` | internal/storage/store_minimal.go:1445-1531 | A claim succeeds exactly when it matches, is in time and, for an execution, the transcript can be read; the sibling count never decides |
| `VoiceConfirmations.ClosedRowsStay` | internal/storage/store_minimal.go:1533-1577 | Over every run a closed confirmation never changes again |
| `VoicePreviews.TablesAnswerLikePreviews` | internal/storage/store_minimal.go:1336-1577 | Over every run the tables hold the rows of a list of previews and answer every claim as that list does; a claim that addresses no preview changes nothing |
| `VoicePreviews.EachButtonDoesItsAction` | internal/storage/store_minimal.go:1384-1531 | In every reachable store an open, bound preview in time gives its transcript for the execute token and is cancelled by the cancel token, and answers nothing when the actions are exchanged |
| `VoicePreviews.NobodyElse` | internal/storage/store_minimal.go:1445-1500 | A claim with a token of a preview but another action, session or message answers nothing and changes nothing |
| `VoicePreviews.TokensAreUnique` | internal/storage/store_minimal.go:1380-1390 | A token names one preview and one button for ever |
| `Notifier.ExactlyOnceInOrder` | internal/daemon/notifier_observer.go:170-225 | After a baseline read of a thread with turns, however many turns arrive between polls and wherever polls stop, the queue is a prefix of the events of all turns that ended since, each once and in order, and all of them after a completed poll |
| `Notifier.SinceReportsTheNewEnds` | internal/daemon/notifier_observer.go:260-311 | One read after another reports exactly the turns that ended in between |
| `NotifierQueue.QueueHoldsExactlyTheOutcomes` | internal/daemon/notifier_observer.go:170-225 | After a baseline read and any polls, the last completed, an event is queued exactly when some turn that was not over at the baseline completed, failed, or was interrupted with a final answer |
| `NotifierQueue.FirstSightReportsTheLast` | internal/daemon/notifier_observer.go:260-299 | Without any baseline the first completed read reports its last turn if the thread changed after the activation, and from then on exactly what ends later is added |
| `NotifierBaselines.UnreadBaselineExactlyOnceExactlyWhen` | internal/daemon/notifier_observer.go:170-225 | From a baseline without a read, over every run, after a completed poll the queue has exactly the events of the turns that ended since, each once and in order, if and only if the polls up to the first recorded read saw each of these ends as the last turn and no older one |
| `NotifierBaselines.FirstReadDecides` | internal/daemon/notifier_observer.go:170-299 | When no earlier poll enqueued anything, that is the case exactly when the first recorded read meets the condition for one read |
| `NotifierBaselines.UnreadBaselineRightExactlyWhen` | internal/daemon/notifier_observer.go:288-299 | The first read after such a baseline is right if and only if no turn but the last ended since and, when none was added, the last is not reportable |
| `NotifierBaselines.UnreadBaselineCanReportAnOldTurn` | internal/storage/store_notifier.go:187-202 | A turn from before the baseline that is reported |
| `NotifierBaselines.UnreadBaselineCanMissATurn` | internal/daemon/notifier_observer.go:288-299 | Of any two reportable turns that end before the first read the first is lost |
| `Notifier.StartIndex` | internal/daemon/notifier_observer.go:288-299 | The first turn with the previous id, else the last turn |
| `Notifier.TerminalSnapshotsSince` | internal/daemon/notifier_observer.go:260-286 | The loop selects what the specification selects |
| `MessageSplitter.SplitRendered` | internal/daemon/minimal_observer.go:322-351 | The chunks join to the text, none is empty, each has at most `limit` units and is as long as fits, and each carries the clipped entities of its range |
| `MessageSplitter.EveryRuneFitsFromTwo` | internal/daemon/minimal_observer.go:328-336 | A limit of two or more always makes progress |
| `MessageSplitter.EntitiesPartitioned` | internal/daemon/minimal_observer.go:338-346 | A unit has a style exactly when its chunk gives it that style; clipped entities lie inside their chunk |
| `MessageSplitter.EntityHasItsPiece` | internal/daemon/minimal_observer.go:338-346 | Each entity that reaches into a chunk has its own piece there, in the order of the entities, that covers the same units with the same style |
| `MessageSplitter.OnePieceEach` | internal/daemon/minimal_observer.go:338-346 | A chunk carries nothing but pieces of entities that reach into it, at most one of each, in their order |
| `MessageSplitter.DecodeEncoded` | internal/daemon/minimal_observer.go:328-337 | Decoding the units of a text gives its runes back |
| `MessageSplitter.PiecesAddUp` | internal/daemon/minimal_observer.go:338-346 | The pieces of an entity add up to its part inside the text |
| `MessageSplitter.ChunksKeepPairs` | internal/daemon/minimal_observer.go:328-337 | Encoded chunks are consecutive pieces of the encoded text and never separate a surrogate pair |
| `LiveTools.NoResurrection` | internal/daemon/service.go:1174-1245 | A tool that gave way to another in its turn never becomes current again in that turn, over any run of merges (reads between them are left out) in which no accepted output takes its id |
| `LiveTools.ReturnsExactlyWhenItsIdWasTaken` | internal/daemon/service.go:1344-1390 | Over every run of merges in which a superseded tool has not come back so far, its next event in the open turn is accepted if and only if some output of the run took its id |
| `LiveTools.ListedUntilTaken` | internal/daemon/service.go:1371-1390 | Over every such run a listed tool stays listed exactly until an output takes its id |
| `LiveTools.CollidingIdReturns` | internal/daemon/service.go:1371-1390 | Runs in which it returns |
| `LiveTools.MergeKeepsShape` | internal/daemon/service.go:1221-1234 | The latest tool stays the last tool of the details |
| `LiveTools.TurnsOnlyGrow` | internal/daemon/service.go:1203-1207 | Over every run of merges the latest turn is the same or a greater one, and then the earlier one had ended on the way |
| `LiveTools.EndedToolsStayEnded` | internal/daemon/service.go:1214-1219 | Over every run of merges that ends in the same turn, in which no output takes its id, a tool that ended is never current and running again |
| `LiveTools.AcceptedExactly` | internal/daemon/service.go:1190-1220 | A live tool is accepted exactly for a later turn after the end of the latest one, or in the same turn for the current tool unless it would be restarted and for a tool that is not listed, and never after a final answer |
| `LiveTools.RunShowsTheLastAccepted` | internal/daemon/service.go:1221-1245 | After every run the snapshot shows tool, turn, turn status and details of the last accepted live tool |
| `LiveTools.TurnsEndOnlyWithATool` | internal/appserver/live_event.go:181-239 | Live events mark a running turn as ended only when an event of an ended tool says so |
| `LiveTools.KeptConcat` | internal/daemon/service.go:1371-1390 | The details that stay are filtered one by one and keep their order |
| `LiveTools.LatestToolDetailIndex` | internal/daemon/service.go:1350-1369 | The backward scan finds the last matching tool |
| `LiveTools.UpsertLiveToolDetails` | internal/daemon/service.go:1371-1390 | Entries with a live id are replaced by the live entries at the end, all others keep their order |
| `LiveTools.Service.ApplyLiveToolSnapshot` | internal/daemon/service.go:1174-1245 | Stores the merge exactly when the live tool is accepted |
| `LiveTools.FromEvent` | internal/appserver/live_event.go:181-239 | A live tool always has an id and a turn status |
| `TurnOrder.SourceTurnRelation` | internal/daemon/minimal_link_routing.go:26-48 | Answers exactly when both ids occur once in preorder, and "after" means a later place there |
| `TurnOrder.Walk.Collect` | internal/daemon/minimal_link_routing.go:50-75 | The recursive walk appends the preorder of the value to the shared positions |
| `TurnOrder.Walk.CollectTurns` | internal/daemon/minimal_link_routing.go:77-91 | Records every object of a turn list before its nested turns |
| `TurnOrder.Walk.RecordTurn` | internal/daemon/minimal_link_routing.go:93-103 | Counts exactly the turns with an id |
| `TurnOrder.LaterIsAStrictTotalOrder` | internal/daemon/minimal_link_routing.go:41-47 | On ids that occur once, "after" is a strict total order |
| `SourceAnchors.ResolveSourceAnchor` | internal/daemon/minimal_router.go:613-640 | Answers with the last turn the scan may stop at, when it has ended and has an id, and says when the requested turn still runs |
| `Snapshots.Quiescent` | internal/appserver/normalize.go:211-352 | Comparing a reading with the state made from it reports nothing, for every earlier state |
| `Snapshots.SilentExactlyWhenRepeated` | internal/appserver/normalize.go:211-352 | Over every run the next poll is silent if and only if its reading repeats the one just before it and an end in it is the last end that any reading of the run showed |
| `Snapshots.ReportsExactlyWhatIsDue` | internal/appserver/normalize.go:211-316 | Over every run the next poll reports exactly the events that are due, with their payloads, each kind at most once and in a fixed order |
| `Snapshots.CompletionsAlternate` | internal/appserver/normalize.go:284-342 | A run never reports the same completion twice in a row |
| `Snapshots.TurnStartStays` | internal/appserver/normalize.go:354-380 | Over polls of one turn its start time stays at the first poll |
| `Snapshots.ToolTimeMovesWithThePrint` | internal/appserver/normalize.go:382-425 | Over polls of one tool its update time is that of the last poll whose fingerprint changed, its start time that of the first |
| `Snapshots.CompactSnapshot` | internal/appserver/normalize.go:318-352 | The step-by-step construction equals the specified next state |
| `Snapshots.Cell.ApplyLatestTurnTiming` | internal/appserver/normalize.go:354-380 | Fills in the turn times of the shared reading |
| `Snapshots.Cell.ApplyLatestToolTiming` | internal/appserver/normalize.go:382-437 | Fills in the tool times of the shared reading |
| `TerminalGate.DeferredExactlyWithinGrace` | internal/daemon/terminal_gate.go:190-305 | An interrupted Telegram turn is deferred exactly while now is before its first observation plus the grace, and that deadline never moves, whatever happens to other turns |
| `TerminalGate.DeferralsThenAcceptances` | internal/daemon/terminal_gate.go:252-305 | At non-decreasing times the decisions are deferrals followed by acceptances |
| `TerminalGate.DeadlineDecides` | internal/daemon/terminal_gate.go:252-305 | A stored deadline decides every later observation, across restarts |
| `TerminalGate.ExplicitNeverDefers` | internal/daemon/terminal_gate.go:210-245 | After an explicit interrupt no observation of the turn is deferred |
| `TerminalGate.TurnsAreDecidedAlone` | internal/daemon/terminal_gate.go:190-305 | Over every run each turn is decided as if it were alone, from its own observations, stops and origin and the deadline of its first interrupted observation |
| `TerminalGate.OthersAreAccepted` | internal/daemon/terminal_gate.go:246-251 | A turn that was not started from Telegram is always accepted |
| `TerminalGate.Grace` | internal/daemon/terminal_gate.go:491-493 | The greater of 90 seconds and twelve poll intervals |
| `TerminalGate.Gate.Decide` | internal/daemon/terminal_gate.go:190-305 | Decision, next poll and stored state are those of the specification |
| `CodeBlocks.RenderTail` | internal/daemon/panels.go:1148-1179 | The block fits whenever the empty block fits, and shows a piece of the longest suffix that fits |
| `CodeBlocks.LeastStart` | internal/daemon/panels.go:1160-1171 | The binary search finds the least start whose suffix fits |
| `CodeBlocks.ShownFits` | internal/daemon/panels.go:1172-1179 | What is shown is a contiguous piece of that suffix |
| `CodeBlocks.ShownExactly` | internal/daemon/panels.go:1172-1179 | A cut text loses exactly the rest of the line it was cut in, when another line follows, and the white space at its ends |
| `CodeBlocks.ShorterSuffixesFit` | internal/daemon/panels.go:1160-1171 | Fitting is monotone in suffixes |
| `CodeBlocks.EscapeRoundTrip` | internal/daemon/panels.go:1140-1146 | Escaping loses nothing |
| `CodeBlocks.EscapeIsInert` | internal/daemon/panels.go:1140-1146 | An escaped text contains no markup character |
| `VisualMarkers.ChooseVisualMarker` | internal/daemon/visual_identity.go:135-150 | The search ends, on the specified free marker |
| `VisualMarkers.TakenShrinks` | internal/daemon/visual_identity.go:144-149 | Each occupied number leaves strictly fewer to meet |
| `VisualMarkers.NumbersOnlyWhenFull` | internal/daemon/visual_identity.go:135-150 | A number is appended only when the whole palette is occupied, and it is the least free one |
| `VisualMarkers.NearestFreeSymbol` | internal/daemon/visual_identity.go:135-143 | A chosen symbol is the first free one from the thread's own place on |
| `VisualMarkers.NoTwoHoldersEver` | internal/daemon/visual_identity.go:88-133 | Over any run with non-decreasing time no two threads hold the same unexpired marker |
| `VisualMarkers.HeldForHalfAnHour` | internal/daemon/visual_identity.go:104-133 | Over every run a thread holds a marker exactly for the half hour after its last stored call |
| `VisualMarkers.OwnerKeepsItsMarker` | internal/daemon/visual_identity.go:118-124 | An owner that asks again before expiry keeps its marker |
| `VisualMarkers.Service.VisualMarker` | internal/daemon/visual_identity.go:88-133 | Marker and stored assignment are those of the specification, also when the state cannot be read or written |

## Left out

- Process spawning, pipes, timers, Telegram sends, credential calls, transcription, message wording and layout: foreign calls or presentation.
- Storage statements that fail half-way: every transaction either commits or changes nothing; where the source reacts to a failed statement by returning, the model has no such step.
- `HandoffSafety.PromptsStartAtMostOnce`: the App Server is trusted in one respect: a start that it refuses, including a refusal because another writer owns the thread, has started nothing.
- `HandoffOutcomes.ReadyLinkStarts`: a row whose generation is already the greatest 64-bit value cannot be claimed; that case is left out.
- `HandoffSafety.NextKeeps`: the thread id of a source anchor is taken to be the routed thread id, and all early returns before a turn start are one step with a free choice of failing or releasing the command.
- `MinimalStore.Store.DrainNext`: an attempt is given per command and changes only that command; how attempts change other rows and links is in `Handoff`.
- `MinimalStore.Store.AdoptMinimalLinkedThreads`: the order of the query result is given, so the preference for bound and recently updated children is not modelled.
- `GenerationCounters.OneTurnPerProcess`: a worker takes at most one linked row with its generation; liveness of worker claims after a restart is not claimed.
- `WorkerConservation.SessionsAreConserved`: holds for runs whose unbound releases find their worker registered, which is the exact condition.
- `LinkWorkers.LiveWorkersDiffer`: a session identity is a nonce with the generation and is represented by the generation; the 64-bit counter does not wrap.
- `RpcCorrelation.WaitersGetTheirReply`: request ids do not wrap and are exact as floating-point numbers; negative and out-of-range wire ids are taken as unusable.
- `RpcClient.Client.StartProcess`: the initialize handshake that follows, and the shutdown when it fails, are separate steps and not part of its contract.
- `MinimalStore.Store.RecoverAtStartup`: the recovery of approval claims is left out.
- `VoiceConfirmations.MatchingClaimSucceeds`: callback tokens are compared as they are; their 16-byte hexadecimal form is one test that a token passes or fails.
- `Notifier.ExactlyOnceInOrder`: starts from a read that saw turns; the other baselines are in `NotifierBaselines`. Discovery, deferral of unreadable threads and delivery of the queue are not part of the model.
- `LiveTools.NoResurrection`: a run is a run of merges; the thread reads that the daemon makes between live events (internal/daemon/service.go:1148-1162) also rewrite the snapshot and are left out.
- `LiveTools.Service.ApplyLiveToolSnapshot`: progress text, thread metadata and poll scheduling are not part of the merge.
- `TurnOrder.Walk.Collect`: the other entries of an object are listed in key order, so sorting the keys is not modelled; both list types of the source are one.
- `Snapshots.Quiescent`: fingerprints are values and completion fingerprints are injective; SHA-1 is not modelled.
- `TerminalGate.Gate.Decide`: whether a thread looks active is one field of the snapshot, and stored keys are pairs of ids.
- `CodeBlocks.RenderTail`: the language is already trimmed and in lower case; text is Unicode scalar values.
- `VisualMarkers.Service.VisualMarker`: the hash of a thread id is an arbitrary function.
- Source claims mixed into first-in first-out order: the guard there is per source key, so only thread claims have the theorem.
- Approval claims, picker routes, project menus, log archives, configuration and the standard-profile observers: not part of this model.
