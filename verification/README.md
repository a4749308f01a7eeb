# A verified model of the event queue's hard core

The repository is a database-backed event queue. Several app instances claim rows of one event table,
call handlers, keep their claims alive, write back a status and retry. This project models the parts
where that is hard to get right and proves, over every input, every run or every interleaving, what
they promise. Where the code falls short of the obvious promise, there is a lemma with the failing
input and one that says exactly when the promise holds.

| file | what it is about |
|---|---|
| `EventTable.dfy` | rows, the claim's where clause, the effect of claim, keep-alive and status write |
| `StatusReports.dfy` | from a handler's reports to recorded statuses and grouped UPDATEs |
| `ReportSequences.dfy` | what any sequence of reports on one event amounts to |
| `RowProtocol.dfy` | the step system: any number of processors over one table |
| `ExclusiveOwnership.dfy`, `LostOwnership.dfy`, `RetryBound.dfy` | its three theorems |
| `RetryDelay.dfy` | when a row is selected again after Open or Error |
| `RevivedRow.dfy` | why the end of all retries asks more of the handlers' answers |
| `FinalWrite.dfy` | what the final status write does to rows nobody reported on properly |
| `ChunkOutcome.dfy` | the status every claimed row ends with, from what checks, handlers and hooks do |
| `Processor.dfy` | the processor's own code, against the step system's functions and that outcome |
| `AdHocRun.dfy` | the loop over chunks: termination and completeness |
| `KeepAliveTimer.dfy` | the drift-safe timer and the slack it gives a claim |
| `WorkerQueue.dfy` | the load-limited priority scheduler and its promotion timer |
| `LeaseLock.dfy` | the distributed lock: two backends, one lease lock |
| `OutboxClustering.dfy`, `SagaFollowups.dfy`, `InsertModes.dfy` | the generic outbox handler |
| `ExpiringCache.dfy`, `PeriodicEvents.dfy`, `PromiseLimiter.dfy` | the smaller concurrent pieces |

Code that changes state is a class whose methods are proved equal to a specification function; the
theorems are about those functions, over whole runs. `Collections.dfy` holds shared facts.

## Readings of the code

- A database transaction is one step that commits or rolls back. Times are integers in milliseconds;
  clock readings, handler answers, hook results and commit failures are parameters.
- Redis: a key set at `t` with expiry `px` is gone from `t + px` on. Acquire, renew and release use one
  key. The three commands of a Redis renewal are one step.
- `setTimeout` waits at least one millisecond.
- A status code outside the list acts like Suspended: it is not allowed, and publishes #done only.
- A cron expression is an arbitrary function from a time to the next one.
- Calls of the limiter's iterator count as in flight from the creation of their promise on.

## Where the code departs from the obvious promise

Each with the failing input and the exact condition:

- Reports about one event are combined in order: Done and then Error stays Done
  (`StatusReports.ErrorAfterDoneIsDropped`, `StatusReports.RecordedStatus`).
- A handler that throws in isolated mode has its Error written twice, and the second write can hit the
  next owner's row (`ExclusiveOwnership.ThrowingHandlerBreaksIt`, `FinalWrite.SecondWriteHitsIff`).
- A handler that reports on another entry of its chunk gets that row written before its own handler is
  called, and two live processors can own it without any delay, throw or failure
  (`ExclusiveOwnership.AnswerAboutOtherBreaksIt`, `ExclusiveOwnership.AnswerKeepsInvIff`).
- A cluster transaction that fails turns every entry of the chunk into Error at the end, also those that
  are committed as Done (`ChunkOutcome.FailedClusterUndoesDone`, `Processor.EventProcessor.Iterate`).
- After a keep-alive alarm the skipped entries of the chunk that did not change hands are written as Done
  without having been handled (`FinalWrite.SkippedRowIsDone`, `FinalWrite.SkippedIsDoneIff`).
- The test for the last try is an equality: past it a failing hook is called without limit
  (`RetryBound.CrashInLastClaimCallsHookForever`, `RetryBound.HookBoundFailsIff`).
- A handler's report on an entry of its chunk that has been written already can bring back a row that others
  have set to Exceeded (`RevivedRow.HarmlessAnswerRevivesRow`, `RevivedRow.WriteKeepsEndsIff`).
- Outside isolated mode a disallowed status is dropped after the check for missing statuses, and the
  row stays in progress (`FinalWrite.InProgressAnswerLeavesRow`, `FinalWrite.LeftBehindIff`).
- A job of load zero can wait although it fits, and a negative load breaks the limit
  (`WorkerQueue.ZeroLoadWaits`, `WorkerQueue.WaitingFitsIff`; `WorkerQueue.NegativeLoadBreaksLimit`,
  `WorkerQueue.LimitHoldsIff`).
- A promotion pass skips the entry behind a promoted one and can lift a job two levels
  (`WorkerQueue.NeighbourIsSkipped`, `WorkerQueue.AllPromotedIff`; `WorkerQueue.TwoLevelsInOnePass`,
  `WorkerQueue.RisesTwoLevelsIff`).
- Cluster keys of different actions can be equal although no action name contains "##"; then
  `Object.assign` drops entries (`OutboxClustering.TrailingHashLosesAnEntry`,
  `OutboxClustering.ExactlyOnceIff`).
- A malformed specific cluster result after entries were added by ID puts those into their clusters twice
  (`OutboxClustering.MalformedPlacesTwice`, `OutboxClustering.ExactlyOnceIff`).
- Follow-ups of an event whose status is dropped stay in a single field, where the next saga event replaces
  them (`InsertModes.InProgressLosesDone`, `InsertModes.IterationModesAgreeIff`).
- A second callback for a key in flight starts after `delete`, `setCb` or an expired `set`
  (`ExpiringCache.DeleteAllowsSecond`, `ExpiringCache.SetCbAllowsSecond`, `ExpiringCache.SetAllowsSecond`,
  `ExpiringCache.CoveredIff`).
- A promise that resolves to something unreadable is cached for good
  (`ExpiringCache.UnreadableInput`, `ExpiringCache.PromisesAreInFlightIff`).
- The periodic reconciliation deletes by type, sub type, creation and start time, without the namespace
  (`PeriodicEvents.SharedCreationLosesARow`, `PeriodicEvents.ExactlyOneIff`).

- `docs/status-handling/index.md` calls an event stuck after 30 minutes; the code uses 3.5 keep-alive
  intervals (`src/config.js:486-487`), and so does the model.

## Model

| member | source | states |
|---|---|---|
| `ExclusiveOwnership.NoTwoLiveOwners` | src/EventQueueProcessorBase.js:679-811 | in every run of any number of processors in which owners stamp their rows in time and handlers do not throw and answer about their own events or about events never selected, no event has two live owners, and an owned row is in progress under its owner's own stamp |
| `ExclusiveOwnership.OneOwnerInCarefulRuns` | src/EventQueueProcessorBase.js:373-396 | the same with throwing handlers and any harmless answers, for runs in which claims find the owners on time and take no row that a live processor is still going to write again |
| `ExclusiveOwnership.AnswerKeepsInvIff` | src/EventQueueProcessorBase.js:622-638 | an answer keeps the invariant if and only if it reports on no row of another live owner and, where it is written at once, on no row of its own processor whose handler or hook is still to come or is running |
| `ExclusiveOwnership.AnswerAboutOtherBreaksIt` | src/EventQueueProcessorBase.js:292-328 | a legal run without delay, throw or failed transaction after which two live processors own a row, because a handler reported on another entry of its chunk |
| `ExclusiveOwnership.OneAtATimeIsCareful` | src/processEventQueue.js:37-45 | with one live processor at a time every run is careful, whatever the timing and whatever throws |
| `ExclusiveOwnership.StepKeepsInv` | src/EventQueueProcessorBase.js:443-542 | every step of the protocol (claim, handler, hook, write, keep-alive, crash, time, insert) keeps the invariant behind exclusivity |
| `ExclusiveOwnership.OwnedRowClaimableIff` | src/EventQueueProcessorBase.js:687-719 | an owned row can be selected by another processor if and only if its owner's stamp is too old |
| `ExclusiveOwnership.LateOwnerIsReplaced` | src/EventQueueProcessorBase.js:713-717 | a late owner is replaced while it lives: the timing assumption is needed |
| `ExclusiveOwnership.ThrowingHandlerBreaksIt` | src/EventQueueProcessorBase.js:373-396 | a legal run in which a throwing handler's second Error write frees a row that a third processor then owns together with the second |
| `LostOwnership.LostOwnerStops` | src/EventQueueProcessorBase.js:966-1049 | after its row was taken over, the old owner's next keep-alive marks it outdated; it has not refreshed the row and never will, and it starts no further handler in any continuation |
| `LostOwnership.ReclaimMakesLost` | src/EventQueueProcessorBase.js:786-798 | taking over a row in progress always leaves a later stamp than the old owner's |
| `LostOwnership.KeepAliveNotices` | src/EventQueueProcessorBase.js:984-1031 | a keep-alive leaves a lost row alone and raises the alarm if the row is still unwritten and in progress |
| `LostOwnership.LostForGood` | src/EventQueueProcessorBase.js:966-1049 | lost stays lost, and the row is never refreshed by the old owner, over every continuation |
| `LostOwnership.AlarmStopsHandlers` | src/processEventQueue.js:318-346 | after the alarm the processor starts no handler in any continuation |
| `FinalWrite.SkippedIsDoneIff` | src/EventQueueProcessorBase.js:581-597 | a row skipped because of the alarm, on which no other handler of its processor reports, is never handled, and in every continuation the final write sets it to Done if and only if it was not outdated itself |
| `FinalWrite.SkippedRowIsDone` | src/processEventQueue.js:331-339 | a run of two rows, one of them taken over, that ends with the other Done and unhandled |
| `FinalWrite.LeftBehindIff` | src/EventQueueProcessorBase.js:349-371 | outside isolated mode, in every run and whatever the handlers answer about whichever rows, the final write reaches a row claimed for a handler and not outdated if and only if all that the processor's handlers and checks reported on it does not lead to a status that is not allowed; it then sets exactly the status the reports lead to, or Done without any, and otherwise leaves the row as it is, without an owner |
| `FinalWrite.InProgressAnswerLeavesRow` | src/EventQueueProcessorBase.js:599-620 | a run in which a handler answers InProgress and the row ends in progress without an owner |
| `FinalWrite.SecondWriteHitsIff` | src/EventQueueProcessorBase.js:373-396 | after a throw in isolated mode, whatever happens, the second write hits another live owner's row if and only if that one claimed it in between and still owns it |
| `LostOwnership.ReachableClock` | src/EventQueueProcessorBase.js:786-811 | the order of stamps the theorem needs holds in every reachable state |
| `RetryBound.AttemptsLedger` | src/EventQueueProcessorBase.js:786-798 | over every run, attempts are the starting attempts plus the claims minus the Open results |
| `RetryBound.HandlerCalledAtMostR` | src/EventQueueProcessorBase.js:847-872 | without Open results the handler sees an event at most R times, in every run, crashes included |
| `RetryBound.CalledOncePerClaim` | src/processEventQueue.js:211-260 | within one claim the handler and the hook are called at most once for an event |
| `RetryBound.RetriesEnd` | src/EventQueueProcessorBase.js:874-941 | owners on time, handlers that answer about their own events or events never selected: at most R + 4 claims, R handler calls and 3 hook calls; with R + 4 attempts and no owner the row is Exceeded |
| `RetryBound.RetriesEndInCarefulRuns` | src/EventQueueProcessorBase.js:874-941 | the same bounds with handlers that throw, in both modes, for careful runs whose handlers answer about their own events or events never selected |
| `RevivedRow.HarmlessAnswerRevivesRow` | src/EventQueueProcessorBase.js:443-542 | harmless answers are not enough for these bounds: a careful run in which a later handler reports an Error on a row of its chunk that was written long ago, others having taken it to Exceeded at R + 4 attempts, after which it can be claimed again |
| `RevivedRow.WriteKeepsEndsIff` | src/EventQueueProcessorBase.js:622-638 | in both modes, a harmless answer or a final write keeps the end of all retries if and only if it turns no row with R + 4 attempts into anything but Exceeded |
| `RetryBound.RetriesEndOneAtATime` | src/processEventQueue.js:37-45 | the same bounds with throwing handlers and without any timing assumption, for one live processor at a time |
| `RetryBound.HookCalls` | src/EventQueueProcessorBase.js:847-864 | in every run without Open results: at most three hook calls and one for each claim at R + 4 attempts or more |
| `RetryBound.HookBoundFailsIff` | src/EventQueueProcessorBase.js:847-864 | the bound of three can fail if and only if some claim can take the row at R + 4 attempts or more, that is if and only if the row is not there yet, or is Open, Error or InProgress; and then no bound holds |
| `RetryBound.CanClaimLateIff` | src/EventQueueProcessorBase.js:687-719 | by the row at the start: when a claim at R + 4 attempts or more is possible |
| `RetryBound.CrashInLastClaimCallsHookForever` | src/EventQueueProcessorBase.js:847-864 | for every n, a crash in the last claim leads to a run with n hook calls |
| `RetryDelay.SelectableAgainIff` | src/EventQueueProcessorBase.js:496-511 | in every run, a row that was written as Open or Error and left alone since can be selected if and only if its retry time (the report's own or the status's delay after the write) is at most the look-ahead away and the selecting run began after the write |
| `RetryDelay.ClaimedAgainIff` | src/EventQueueProcessorBase.js:847-872 | of the selected ones exactly those whose tries are used up or that are due within three seconds are claimed, in every run and by every processor |
| `RetryDelay.InsertedSelectableIff` | src/EventQueueProcessorBase.js:684-724 | a row that was inserted and left alone can be selected if and only if it has no start time or one within the look-ahead |
| `RetryDelay.StartTimeStays` | src/EventQueueProcessorBase.js:786-798 | over every run, nothing but an Open or Error write moves a start time |
| `StatusReports.RecordedStatus` | src/EventQueueProcessorBase.js:349-371 | for every sequence of allowed reports: the first report if it is Error or Exceeded, otherwise Open if any is Open, otherwise Done, whatever is reported about other events in between |
| `StatusReports.ErrorAfterDoneIsDropped` | src/EventQueueProcessorBase.js:363-370 | the order of reports matters |
| `ReportSequences.RecordedReport` | src/EventQueueProcessorBase.js:349-371 | for every sequence of allowed reports: which report counts, with its start time and other fields: the first if it is Error or Exceeded, otherwise the last Open one, otherwise the last Done one |
| `ReportSequences.AllowedReportsLeadTo` | src/EventQueueProcessorBase.js:349-371 | the general rule for reports of any kind, for allowed ones: the first if it is Error or Exceeded, otherwise Open if any is Open, otherwise Done |
| `ReportSequences.ReadableIff` | src/EventQueueProcessorBase.js:319-326 | an array of tuples can be read if and only if each is a pair and no null or undefined is compared with a recorded object that is neither Error nor Exceeded |
| `StatusReports.SetEventStatus` | src/EventQueueProcessorBase.js:292-328 | a readable answer adds its reports; an unreadable one gives Error to every handed-out entry that had no report yet; nothing recorded is removed |
| `StatusReports.EqualKeysEqualStatus` | src/EventQueueProcessorBase.js:461-470 | equal grouping keys mean equal status, although the printed texts may contain the separator |
| `StatusReports.GroupBy` | src/EventQueueProcessorBase.js:461-470 | the groups partition the ids to be written, each under its own key |
| `StatusReports.WriteGroups` | src/EventQueueProcessorBase.js:476-535 | one UPDATE per group writes each id exactly once, with its own status and attempts change; Open and Error start again at the time in a report of the same key, or `retryOpenAfter` or `retryFailedAfter` after the write, any other status keeps the start time; other rows stay |
| `StatusReports.PersistGrouped` | src/EventQueueProcessorBase.js:443-542 | the same for the printed key; exactly as if written one by one unless different start times are printed alike |
| `StatusReports.StartsExactly` | src/EventQueueProcessorBase.js:496-511 | where no other start time is printed alike: the time in the report if it has one, otherwise exactly the delay configured for the status after the write |
| `StatusReports.EqualKeysEqualTexts` | src/EventQueueProcessorBase.js:461-470 | equal grouping keys mean equal start time, error and follow-up data as printed, where the first two contain no "#" |
| `Processor.EventProcessor.GetQueueEntriesAndSetToInProgress` | src/EventQueueProcessorBase.js:679-818 | the code of the claim does what the protocol's claim step does: same rows, tags and sorting |
| `Processor.EventProcessor.ClusterEvents` | src/EventQueueProcessorBase.js:847-872 | the loop sorts the selected rows into the four kinds, in order |
| `Processor.PicksAreNewProc` | src/EventQueueProcessorBase.js:832-872 | the lists the loop builds are the sets of the protocol's new processor |
| `Processor.EventProcessor.KeepAlive` | src/EventQueueProcessorBase.js:966-1049 | the code of the keep-alive does what the protocol's step does, to the rows and to the processor |
| `Processor.EventProcessor.CompareTags` | src/EventQueueProcessorBase.js:998-1007 | exactly the rows with an unchanged stamp are refreshed and get the new tag |
| `Processor.EventProcessor.CollectReports` | src/EventQueueProcessorBase.js:292-328 | tuple by tuple, with the fallback to Error when one of them throws |
| `Processor.EventProcessor.PersistEventStatus` | src/EventQueueProcessorBase.js:443-542 | the rows reached by allowed reports are written, all of them as if one by one unless start times are printed alike, each with the start time its status and its report call for, with the bookkeeping of committed ids also when the transaction fails |
| `Processor.EventProcessor.HandleExceededEvents` | src/EventQueueProcessorBase.js:874-941 | exactly which rows over their tries it gets to and with which status: Exceeded in the last try, otherwise Exceeded after a hook that succeeds and Error after one that fails; the first transaction that fails ends the iteration |
| `Processor.EventProcessor.ProcessIsolated` | src/processEventQueue.js:211-273 | one cluster: exactly what its transaction writes, or an unchanged table and a reported failure |
| `Processor.EventProcessor.ProcessClusters` | src/processEventQueue.js:211-260 | in isolated mode exactly which rows the clusters write and with which status, and for which an Error is noted for the final write; outside it every answer and every throw is recorded and nothing written |
| `Processor.EventProcessor.ProcessShared` | src/processEventQueue.js:243-245 | outside isolated mode a cluster's answer, or an Error for each of its entries after a throw, is added to what is recorded |
| `Processor.EventProcessor.Preprocess` | src/processEventQueue.js:52-69 | entries with a payload go to the handlers; a null payload is noted as Done, an undefined one and an exception as Error |
| `Processor.EventProcessor.PersistAll` | src/EventQueueProcessorBase.js:443-454 | the final write: what is noted, and Done for entries that are neither noted nor committed nor outdated; a null makes it fail |
| `ChunkOutcome.ClusterPutsByReports` | src/processEventQueue.js:223-241 | in isolated mode a cluster's transaction writes a selected row if and only if it is not rejected and the cluster's reports on it lead to an allowed status, and with that status |
| `ChunkOutcome.SharedEndIs` | src/EventQueueProcessorBase.js:581-620 | outside isolated mode the final write gives a row the status that all reports on it lead to, Done to an entry without any, and leaves it as it is if they lead to one that is not allowed |
| `ChunkOutcome.SharedNullIff` | src/EventQueueProcessorBase.js:419-436 | outside isolated mode the final write throws if and only if some id's reports are no objects and end in a null |
| `Processor.EventProcessor.Iterate` | src/processEventQueue.js:46-101 | the status of every claimed row after an iteration, in both modes, whatever checks, clustering, handlers and hooks do and whichever transactions fail: an iteration completes if and only if none of its own transactions fails (and, outside isolated mode, no null is left); then outside isolated mode every row has what all reports on it lead to, Done without any, or stays as it was; in isolated mode a row has what the check says, or Error if the clustering or its handler threw or any cluster's transaction failed, or what its clusters committed, or Done, and none is left in progress; rows over their tries have what their hook leads to unless a handler reports on them; otherwise the rows it got to have what was committed, and the rest stay in progress |
| `ChunkOutcome.FailedClusterUndoesDone` | src/EventQueueProcessorBase.js:650-658 | an entry committed as Done ends as Error because another cluster's transaction failed |
| `AdHocRun.QueueRun.ProcessEventQueue` | src/processEventQueue.js:46-125 | the run ends and claims no row twice; every row it claimed has the status its only iteration decides on, except in a last iteration that failed, which had a failing transaction of its own or of a hook of a row it claimed, or a null; it ends on an empty chunk, and has then claimed every row that was selectable and due when it began, or because it is not to look for more, after one chunk, or because its time is over after an iteration, all later ones having begun in time |
| `AdHocRun.EndsOnEmptyChunk` | src/processEventQueue.js:112-125 | with time left after every iteration and no failure, a run that is to look for more ends on an empty chunk |
| `AdHocRun.QueueRun.Chunk` | src/processEventQueue.js:48-99 | every non-empty iteration makes the set of untouched rows strictly smaller, claims only those and leaves its claimed rows as it decides; an empty one changes nothing |
| `AdHocRun.ClaimAndProcess` | src/processEventQueue.js:48-99 | the selected rows are claimed or put off; the claimed ones carry this run's stamp and, if the iteration completes, the status it decides on; all others are unchanged |
| `AdHocRun.First` | src/EventQueueProcessorBase.js:684-726 | ORDER BY and LIMIT: in order, and whatever is left out comes later and only when the chunk is full |
| `AdHocRun.NothingDueLeft` | src/EventQueueProcessorBase.js:684-724 | no due row stays unclaimed, even when delayed rows outnumber the chunk |
| `KeepAliveTimer.SetIntervalDriftSafe.Run` | src/shared/SetIntervalDriftSafe.js:20-40 | the next timeout aims one interval after the previous aim, however late this call is |
| `KeepAliveTimer.SetIntervalDriftSafe.RunTicks` | src/shared/SetIntervalDriftSafe.js:10-45 | tick n of a whole run fires at the time the delay sequence and the grid give |
| `KeepAliveTimer.SetIntervalDriftSafe.Stop` | src/shared/SetIntervalDriftSafe.js:42-45 | no timeout is left, and the grid is kept for a restart |
| `KeepAliveTimer.DelaysDoNotAddUp` | src/shared/SetIntervalDriftSafe.js:20-40 | delays of less than half an interval leave every tick less than half an interval off the grid, after any number of ticks |
| `KeepAliveTimer.NeverEarly` | src/shared/SetIntervalDriftSafe.js:20-40 | no tick comes before its grid time |
| `KeepAliveTimer.NeverStuckBetweenTicks` | src/config.js:486-487 | with such ticks and at most two missing in a row, the row is never reclaimable at 3.5 intervals |
| `KeepAliveTimer.TimersKeepTimely` | src/config.js:486-487 | a system whose owners are driven by such timers meets the timing assumption of exclusive ownership, from the claim on |
| `KeepAliveTimer.BeatingRunIsGood` | src/EventQueueProcessorBase.js:966-1049 | every run whose keep-alives come at ticks of such timers, any number of them for each processor, whose hooks are over in time and whose handlers do not throw and answer about their own events or events never selected, has all owners on time at every moment |
| `KeepAliveTimer.TimersKeepOneOwner` | src/EventQueueProcessorBase.js:966-1049 | in every such run no event has two live owners |
| `KeepAliveTimer.BeatsTwice` | src/EventQueueProcessorBase.js:966-1049 | such a run in which one processor keeps its row alive at two ticks, with time passing before each |
| `KeepAliveTimer.TouchIsLastBeat` | src/EventQueueProcessorBase.js:972-1041 | in a careful run an owner's stamp is the time of its last keep-alive |
| `KeepAliveTimer.FirstWindow` | src/EventQueueProcessorBase.js:966-974 | from the claim to the third tick: in time if and only if lag and delay together stay under half an interval |
| `KeepAliveTimer.ThreeMissesAreTooMany` | src/EventQueueProcessorBase.js:713-717 | the bound is tight: three punctual misses make the row reclaimable |
| `KeepAliveTimer.StuckIsSelectable` | src/EventQueueProcessorBase.js:713-717 | the bound is the one the claim's where clause uses |
| `WorkerQueue.Scheduler.constructor` | src/shared/WorkerQueue.js:38-53 | a limit that is no positive number becomes one; the new scheduler is safe |
| `WorkerQueue.Scheduler.AddToQueue` | src/shared/WorkerQueue.js:55-70 | refuses exactly the loads over the limit and the unknown priorities, changing nothing; otherwise the state is that of the enqueued job after one dispatch |
| `WorkerQueue.Scheduler.FindNext` | src/shared/WorkerQueue.js:120-140 | finds the first fitting job from the top priority down, or shows that none fits |
| `WorkerQueue.Scheduler.CheckForNext` | src/shared/WorkerQueue.js:120-140 | the mutual recursion of search and start ends and, without negative loads, equals the one-pass dispatch; no job is lost |
| `WorkerQueue.Scheduler.ExecuteFunction` | src/shared/WorkerQueue.js:96-118 | starting a job and dispatching again equals the dispatch with it running |
| `WorkerQueue.Scheduler.Complete` | src/shared/WorkerQueue.js:96-118 | a completion equals the dispatch of the state without the job, and keeps safety |
| `WorkerQueue.Scheduler.PromoteQueue` | src/shared/WorkerQueue.js:72-94 | the loop with its splices does what the skipping promotion of one queue does |
| `WorkerQueue.Scheduler.AdjustPriority` | src/shared/WorkerQueue.js:72-94 | the pass over all queues, in its order, keeps safety |
| `WorkerQueue.RestartIsOnePass` | src/shared/WorkerQueue.js:120-140 | starting the first fitting job and searching again from the top is going on with one greedy pass |
| `WorkerQueue.DispatchIsSafe` | src/shared/WorkerQueue.js:96-140 | afterwards the running load is within the limit, nothing waiting can be started, no job is lost or invented |
| `WorkerQueue.WaitingMeansRunning` | src/shared/WorkerQueue.js:120-140 | a job waits only while another one runs |
| `WorkerQueue.RunIsSafe` | src/shared/WorkerQueue.js:55-140 | both hold after every sequence of adds, completions and promotions without negative loads |
| `WorkerQueue.WaitingFitsIff` | src/shared/WorkerQueue.js:115-123 | in every run a waiting job fits the free capacity if and only if its load is zero and the limit is reached |
| `WorkerQueue.NegativeLoadBreaksLimit` | src/shared/WorkerQueue.js:96-118 | for every limit and negative load, a run that ends above the limit |
| `WorkerQueue.LimitHoldsIff` | src/shared/WorkerQueue.js:96-140 | the limit holds in every run if and only if the least load ever added is not negative |
| `WorkerQueue.ZeroLoadWaits` | src/shared/WorkerQueue.js:120-123 | a job of load zero, added while the limit is reached, still waits after the call |
| `WorkerQueue.PromotionConserves` | src/shared/WorkerQueue.js:72-94 | a promotion pass keeps the multiset of waiting jobs |
| `WorkerQueue.PromotionOnlyRaises` | src/shared/WorkerQueue.js:72-94 | no job falls back; only flagged jobs that waited over three minutes rise |
| `WorkerQueue.PromotionKeepsOrder` | src/shared/WorkerQueue.js:72-94 | jobs that are not moved keep queue and relative order |
| `WorkerQueue.AllPromotedIff` | src/shared/WorkerQueue.js:79-91 | all eligible jobs of a queue are promoted if and only if no two of them are neighbours |
| `WorkerQueue.RisesTwoLevelsIff` | src/shared/WorkerQueue.js:72-94 | a pass lifts a job by two levels or more if and only if it is promoted, was promoted in an earlier pass, and does not land behind a job promoted out of the queue it lands in |
| `WorkerQueue.FreshJobRisesOneLevel` | src/shared/WorkerQueue.js:72-94 | a job that was never promoted rises by one level at most |
| `WorkerQueue.LandsAt` | src/shared/WorkerQueue.js:72-94 | where a pass puts every waiting job |
| `WorkerQueue.StillEligibleIff` | src/shared/WorkerQueue.js:85-90 | a promoted job is still eligible if and only if it was promoted before |
| `WorkerQueue.EligibleFrom` | src/shared/WorkerQueue.js:79-91 | a flagged job is eligible from three minutes and half a millisecond on, since it was queued or first promoted |
| `WorkerQueue.NeighbourIsSkipped` | src/shared/WorkerQueue.js:79-91 | two waiting neighbours of which the second stays behind |
| `WorkerQueue.TwoLevelsInOnePass` | src/shared/WorkerQueue.js:79-91 | a job that climbs two levels in one pass |
| `WorkerQueue.NoOvertaking` | src/shared/WorkerQueue.js:120-140 | in every run a job without promotion is never passed by one behind it in its queue with at least its load |
| `WorkerQueue.NoOvertakingFromStart` | src/shared/WorkerQueue.js:38-140 | the same from the creation of the scheduler, for any history and any continuation |
| `LeaseLock.DbLock.AcquireLockDB` | src/shared/distributedLock.js:146-195 | insert, or take over an expired or overridden row; the map of tracked locks follows |
| `LeaseLock.DbLock.ReleaseLockDb` | src/shared/distributedLock.js:138-144 | removes exactly this lock from table and map |
| `LeaseLock.RedisLock.AcquireLockRedis` | src/shared/distributedLock.js:81-97 | grants if and only if the key is absent or overridden |
| `LeaseLock.RedisLock.RenewLockRedis` | src/shared/distributedLock.js:99-116 | the three commands together always end with the key renewed |
| `LeaseLock.RedisLock.ReleaseLockRedis` | src/shared/distributedLock.js:131-136 | removes exactly this key |
| `LeaseLock.DbRefines` | src/shared/distributedLock.js:146-195 | each call on the database row is the abstract lease lock's step, with the same answer |
| `LeaseLock.RedisRefines` | src/shared/distributedLock.js:81-116 | each call on the Redis key is the same abstract step, with the same answer |
| `LeaseLock.BackendsAgree` | src/shared/distributedLock.js:11-61 | the backends answer every trace identically when each key has one expiry time |
| `LeaseLock.BackendsDisagreeIff` | src/shared/distributedLock.js:173-176 | with two expiry times, exactly when they disagree |
| `LeaseLock.MutualExclusion` | src/shared/distributedLock.js:11-61 | at most one holder on every trace on which holders release before their lease ends |
| `LeaseLock.LateHolderIsJoined` | src/shared/distributedLock.js:146-195 | a holder whose lease has run out is joined by the next one: the assumption is needed |
| `OutboxClustering.OutboxHandler.ClusterQueueEntries` | src/outbox/EventQueueGenericOutboxHandler.js:63-136 | how often every entry ends up under every key, for every mix of generic, specific, missing and malformed cluster handlers |
| `OutboxClustering.ClusterBase` | src/outbox/EventQueueGenericOutboxHandler.js:165-201 | groups the entries by key, in batch order, without empty groups |
| `OutboxClustering.OutboxHandler.ClusterByAction` | src/outbox/EventQueueGenericOutboxHandler.js:230-245 | splits the batch by action into those with a specific handler and the rest, losing none |
| `OutboxClustering.OutboxHandler.AskHandlers` | src/outbox/EventQueueGenericOutboxHandler.js:77-104 | stops at a malformed result; otherwise the merged map holds, for each key, the group of the last action that used it |
| `OutboxClustering.OutboxHandler.ClusterById` | src/EventQueueProcessorBase.js:255-280 | each entry is added once under its own ID |
| `OutboxClustering.OutboxHandler.AddToProcessingMap` | src/outbox/EventQueueGenericOutboxHandler.js:247-254 | each entry of the merged map is added once under its key |
| `OutboxClustering.ExactlyOnceIff` | src/outbox/EventQueueGenericOutboxHandler.js:63-136 | every entry is placed exactly once if and only if no malformed result comes after entries added by ID, and no two actions' keys clash |
| `OutboxClustering.ClustersPartitionTheBatch` | src/outbox/EventQueueGenericOutboxHandler.js:165-254 | with helper-built results and separable action names every entry is in one cluster, and clusters share action and printed value |
| `OutboxClustering.SeparableActionsDoNotCollide` | src/outbox/EventQueueGenericOutboxHandler.js:188-201 | a cluster key determines action and value, if action names hold no "##" and do not end in "#" |
| `OutboxClustering.CollideIff` | src/outbox/EventQueueGenericOutboxHandler.js:188-201 | two actions can share a key if and only if one name with the separator begins the other |
| `OutboxClustering.TrailingHashLosesAnEntry` | src/outbox/EventQueueGenericOutboxHandler.js:91-93 | "a" and "a#" without any "##" in them: one of two entries gets lost |
| `OutboxClustering.MalformedPlacesTwice` | src/outbox/EventQueueGenericOutboxHandler.js:71-74 | an entry added by ID before a malformed specific result is in its cluster twice |
| `SagaFollowups.RankFalls` | src/outbox/EventQueueGenericOutboxHandler.js:410-477 | every follow-up ranks strictly below its trigger |
| `SagaFollowups.FollowUpsAre` | src/outbox/EventQueueGenericOutboxHandler.js:410-477 | by event and result, the follow-ups that are published, each once |
| `SagaFollowups.HandlersOfAction` | src/outbox/EventQueueGenericOutboxHandler.js:314-335 | the specific handler comes before the general one, and the #succeeded event of an action has the follow-ups of the action |
| `SagaFollowups.SagaIsFinite` | src/outbox/EventQueueGenericOutboxHandler.js:314-335 | with R tries an event, one root event causes at most 3R follow-up events and R + 3R² handler calls, in any order and with any results |
| `SagaFollowups.BoundIsReached` | src/outbox/EventQueueGenericOutboxHandler.js:410-477 | with handlers for all three, every plain event can cause exactly 3R follow-ups, for every R |
| `InsertModes.Tx.PublishEvent` | src/publishEvent.js:79-110 | an event is remembered in the transaction and inserted at once or before the commit |
| `InsertModes.PublishFollowupEvents` | src/outbox/EventQueueGenericOutboxHandler.js:410-492 | the handler's own events survive; the follow-ups are inserted or left in the single field, which keeps its content when there is no saga handler |
| `InsertModes.ProcessEvent` | src/processEventQueue.js:223-241 | the events in the table and in the field after handler and status write, with and without rollback, with allowed and with dropped statuses |
| `InsertModes.ModesAgreeIff` | src/outbox/EventQueueGenericOutboxHandler.js:423-491 | for one cluster the two insert modes leave the same events if and only if nothing is published, or some status is written and nothing is rolled back or an Error comes without a #succeeded event beside it, or no status is written and the handler asked for a rollback |
| `InsertModes.ModesAgreeForSingleEntry` | src/outbox/EventQueueGenericOutboxHandler.js:386-408 | for one entry, its status write leaves the same events in both modes if and only if the status is allowed or nothing is published; inserted at once, each follow-up is there once for every result |
| `InsertModes.IterationModesAgreeIff` | src/EventQueueProcessorBase.js:472-540 | for a whole iteration of single entries handled one at a time, with every result, the modes leave the same events if and only if no event with a dropped status loses its follow-ups to a later saga event |
| `InsertModes.InProgressLosesDone` | src/EventQueueProcessorBase.js:453-540 | two events with a #done handler, the first InProgress: one #done is missing in one mode |
| `InsertModes.DoneHandlerOnly` | src/outbox/EventQueueGenericOutboxHandler.js:314-335 | a service with nothing but a "#done" handler gives every plain event the steps of that example |
| `ExpiringCache.ServedFromLog` | src/shared/lazyCache.js:67-141 | in every run of all operations: a value served at t was returned by a callback of its key begun at s with lifetime e, or set at s with lifetime e, and t <= s + e - gap; a promise served is in flight or its result was unreadable |
| `ExpiringCache.PromisesAreInFlightIff` | src/shared/lazyCache.js:117-126 | every promise served is in flight if and only if no key's last callback had an unreadable result |
| `ExpiringCache.UnreadableForGood` | src/shared/lazyCache.js:117-126 | such a promise is served at all times in every continuation, and no callback of its key is called again |
| `ExpiringCache.UnreadableInput` | src/shared/lazyCache.js:117-126 | one callback that resolves to no pair is enough |
| `ExpiringCache.CoveredIff` | src/shared/lazyCache.js:36-64 | with all operations: a step keeps every callback in flight stored for its key, and so one a key, if and only if it does not replace or delete what is stored for one |
| `ExpiringCache.ServedIff` | src/shared/lazyCache.js:75-97 | the last returned value of a key is served at t if and only if t is within its lifetime less the gap and the expiry is not zero |
| `ExpiringCache.RunKeepsInv` | src/shared/lazyCache.js:108-141 | the cache holds, for every key, what the log of callbacks determines |
| `ExpiringCache.AtMostOneInFlight` | src/shared/lazyCache.js:132-141 | at most one callback a key is in flight |
| `ExpiringCache.RejectedLeavesNothing` | src/shared/lazyCache.js:108-128 | in every run of all operations a rejected callback leaves no entry until something is stored for its key |
| `ExpiringCache.DeleteAllowsSecond` | src/shared/lazyCache.js:58-61 | `delete` during a callback lets a second one start, whose entry the first one's failure removes |
| `ExpiringCache.SetCbAllowsSecond` | src/shared/lazyCache.js:108-128 | `setCb` during a callback starts a second one |
| `ExpiringCache.SetAllowsSecond` | src/shared/lazyCache.js:94-96 | `set` during a callback lets a second one start once its value has expired |
| `ExpiringCache.ExpiringLazyCache.GetOrCall` | src/shared/lazyCache.js:132-141 | what `getSetCb` returns and stores, for valid, expired, missing entries and every kind of callback |
| `ExpiringCache.ExpiringLazyCache.CallBack` | src/shared/lazyCache.js:108-128 | what `setCb` stores for a value, a promise and an exception |
| `ExpiringCache.ExpiringLazyCache.SetValue` | src/shared/lazyCache.js:94-96 | `set` stores the value with its lifetime less the gap, and nothing else |
| `ExpiringCache.ExpiringLazyCache.OnSettled` | src/shared/lazyCache.js:116-126 | a settled promise replaces its entry with the lifetime counted from the call, or deletes it |
| `PeriodicEvents.ExactlyOneIff` | src/periodicEvents.js:16-100 | from at most one active row a key, one pass leaves exactly one for every configured key if and only if no fitting row shares type, sub type, creation and start with a changed one |
| `PeriodicEvents.SecondPassIsIdleIff` | src/periodicEvents.js:111-177 | a second pass at the same time deletes and inserts nothing if and only if the new rows fit at once: positive intervals, cron times within the tolerance |
| `PeriodicEvents.SharedCreationLosesARow` | src/periodicEvents.js:102-109 | rows inserted together for two namespaces: changing one schedule loses the other row |
| `PeriodicEvents.GoneIff` | src/periodicEvents.js:82-109 | a row is removed if and only if it agrees in type, sub type, creation and start with an active configured row that does not fit its schedule |
| `PeriodicEvents.PeriodicTable.SelectCurrent` | src/periodicEvents.js:16-42 | the groups of active configured rows, each with its latest start |
| `PeriodicEvents.PeriodicTable.ExistingEvents` | src/periodicEvents.js:49-53 | one of the groups for every configured key that has an active row |
| `PeriodicEvents.PeriodicTable.InsertPeriodicEvents` | src/periodicEvents.js:139-177 | one new Open row for each key, at now or the next cron time; other rows stay |
| `PeriodicEvents.PeriodicTable.CheckAndInsertPeriodicEvents` | src/periodicEvents.js:16-100 | a pass removes exactly the rows the DELETE matches and adds one row for each new or changed key; from at most one active row a key: rows that start within their interval from now, or within the tolerance of their cron time, stay untouched unless they agree in type, sub type, creation and start with one that does not; those that do not are gone; new rows start now or at the next cron time; so each row of a positive interval starts within it |
| `PromiseLimiter.AtMostLimitInFlight` | src/shared/common.js:34-53 | in every run at most `limit` calls are in flight (one for smaller limits), and the payloads were started once each, in order |
| `PromiseLimiter.EndsWithAllSettled` | src/shared/common.js:34-53 | every run ends within three steps a payload, with every payload started and settled, whatever was rejected |
| `PromiseLimiter.AnswerOfRun` | src/shared/common.js:34-68 | the answer resolves if and only if no call was rejected, with each call's value at its payload's place, for every settling order |
| `PromiseLimiter.PromiseAllDone` | src/shared/common.js:55-68 | the only rejection's reason, or all reasons in payload order, or all values |
| `PromiseLimiter.Limiter.constructor` | src/shared/common.js:34-36 | the first stretch of the loop runs before anything settles |
| `PromiseLimiter.Limiter.StartPayloads` | src/shared/common.js:37-52 | the loop does what the specification's loop does, up to the next race or the end |
| `PromiseLimiter.Limiter.OnFinally` | src/shared/common.js:45-45 | the splice takes out exactly the settled promise |
| `PromiseLimiter.Limiter.OnWakeUp` | src/shared/common.js:47-49 | waking up from the race goes on with the loop and keeps the invariant |

## Left out

- Processor.EventProcessor.Iterate: no keep-alive tick falls inside it; ticks at every moment are in the step system.
- AdHocRun.QueueRun.ProcessEventQueue: no concurrent inserts or processors, and one clock reading for select, claim and writes of an iteration; concurrency is in the step system. Outside isolated mode only runs that end within keepAliveMaxInProgressTime, since after that the run can select a row again that it has left in progress itself.
- ExclusiveOwnership.NoTwoLiveOwners: no transaction fails; what failing ones leave behind is in Processor.
- WorkerQueue.RunIsSafe: no negative loads, although the configuration accepts them; LimitHoldsIff shows that the limit fails with them.
- LeaseLock.RedisLock.RenewLockRedis: other clients' commands between the three commands of a renewal.
- OutboxClustering.OutboxHandler.ClusterQueueEntries: the payload of a cluster and the callback that may replace its data; handlers that return something other than the helper functions' results and still pass the validation; the order of members added from different actions.
- SagaFollowups.SagaIsFinite: clusters of one entry, handled one at a time, as `nextSagaEvents` is a single field.
- InsertModes.IterationModesAgreeIff: clusters of one entry, handled one at a time, without an explicit rollback.
- PeriodicEvents.ExactlyOneIff: keys are compared as triples; the joined text form of two different triples can be equal.
- Processing of periodic events and their rescheduling: a simpler loop over single rows without retries.
- Keys of lock renewal and of the existence check differ from those of acquire in the processor; the lock is modelled on its own, with one key.
- Stored error texts.
- An answer that leaves a null for some id is no step of the protocol; in the processor's code it rejects the cluster's transaction, and outside isolated mode the final write.
- Configuration loading and validation, the admin service, plugin registration: wiring with easy members only.
- Database, Redis and CAP client code, transaction sharing on some databases.
- Cron parsing and time zones.
- Redis publish/subscribe wake-up, runner scheduling, tenant enumeration: triggers that safety does not depend on.
- Telemetry, logging, tracing, authentication contexts, and the metrics counters.
- Payload JSON, headers and context propagation; what user code does inside a handler beyond its answer.
