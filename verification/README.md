# Verified model of the shared-host task tool

This project models, in Dafny, the parts of an SSH task tool in which several
agents, processes or machines work on one state, and proves what those parts
promise over whole runs. `dafny verify dfyconfig.toml` checks everything.

- **Scheduler** (`LockManager`, `SchedulerModel`, `SchedulerInvariants`,
  `SchedulerRuns`, `SchedulerTheorems`, `SchedulerOutcomes`, `SchedulerAnswers`,
  `SchedulerPlaces`, `SchedulerHistory`, `SchedulerWitnesses`, `SchedulerService`). `SchedulerModel` gives each public call, runner report and
  timer tick as a function on a value of the whole state; starting, finishing and
  pumping call each other as in the source, with the set of tasks waiting on the
  host as the measure. `SchedulerService` is the class whose methods change maps
  and task records in place; each is proved to compute those functions.
  `SchedulerRuns` shows that each event keeps one invariant, and
  `SchedulerTheorems` draws from it what holds in every reachable state.
  `SchedulerOutcomes` says what one call does to whom and when its answer is
  true, `SchedulerAnswers` which answer each call gets, as tables over the tasks
  and locks alone, `SchedulerPlaces` who keeps a place in the queue over whole runs,
  `SchedulerHistory` what the starts of a run have in common, and
  `SchedulerWitnesses` gives short runs with surprising ends.
- **Message framing** (`IpcProtocol`). The incremental parser over a list of
  chunks refines the split of the whole stream, and looks at each byte at most
  once.
- **Coordinator** (`Workspace`, `CoordinatorStore`, `TaskScope`). Path
  normalisation and overlap, the lease table, and the client's scope with a
  network between them that delays, reorders and loses calls.
- **Event log** (`EventLog`). Buffered appends, and the backwards read that
  agrees with a full read.
- **Output store** (`OutputStreams`, `TimeOrder`, `Retention`, `OutputCleanup`,
  `OutputStore`).
  Tail, queue and capped file of each stream independent of flush timing, and the
  two-pass retention collector.
- **SSH configuration** (`SshConfig`). Host patterns, merged settings, and
  depth-first ProxyJump resolution.
- **Command registry** (`CommandRegistry`). The operations on the file, and the
  cross-process lock as a state machine whose steps are single file-system calls.
- **Line endings** (`LineEndings`). The streaming converter against the whole
  text.

What the environment decides is an input of the model: the clock, fresh ids and
tokens, the classification of a command (cost, mutating, risky), what a runner
does (report at once or later, accept a cancellation or not), whether a write or
an unlink succeeds, the order in which a directory is listed, and how a line of
JSON decodes. In the scheduler the clock stands still within one step.

Assumptions, each stated where it is used: task ids are fresh (`StartedOnce` asks
that no two requests of a run share one, evicted tasks included); clocks do not run
backwards; a scheduler step happens no later than one lock lifetime (30 minutes)
after the last renewal, which the 10-minute timer provides; nobody guesses a
lease token; in the registry no holder keeps the lock past the stale limit.
`RegistryLocks.StalledHolderLosesUpdate` and `LockTables.OtherTaskAcquires` show
what happens without the last and the third.

## Where the code departs from its documentation or its intent

The model follows the code. In each case a member says what the code does.

- A task withdrawn from the queue, and an external task that ended, keep their
  ids in the index sets, because the status changes first. Readers filter them,
  but admission counts them: the place is used up in every continuation
  (`DequeueFreesNoPlace`, `StaleForGood`), and once such ids fill the index every
  request that would wait is rejected for ever (`FullForGood`; a run in
  `EmptyQueueRejects`).
- A start that is refused its lock indexes the task before checking for room.
  Whether the task is new or was already waiting, it is waiting afterwards
  exactly if the index, its own id included, is below the limit
  (`RefusedWaits`). So a full index cancels a newcomer while its caller is told
  "queued" (`DecisionTells`; a run in `ToldQueuedOfCancelled`), and the pump
  cancels tasks that were accepted and waited (`PumpDropsRefused`; a run in
  `AcceptedTaskIsDropped`). While the index has room, only a call on the task
  itself takes it away (`WaitingIsCancelledIff`, `RunRetains`).
- A waiting task that is refused its lock is queued anew and stands behind all
  that were queued before (`RefusedLosesPlace`); `NoOvertaking` is about the time
  the task has then.
- docs/AI_COLLABORATIVE_SCHEDULER_DESIGN.zh-CN.md:1002 has an exclusive task
  block every task that does not bypass. Beside a competing exclusive task a
  request runs exactly if its lock is free and one of two things holds
  (`RunsBesideExclusiveIff`). Either it is small or medium and the host below its
  limit (a run in `SmallBesideExclusive`). Or it is heavy, asks to run anyway, and
  a lock on its working directory is held but the host lock is not: the check then
  finds the owner of the directory's lock and looks no further (a run in
  `LargeBesideExclusive`). The second needs an external exclusive task without
  its lock; over all runs, `LightBeside` has only the first beside an exclusive
  task of the scheduler.
- An exclusive task takes only the host lock, and any other mutating task only
  the lock on its working directory. So two running tasks of the scheduler can
  mutate one directory, and then exactly one of them is exclusive (`SharedDirectoryIsMixed`; a run in `ExclusiveSharesDirectory`).
- `maxTotalRunning` bounds small and medium starts only where the request neither
  asks nor defaults to run anyway, and a small one defaults to it
  (`RulesBrokenOnRequest`; a run in `SmallOverLimit`). `maxLargeRunning` is never
  consulted.
- An external task runs even if its lock is refused, which is exactly if someone
  holds it (`ExternalHoldsIff`; a run in `ExternalWritesBeside`). So
  `MutualExclusion` is about tasks the scheduler started, and of two running
  tasks that need one lock, one is external and without it
  (`SharedLockIsExternal`).
- The workspace `/` overlaps only itself (`OverlapIsNesting`).
- A begin call looks at the observed processes after its row is written. If the
  path of one is not absolute (the kernel marks a directory out of reach that
  way), the call fails and its row stays (`BeginTask`), as when the reply is lost.
- An event just logged is seen by the next read exactly if the flush before it
  succeeds and does not fill the file (`LoggedIsSeenIff`): a reader opens the file
  that is current after the flush, which on the same day does not exist yet and
  on a new day is that day's first (`GetRecent`).
- Line endings are detected again as chunks arrive, from a sample of the first
  256 Ki characters, while the whole text is looked at in full. Stream and whole
  agree for every division exactly if the text is steady (`EveryDivisionIff`);
  lone carriage returns, and endings that first come after the sample, can make
  it unsteady (`DivisionWithinSampleIff`, `LateEndingsAreKept`).
- `keptFiles` of a clean-up counts a sheltered file again when the second pass
  meets it over the budget; `KeptOnceIff` says exactly when none is, and
  `CountedTwice` gives an instance.
- The intent and the cost of a registered command are inferred when it is stored
  and then kept, even when command or mode change (`InferredStays`).
- Settings of later matching host entries replace earlier ones, while OpenSSH
  lets the first value win; a jump written as user, host and port is looked up
  as one name.

## Model

| member | source | states |
|---|---|---|
| SchedulerTheorems.MutualExclusion | src/scheduler/scheduler-service.ts:772-799 | in every run, two running tasks the scheduler started on one host, bypassing or not, are never both exclusive, and two that are not exclusive never both mutate one working directory |
| SchedulerTheorems.SharedDirectoryIsMixed | src/scheduler/scheduler-service.ts:772-799 | in every run, of two running tasks the scheduler started on one host that mutate one working directory exactly one is exclusive |
| SchedulerTheorems.LocksFollowTasks | src/scheduler/scheduler-service.ts:133-140 | in every run, each held lock belongs to a task running on its host and is unexpired, ids and keys of locks invert each other, and each task the scheduler started holds the lock it needs |
| SchedulerTheorems.WorkConservation | src/scheduler/scheduler-service.ts:1002-1046 | in every run from an empty scheduler, a waiting task has a blocker, or another running task holds the lock it needs |
| SchedulerTheorems.IndexesAgree | src/scheduler/scheduler-service.ts:1116-1216 | in every run, the filtered indexes are exactly the running and the waiting tasks of the host, the queue is within its size, in queueing order, and numbered 1 to n |
| SchedulerTheorems.NoOvertaking | src/scheduler/scheduler-service.ts:1137-1147 | in every run, no start, by whatever route, leaves behind a task queued earlier on the host that could have started then |
| SchedulerTheorems.TinyKeepsOff | src/scheduler/scheduler-service.ts:966-978 | in every run, a tiny task that did not bypass never started beside a competing exclusive task |
| SchedulerTheorems.Admission | src/scheduler/scheduler-service.ts:423-429 | when no heavy competing request may run anyway or is external: never two heavy competitors on a host, exclusive ones start alone, large ones beside light ones only |
| SchedulerTheorems.LightBeside | src/scheduler/scheduler-service.ts:423-429 | in every run, whatever started beside a competing exclusive task of the scheduler without bypassing was small or medium, with fewer competitors than the limit; when no heavy competing request may run anyway or is external, beside any exclusive task |
| SchedulerTheorems.SharedLockIsExternal | src/scheduler/scheduler-service.ts:233-269 | in every run, of two running tasks that need the same lock one was registered from outside and does not hold it |
| SchedulerTheorems.ExternalHoldsIff | src/scheduler/scheduler-service.ts:233-269 | in every reachable state, an external task being registered gets the lock it needs exactly if nobody holds it |
| SchedulerTheorems.FastBlockersRefine | src/scheduler/scheduler-service.ts:1071-1114 | in every reachable state the counted blocker check used by the pump equals the plain one |
| SchedulerAnswers.BlockersAreKnown | src/scheduler/scheduler-service.ts:944-979 | in every reachable state, the blockers of a job are exactly the running tasks in its way, by a table over the task map and the locks: the owners of the host lock or of its directory for a large or exclusive job that meets one, and else the competitors its cost class minds |
| SchedulerAnswers.RequestIsAnswered | src/scheduler/scheduler-service.ts:352-497 | in every reachable state, each request gets the action of a table over risk, bypass, what stands in its way, whether that is exclusive, the lock it needs, the room in the index, its choice, and its cost if it made none: tiny and small run anyway, medium, large and exclusive wait; and it is told of exactly the tasks in its way |
| SchedulerAnswers.CancelTells | src/scheduler/scheduler-service.ts:568-636 | a cancellation succeeds exactly for a waiting task and for a running one whose runner agrees; then the record is cancelled and only waiting tasks move, and otherwise the task runs on, or nothing changes at all |
| SchedulerAnswers.DequeueTells | src/scheduler/scheduler-service.ts:552-566 | a withdrawal succeeds exactly for a waiting task, which is cancelled; of the others only positions change |
| SchedulerAnswers.ExternalStartTells | src/scheduler/scheduler-service.ts:233-269 | an external task runs at once with its own record, and no other record and no recorded start changes |
| SchedulerAnswers.ExternalEndTells | src/scheduler/scheduler-service.ts:274-311 | the end of an external task sets status, end time and exit code as reported and otherwise changes only tasks waiting on its host |
| SchedulerAnswers.SortIsStable | src/scheduler/scheduler-service.ts:1137-1147 | tasks queued at the same moment stay in index order |
| SchedulerTheorems.ReachedIsSound | src/scheduler/scheduler-service.ts:352-497 | the invariant of all scheduler results holds after every legal sequence of public calls, reports, renewals, clock steps and evictions |
| SchedulerRuns.RunKeeps | src/scheduler/scheduler-service.ts:352-636 | every legal run keeps the scheduler invariant from any state that has it |
| SchedulerRuns.StepKeeps | src/scheduler/scheduler-service.ts:352-636 | every single event keeps the scheduler invariant, with or without the restriction on heavy requests |
| SchedulerRuns.ScheduleKeeps | src/scheduler/scheduler-service.ts:352-497 | a scheduling request keeps the invariant: work conservation, fair starts, locks, indexes, numbering |
| SchedulerRuns.CancelKeeps | src/scheduler/scheduler-service.ts:568-636 | a cancellation, accepted or refused by the runner, keeps the invariant; an accepted one pumps the queue until nothing that waits could run |
| SchedulerRuns.DequeueKeeps | src/scheduler/scheduler-service.ts:552-566 | withdrawing a queued task keeps the invariant although nothing is pumped |
| SchedulerRuns.ReportKeeps | src/scheduler/scheduler-service.ts:873-930 | a runner report keeps the invariant; the pump after it re-establishes work conservation |
| SchedulerRuns.ExternalStartKeeps | src/scheduler/scheduler-service.ts:233-269 | registering an external task keeps the invariant even when its lock is refused |
| SchedulerRuns.ExternalEndKeeps | src/scheduler/scheduler-service.ts:274-311 | the end of an external task keeps the invariant although its id stays in the index |
| SchedulerRuns.RenewKeeps | src/scheduler/scheduler-service.ts:133-140 | a renewal tick keeps the invariant and refreshes the lock of every running task |
| SchedulerInvariants.FastAgreesExactlyWhen | src/scheduler/scheduler-service.ts:944-1114 | for every state, the counted check equals the plain one exactly when: nothing indexed as running and no known task owning a conflicting lock, or otherwise a conflict with a known owner or cost rules that block nothing |
| SchedulerInvariants.UnblockedIsAdmitted | src/scheduler/scheduler-service.ts:944-979 | a task without blockers satisfies the admission rules of its cost class |
| SchedulerInvariants.LockOutcome | src/scheduler/scheduler-service.ts:772-799 | taking the locks of a task succeeds exactly when the needed lock is free for it, and then it holds that lock |
| SchedulerInvariants.StartKeeps | src/scheduler/scheduler-service.ts:772-867 | starting a task, re-entrant pumping included, keeps the invariant |
| SchedulerInvariants.FinishKeeps | src/scheduler/scheduler-service.ts:873-930 | finishing a task, pumping included, keeps the invariant |
| SchedulerInvariants.ScanKeeps | src/scheduler/scheduler-service.ts:1027-1041 | one pass over the snapshot of the queue keeps the invariant, touches only its host, and if it starts nothing leaves no waiting task that could run |
| SchedulerInvariants.PumpKeeps | src/scheduler/scheduler-service.ts:1002-1046 | the pump keeps the invariant, touches only its host, and leaves no waiting task that could run |
| SchedulerInvariants.RenumberedIsNumbered | src/scheduler/scheduler-service.ts:1175-1188 | after renumbering, the queue positions are 1 to n in queueing order |
| SchedulerOutcomes.StartFrame | src/scheduler/scheduler-service.ts:772-867 | a start sets its task running, or, if its runner reports at once, completed exactly for exit code zero and failed otherwise; beyond it only tasks waiting on the host change |
| SchedulerOutcomes.FinishFrame | src/scheduler/scheduler-service.ts:873-930 | a report sets its task completed exactly for exit code zero and failed otherwise, with end time and exit code, and changes beyond it only tasks waiting on its host |
| SchedulerOutcomes.PumpFrame | src/scheduler/scheduler-service.ts:1002-1046 | the pump changes nothing but tasks that waited on its host |
| SchedulerOutcomes.CancelledStays | src/scheduler/scheduler-service.ts:873-876 | no event changes the record of a cancelled task that is not evicted |
| SchedulerOutcomes.CancelledForGood | src/scheduler/scheduler-service.ts:568-636 | after an accepted cancellation no later run revives the task or changes its record |
| SchedulerOutcomes.StartTells | src/scheduler/scheduler-service.ts:401-421 | a request on the starting route is told run-now exactly when its lock is free; otherwise it waits exactly if the index has room for two |
| SchedulerOutcomes.DecidedTells | src/scheduler/scheduler-service.ts:450-497 | a blocked request is queued or cancelled as it is told, and rejected exactly when the index, stale ids included, is full |
| SchedulerOutcomes.DecisionTells | src/scheduler/scheduler-service.ts:352-497 | exactly when the action "queued" is true of the task: one free place behind blockers, two for a task refused its lock |
| SchedulerOutcomes.RefusedWaits | src/scheduler/scheduler-service.ts:778-795 | any task refused its lock, fresh or waiting, is waiting afterwards exactly if the index with its own id has a place left, and then with the present time as its queueing time; otherwise it is cancelled |
| SchedulerOutcomes.RunsNowIff | src/scheduler/scheduler-service.ts:352-497 | exactly when a request is told run-now: it bypasses, is unblocked or may run anyway, and its lock is free |
| SchedulerOutcomes.RunsBesideExclusiveIff | src/scheduler/scheduler-service.ts:423-429 | beside a competing exclusive task any request that takes part runs exactly if its lock is free and it is small or medium and the host below its limit, or it is heavy, asks to run anyway, and a lock on its working directory is held but the host lock is not; never the latter beside an exclusive task of the scheduler |
| SchedulerOutcomes.DequeueFreesNoPlace | src/scheduler/scheduler-service.ts:552-566 | withdrawing a queued task removes it from the queue but leaves its id in the index that admission counts |
| SchedulerPlaces.ScanStartsFirst | src/scheduler/scheduler-service.ts:1027-1041 | a pass starts something exactly when a task of the snapshot can start, first of all the first of these, and otherwise nothing; tasks refused their lock on the way do not change that |
| SchedulerPlaces.StaleForGood | src/scheduler/scheduler-service.ts:552-566 | in every legal run, an id in the queue index that is not of a waiting task stays there |
| SchedulerPlaces.FullForGood | src/scheduler/scheduler-service.ts:981-1000 | in every legal run, once such ids fill the index of a host, each request that would have to wait there is rejected |
| SchedulerPlaces.PumpSpares | src/scheduler/scheduler-service.ts:1002-1046 | while the index of the host has room, the pump cancels nobody and the index does not grow |
| SchedulerPlaces.WaitingIsCancelledIff | src/scheduler/scheduler-service.ts:552-636 | with room in the index, exactly the calls that cancel or withdraw a waiting task cancel it |
| SchedulerPlaces.RunRetains | src/scheduler/scheduler-service.ts:778-795 | over every legal run in which the index of its host has room before each event, an accepted task is never cancelled unless by a call on the task itself |
| SchedulerPlaces.PumpDropsRefused | src/scheduler/scheduler-service.ts:778-795 | with the index full, a pump whose waiting tasks are all unblocked but refused their locks cancels every one of them |
| SchedulerPlaces.RefusedLosesPlace | src/scheduler/scheduler-service.ts:778-795 | a waiting task that the pump tried and that was refused its lock stands behind every task queued before now |
| SchedulerWitnesses.ToldQueuedOfCancelled | src/scheduler/scheduler-service.ts:414-421 | a concrete run in which the caller is told queued of a task that is cancelled |
| SchedulerWitnesses.AcceptedTaskIsDropped | src/scheduler/scheduler-service.ts:778-795 | a concrete run in which a task that was told queued and waits is cancelled when a neighbour ends, with no call on it |
| SchedulerWitnesses.EmptyQueueRejects | src/scheduler/scheduler-service.ts:981-1000 | a concrete run in which the queue is empty and the next request is rejected as if it were full |
| SchedulerHistory.StartedOnce | src/scheduler/scheduler-service.ts:772-867 | in every run whose requests have ids of their own, no task is started twice |
| SchedulerHistory.RulesBrokenOnRequest | src/scheduler/scheduler-service.ts:423-429 | in every run, each start respects the rules of its cost class, the limit for small and medium tasks included, unless its task bypassed or its request asked, or defaulted, to run anyway |
| SchedulerWitnesses.LargeBesideExclusive | src/scheduler/scheduler-service.ts:423-429 | a concrete run in which a large task that asks to run anyway starts beside a running exclusive one |
| SchedulerWitnesses.ExclusiveSharesDirectory | src/scheduler/scheduler-service.ts:774-795 | a concrete run in which an exclusive and a small task of the scheduler run and write to one directory |
| SchedulerWitnesses.SmallOverLimit | src/scheduler/scheduler-service.ts:1313-1318 | a concrete run in which a second small task runs where the limit is one |
| SchedulerWitnesses.SmallBesideExclusive | src/scheduler/scheduler-service.ts:966-978 | a concrete run in which a small task starts beside a running exclusive one |
| SchedulerWitnesses.ExternalWritesBeside | src/scheduler/scheduler-service.ts:233-269 | a concrete run in which an external task writes to a directory where a task of the scheduler is writing |
| SchedulerServices.SchedulerService.AddToIndex | src/scheduler/scheduler-service.ts:1190-1200 | the task is listed under its host and status, once |
| SchedulerServices.SchedulerService.RemoveFromIndex | src/scheduler/scheduler-service.ts:1202-1216 | the task is taken from the index of its current status only |
| SchedulerServices.SchedulerService.GetNonBypassRunningTasks | src/scheduler/scheduler-service.ts:1053-1069 | the running, non-bypassing tasks of the host in index order |
| SchedulerServices.SchedulerService.GetQueuedTasks | src/scheduler/scheduler-service.ts:1137-1156 | the waiting tasks of the host, stably sorted by queueing time |
| SchedulerServices.SchedulerService.RecomputeQueuePositions | src/scheduler/scheduler-service.ts:1175-1188 | in place, the state becomes the renumbered one |
| SchedulerServices.SchedulerService.Enqueue | src/scheduler/scheduler-service.ts:981-1000 | in place, the task is queued and numbered, or cancelled when the index is full |
| SchedulerServices.SchedulerService.FindBlockers | src/scheduler/scheduler-service.ts:944-979 | the blockers of a job as specified, with the state unchanged |
| SchedulerServices.SchedulerService.FindBlockersWithPrecomputed | src/scheduler/scheduler-service.ts:1071-1114 | the blockers computed from counts, as specified |
| SchedulerServices.SchedulerService.StartTask | src/scheduler/scheduler-service.ts:772-867 | in place, the state and the answer of the specified start, including synchronous completion, which `StartFrame` describes |
| SchedulerServices.SchedulerService.FinishTask | src/scheduler/scheduler-service.ts:873-930 | in place, the state of the specified finish, including the re-entrant pump, which `FinishFrame` and `FinishKeeps` describe |
| SchedulerServices.SchedulerService.PumpPass | src/scheduler/scheduler-service.ts:1013-1041 | in place, one pass over the queue with the counts taken at its start |
| SchedulerServices.SchedulerService.PumpQueue | src/scheduler/scheduler-service.ts:1002-1046 | in place, the state after pumping; terminates although starts may finish and pump again |
| SchedulerServices.SchedulerService.Schedule | src/scheduler/scheduler-service.ts:352-497 | in place, the state and the decision of the specified request, which `RequestIsAnswered` and `DecisionTells` describe; the invariant is kept |
| SchedulerServices.SchedulerService.CancelTask | src/scheduler/scheduler-service.ts:568-636 | in place, the state and answer of the specified cancellation; the invariant is kept |
| SchedulerServices.SchedulerService.DequeueTask | src/scheduler/scheduler-service.ts:552-566 | in place, the state and answer of the specified withdrawal; the invariant is kept |
| SchedulerServices.SchedulerService.RegisterExternalTask | src/scheduler/scheduler-service.ts:233-269 | in place, the state after registering an external task; the invariant is kept |
| SchedulerServices.SchedulerService.FinishExternalTask | src/scheduler/scheduler-service.ts:274-311 | in place, the state after an external task ended; the invariant is kept |
| SchedulerServices.SchedulerService.RenewLocks | src/scheduler/scheduler-service.ts:133-140 | in place, every lock listed for a task is renewed; the invariant is kept |
| LockTables.AcquireKeepsConsistent | src/scheduler/lock-manager.ts:20-59 | acquiring keeps the two lock maps inverse to each other |
| LockTables.NothingExpired | src/scheduler/lock-manager.ts:162-174 | cleaning changes nothing while every lock is fresh |
| LockTables.OtherTaskAcquires | src/scheduler/lock-manager.ts:20-59 | exactly when another task can take a lock someone owns: when it has expired |
| LockTables.AcquireTells | src/scheduler/lock-manager.ts:20-59 | a live lock is refused exactly to another task or another agent, and otherwise renewed as it is; a free or expired one is given under a fresh id; the other live locks stay |
| LockTables.RenewTells | src/scheduler/lock-manager.ts:142-160 | a renewal gives the lock with the id a full time to live and changes nothing else |
| LockManagers.LockManager.Acquire | src/scheduler/lock-manager.ts:20-59 | in place, expired locks go and the lock is made, renewed or refused as specified |
| LockManagers.LockManager.Release | src/scheduler/lock-manager.ts:77-94 | in place, the lock with the id goes, and the answer tells whether there was one |
| LockManagers.LockManager.ReleaseForTask | src/scheduler/lock-manager.ts:96-107 | in place, exactly the locks of the task go |
| LockManagers.LockManager.GetConflictingLocks | src/scheduler/lock-manager.ts:114-140 | the locks in conflict with a scope and key on a host, after expired ones went |
| LockManagers.LockManager.Renew | src/scheduler/lock-manager.ts:142-160 | in place, exactly the lock with the id gets a new expiry |
| LockManagers.LockManager.CleanExpired | src/scheduler/lock-manager.ts:162-174 | in place, exactly the expired locks go |
| Framing.FedIsWhole | src/ipc-protocol.ts:91-115 | feeding chunks one by one gives the messages and remainder of parsing the whole stream, for every division |
| Framing.SplitConcat | src/ipc-protocol.ts:95-99 | splitting a concatenation is splitting the first part and carrying its remainder into the second |
| Framing.RoundTrip | src/ipc-protocol.ts:83-85 | encoded messages come back in order with nothing left, under any division into chunks |
| IpcParsers.IPCMessageParser.FindNewline | src/ipc-protocol.ts:213-233 | the first newline at or after an offset of the buffered bytes, looking at each byte passed once |
| IpcParsers.IPCMessageParser.SliceRange | src/ipc-protocol.ts:240-253 | the buffered bytes before an offset, across chunks |
| IpcParsers.IPCMessageParser.ConsumeFront | src/ipc-protocol.ts:258-269 | in place, the buffered bytes lose a prefix |
| IpcParsers.IPCMessageParser.Push | src/ipc-protocol.ts:148-207 | in place, the messages and the remainder of the whole-buffer parser on everything buffered; overflow exactly past the limit; bytes examined never exceed bytes pushed |
| IpcParsers.IPCMessageParser.Reset | src/ipc-protocol.ts:287-292 | in place, nothing is buffered |
| IpcParsers.IPCMessageParser.Feed | src/ipc-protocol.ts:148-207 | a whole stream of pushes gives the messages and remainder of the concatenation unless some push overflows, which is characterised exactly |
| Workspaces.NormalizeWorkspace | src/coordinator/workspace.ts:1-16 | the normal form of an absolute path, or which error |
| Workspaces.NormalizeIdempotent | src/coordinator/workspace.ts:1-16 | a normalised path names the same directory and is its own normal form |
| Workspaces.SameTextSameDirectory | src/coordinator/workspace.ts:15 | two paths have the same normal form exactly when they name the same directory |
| Workspaces.ParentUndoesName | src/coordinator/workspace.ts:8-12 | a name followed by two dots leaves the normal form unchanged |
| Workspaces.RootIsItself | src/coordinator/workspace.ts:1-16 | the root is its own normal form, with a single dot or a second slash too |
| Workspaces.DotStays | src/coordinator/workspace.ts:7 | a single dot and an empty piece, at the end of a path or in the middle, leave the normal form unchanged |
| Workspaces.NameEnters | src/coordinator/workspace.ts:13-15 | a name goes behind the components of the path before it, and the normal form is that path's with the name behind it |
| Workspaces.ParentLeaves | src/coordinator/workspace.ts:8-12 | two dots take away the last component, and are refused as leaving the root where there is none |
| Workspaces.RefusedIff | src/coordinator/workspace.ts:1-16 | a path is refused as not absolute exactly when it does not begin with a slash, and as leaving the root exactly when some part of it from the front has more double dots than names |
| Workspaces.OverlapIsNesting | src/coordinator/workspace.ts:18-22 | the textual overlap test holds exactly when one component list is a prefix of the other, except that the root overlaps only itself |
| Workspaces.WorkspacesOverlap | src/coordinator/workspace.ts:18-22 | overlap of two workspaces as nesting of directories; refused exactly when one path is |
| Leases.ConflictVisibility | src/coordinator/store.ts:173-204 | in every run, of two active overlapping non-read leases the later one was told of the earlier |
| Leases.ToldExactly | src/coordinator/store.ts:175-193 | a begin call is told of exactly the active leases that clash with it |
| Leases.InactiveForGood | src/coordinator/store.ts:206-220 | in every run, a finished or expired lease never becomes active again |
| Leases.StepKeepsInactive | src/coordinator/store.ts:206-273 | no single call makes an inactive lease active |
| Leases.StepFollows | src/coordinator/store.ts:206-220 | calls keep the identity of a row, and an outcome once set |
| Leases.OnlyFinishConcludes | src/coordinator/store.ts:206-232 | without a finish call that knows its token an open lease gets no outcome but expired |
| Leases.SweptTells | src/coordinator/store.ts:270-273 | after the marking of expired leases a lease has no outcome exactly if it is active, and no other lease has changed |
| Leases.RefusalTells | src/coordinator/store.ts:206-220 | a call on a lease is refused as expired exactly when the lease is not open, and for its token exactly when it is open and the token differs |
| Leases.ListedIff | src/coordinator/store.ts:222-232 | a lease is listed exactly if it is active and, when a workspace is given, one directory holds the other |
| Leases.NearbyTells | src/coordinator/store.ts:264-268 | the observed activity reported for a workspace is exactly the processes whose directory overlaps it or is not known |
| CoordinatorStores.CoordinatorStore.BeginTask | src/coordinator/store.ts:173-204 | in place, expired rows are marked and the new row is written; the conflicts are the active clashing rows, the observed activity the processes near the workspace, none for a read; refused exactly for a bad path, of the workspace or, the row being written already, of a process |
| CoordinatorStores.CoordinatorStore.ListObserved | src/coordinator/store.ts:264-268 | the processes near a workspace, or the error of the first whose path is bad |
| CoordinatorStores.CoordinatorStore.Heartbeat | src/coordinator/store.ts:206-212 | in place, the row is extended, or nothing changes and the reason is given |
| CoordinatorStores.CoordinatorStore.FinishTask | src/coordinator/store.ts:214-220 | in place, the row gets its outcome, or nothing changes and the reason is given |
| CoordinatorStores.CoordinatorStore.ListActive | src/coordinator/store.ts:222-232 | the active rows overlapping a workspace; expired rows are marked even when the path is refused |
| CoordinatorStores.CoordinatorStore.CleanupExpired | src/coordinator/store.ts:270-273 | in place, exactly the open rows past their expiry become expired |
| TaskScopes.NoOrphan | src/coordinator/task-scope.ts:24-78 | under every interleaving, delay and loss: exactly one finish call for a delivered lease of a finished scope, none otherwise; with none outstanding or lost, the lease is not active |
| TaskScopes.OutcomeIsReported | src/coordinator/task-scope.ts:41-74 | under every interleaving, delay and loss: each finish call carries the outcome the task was first finished with if the lease was there by then, and cancelled if it came later; the lease is recorded with that outcome if the call reached it while active, and else with none or as expired |
| TaskScopes.FinishRecords | src/coordinator/task-scope.ts:68-74 | a finish whose call reaches the active lease records its outcome and ends it |
| TaskScopes.BeginTakesLease | src/coordinator/task-scope.ts:31-59 | a begin call that is answered gives the scope its lease, on the normal form of the workspace for one time to live, and starts the timer |
| TaskScopes.BeatExtends | src/coordinator/task-scope.ts:63-66 | a heartbeat that reaches the active lease extends it by a whole time to live |
| TaskScopes.LeaseRunsOut | src/coordinator/task-scope.ts:31-66 | a lease is inactive one time to live after its last extension; one whose reply was not delivered was never extended |
| TaskScopes.NeverRevived | src/coordinator/task-scope.ts:63-66 | an inactive lease stays inactive in every continuation, late heartbeats included |
| TaskScopes.NextKeeps | src/coordinator/task-scope.ts:24-78 | every move of the scope, the network, the table or other clients keeps the invariant of the protocol |
| TaskScopes.CoordinatorTaskScope.Begin | src/coordinator/task-scope.ts:24-29 | asks once, and not after the task has finished |
| TaskScopes.WarnedIff | src/coordinator/task-scope.ts:55 | a caller is warned exactly when an active lease clashes with the task or a process is observed near its workspace; never for a read |
| TaskScopes.AnswerTells | src/coordinator/task-scope.ts:31-59 | what the caller is told of the reply: conflicts and observed activity in either case, and whether the lease came in time |
| TaskScopes.CoordinatorTaskScope.BeginReplied | src/coordinator/task-scope.ts:31-59 | records the lease and starts the heartbeat, or hands a late lease back at once; sets the metadata with conflicts, observed activity and warning |
| TaskScopes.CoordinatorTaskScope.Heartbeat | src/coordinator/task-scope.ts:63-66 | sends a heartbeat only for a lease of an unfinished scope |
| TaskScopes.CoordinatorTaskScope.Finish | src/coordinator/task-scope.ts:68-74 | finishes once, stops the heartbeat and sends the finish call with the outcome given if there is a lease; `OutcomeIsReported` says what becomes of it |
| TaskScopes.CoordinatorTaskScope.Dispose | src/coordinator/task-scope.ts:76-78 | finishes as cancelled |
| EventTexts.EventsAtNewline | src/scheduler/event-log.ts:225-228 | the events of a file are those before a newline followed by those from it on |
| EventTexts.LoggedLast | src/scheduler/event-log.ts:140-147 | a line written behind complete lines adds its event at the end |
| EventTexts.MatchingTells | src/scheduler/event-log.ts:264 | of the events of a text exactly those of the host asked for are given, each as often as it is there, or all if none is asked for |
| EventTexts.MatchingOneByOne | src/scheduler/event-log.ts:264 | each event of the host keeps its place among them |
| EventTexts.NewestTells | src/scheduler/event-log.ts:253-273 | the newest events are the last of the text, the last one first, as many as asked for |
| EventLogs.CollectEvents | src/scheduler/event-log.ts:253-273 | the newest matching events of a text, newest first, up to the limit |
| EventLogs.ReadBackwards | src/scheduler/event-log.ts:213-239 | for every file, limit, filter, chunk size and chunk budget the backwards read gives what a full read gives, whichever exit it takes |
| EventLogs.EventLog.Log | src/scheduler/event-log.ts:136-153 | the line goes behind the buffer and into the log |
| EventLogs.EventLog.Flush | src/scheduler/event-log.ts:169-190 | over any run of calls every logged line has gone to exactly one file or is still buffered, in order, and each file is exactly the lines that went to it; a flush appends the buffer to the current file, or keeps it when the write fails, and leaves a full file behind |
| EventLogs.EventLog.RotateFile | src/scheduler/event-log.ts:78-95 | the first free number of the day, or the base file of a new day |
| EventLogs.EventLog.GetRecent | src/scheduler/event-log.ts:192-246 | the newest events of exactly this text: file and buffer after a write with room, the file alone without a write, nothing when the write fills the file on the same day, the first file of a new day otherwise |
| EventLogs.LoggedIsSeenIff | src/scheduler/event-log.ts:192-196 | an event logged last and not before is seen by the next read exactly if the write succeeds and does not fill the file; then it comes first |
| OutputStreams.FlushTimingIsInvisible | src/scheduler/output-store.ts:137-186 | for a fresh stream and any interleaving of appends and flushes: tail, byte count and flushed file depend on the appended bytes only |
| OutputStreams.TailRolls | src/scheduler/output-store.ts:71-77 | the rolling tail stays the last 64 KiB of the stream |
| OutputStreams.FullReadingTells | src/scheduler/output-store.ts:218-265 | a full read gives the prefix up to the cap and reports truncation exactly when the stream is longer |
| OutputStreams.TailReadingTells | src/scheduler/output-store.ts:218-265 | a tail read gives the end of the stream and reports truncation exactly when the reach or the cap is exceeded |
| OutputStores.RestartHolds | src/scheduler/output-store.ts:349-371 | what had reached the file is the whole stream for whoever reads it after a restart, whatever was still queued |
| OutputStores.RestartIsInvisible | src/scheduler/output-store.ts:349-396 | of a flushed stream within the cap both kinds of read give after a restart what they gave before; of a longer one they give its first bytes up to the cap as if that were all |
| OutputStores.OutputStore.AppendStdout | src/scheduler/output-store.ts:137-142 | in place, only the one stream is appended to |
| OutputStores.OutputStore.AppendStderr | src/scheduler/output-store.ts:144-149 | in place, only the one stream is appended to |
| OutputStores.OutputStore.FlushQueue | src/scheduler/output-store.ts:174-186 | in place, the file grows by the queue up to the cap; an empty queue creates no file |
| OutputStores.OutputStore.Flush | src/scheduler/output-store.ts:152-160 | in place, both queues of a task reach its files and nothing else changes |
| OutputStores.OutputStore.FlushAll | src/scheduler/output-store.ts:163-167 | in place, every stream is flushed |
| OutputStores.OutputStore.GetOutput | src/scheduler/output-store.ts:218-265 | both readings of a task, reloaded from disk when memory knows nothing of it, which `RestartIsInvisible` describes |
| OutputStores.OutputStore.Remove | src/scheduler/output-store.ts:267-273 | the task is forgotten and its files go as far as they can; other tasks are untouched |
| Retention.RecentTasks | src/scheduler/output-store.ts:285-296 | the tasks with the newest output, as many as asked for |
| Retention.NewestIsNewest | src/scheduler/output-store.ts:285-296 | the time a task is ranked by is the newest of its files |
| Retention.TotalDrops | src/scheduler/output-store.ts:305-310 | deleting one file lowers the total by its size |
| OutputCleanup.PassesCollect | src/scheduler/output-store.ts:316-337 | what the two passes delete meets the retention guarantee |
| OutputCleanup.CollectedTells | src/scheduler/output-store.ts:316-337 | the guarantee for one file: sheltered and stuck ones stay, others past the retention time go, and younger ones go only if the budget needs it |
| OutputCleanup.CleanedKeeps | src/scheduler/output-store.ts:275-340 | a whole clean-up: the guarantee, counters that agree with the files, entries that go with their last file, and the exact number of kept files |
| OutputCleanup.KeptOnceIff | src/scheduler/output-store.ts:316-334 | the kept files are counted once each exactly when the total after the first pass is within the budget, or the second pass reaches the budget before it meets a sheltered file |
| OutputCleanup.CountedTwice | src/scheduler/output-store.ts:330-332 | a concrete clean-up that leaves one file and reports two as kept |
| OutputStores.OutputStore.DeleteExpired | src/scheduler/output-store.ts:316-324 | in place, the files, entries and counters of the first pass, and the set of keys that went |
| OutputStores.OutputStore.TrimToBudget | src/scheduler/output-store.ts:326-337 | in place, the files, entries and counters of the second pass over the order given |
| OutputStores.OutputStore.CollectListed | src/scheduler/output-store.ts:301-337 | in place, the files, entries and counters of both passes over a listing |
| OutputStores.OutputStore.Cleanup | src/scheduler/output-store.ts:275-340 | everything is flushed; protected and recent files stay, other expired ones go, the budget is met unless only sheltered or stuck files remain, no survivor is older than a budget victim, the last victim was needed, deleted bytes equal the drop of the total, kept files are counted exactly |
| SshConfigs.MergeEntries | src/ssh-config.ts:125-137 | settings of later entries replace those of earlier ones, one by one |
| SshConfigs.LastSettingWins | src/ssh-config.ts:125-137 | each setting has the value of the last entry that gives it one |
| SshConfigs.UnsetStaysUnset | src/ssh-config.ts:125-137 | a setting is missing exactly when no entry gives it |
| SshConfigs.LiteralMatches | src/ssh-config.ts:116-123 | a pattern without wildcards matches exactly its own letters in either case |
| SshConfigs.StarMatches | src/ssh-config.ts:116-123 | a star matches exactly any text in its place |
| SshConfigs.QuestionMatches | src/ssh-config.ts:116-123 | a question mark matches exactly one character |
| SshConfigs.MatchingIff | src/ssh-config.ts:153-155 | an entry describes a host exactly if it is in the file and its pattern matches |
| SshConfigs.MatchingConcat | src/ssh-config.ts:153-155 | the matching entries come in the order of the file, none left out |
| SshConfigs.HopDefaults | src/ssh-config.ts:153-199 | a host no matching entry says anything of goes by its own name, port 22 and user root, without key, agent, forwarding or jumps |
| SshConfigs.HopTakesLast | src/ssh-config.ts:153-199 | each setting of a host is that of the last matching entry that gives it, and of several key files the first |
| SshConfigs.ResolveHostToChain | src/ssh-config.ts:144-202 | the loop and its recursion give the specified resolution; terminates on every configuration |
| SshConfigs.ChainIsReachable | src/ssh-config.ts:144-202 | the chain holds exactly the host and what is reached through jumps other than none, each once, the host last, ids counting from zero |
| SshConfigs.JumpsComeFirstIff | src/ssh-config.ts:162-172 | every host comes after all the jumps it names exactly when no cycle of jumps is reached |
| RegistryLocks.NoLostUpdate | src/command-registry.ts:219-258 | in every interleaving without a holder past the stale limit: at most one process inside, its copy is the file, nobody breaks the lock, and the file is the committed operations in series |
| RegistryLocks.StalledHolderLosesUpdate | src/command-registry.ts:237-242 | a concrete run with a holder stalled past the limit in which a committed entry is lost |
| RegistryLocks.OneCallGoesThrough | src/command-registry.ts:219-258 | a call that finds the lock free and is left alone commits its operation and leaves the lock free |
| RegistryLocks.ReleasesOwnIff | src/command-registry.ts:253-274 | a process that is done releases the lock exactly if it is still its own, even after a break |
| RegistryLocks.GivesUpLate | src/command-registry.ts:219-249 | in every interleaving, no call gives up before it has waited for five seconds |
| RegistryLocks.StepExclusive | src/command-registry.ts:223-257 | each step keeps the lock exclusive and owned by the process inside |
| RegistryLocks.StepNeverStale | src/command-registry.ts:260-266 | each timely step leaves the lock unbreakable |
| RegistryLocks.StepFaithful | src/command-registry.ts:115-166 | each step keeps the copy read equal to the file and the file equal to the commits in series |
| RegistryOperations.OthersStay | src/command-registry.ts:115-166 | an operation leaves every other entry alone |
| RegistryOperations.CreationStays | src/command-registry.ts:120-126 | overwriting an entry keeps its creation time |
| RegistryOperations.HasAnyIff | src/command-registry.ts:80-86 | the intent of a command is inferred from a word of the list standing in it as a whole word, wherever that is |
| RegistryOperations.StandsAloneIff | src/command-registry.ts:80-86 | a word stands in a text exactly where neither neighbour is a letter, a digit or an underscore |
| RegistryOperations.InferTells | src/command-registry.ts:80-86 | a background command is a server; of the others the words for tests, builds and installations, in this order, decide, and no word gives no intent |
| RegistryOperations.WrittenTells | src/command-registry.ts:115-166 | what each operation writes, field by field: what the update gives goes to its own field, what it does not stays, what is missing is inferred or defaulted; and exactly when nothing is written |
| RegistryOperations.ReadBackIff | src/command-registry.ts:276-307 | what is normalised is normal, and reading an entry back changes it exactly if it was not |
| RegistryOperations.NormalStays | src/command-registry.ts:115-166 | every operation leaves normal entries only, so a file that is written reads back as written |
| RegistryOperations.InferredStays | src/command-registry.ts:134-156 | an intent and a cost once stored, though inferred, stay when a later update changes command or mode without giving them |
| RegistryOperations.CommandRegistryStore.RegisterCommand | src/command-registry.ts:115-132 | in place, file and copy get the merged entry in normal form, with mode, intent and cost, which is returned; an entry without a command changes nothing |
| RegistryOperations.CommandRegistryStore.UpdateCommand | src/command-registry.ts:134-156 | in place, an existing entry is merged and put in normal form; a missing one changes nothing |
| RegistryOperations.CommandRegistryStore.DeleteCommand | src/command-registry.ts:158-166 | in place, the entry goes, and the answer tells whether there was one |
| LineEndings.EveryDivisionIff | src/file-transfer.ts:235-294 | for texts of any length: every division into chunks converts like the whole text exactly when at each prefix the detected style agrees with the whole on being the target, or the prefix needs no change; and it agrees at the end if that is a carriage return |
| LineEndings.DivisionWithinSampleIff | src/file-transfer.ts:261-271 | within the detection sample this comes to the prefixes with a lone carriage return |
| LineEndings.NoLoneCrStreamIsWhole | src/file-transfer.ts:251-293 | a text without a lone carriage return, within the limit, is converted the same under any division |
| LineEndings.StreamIsWhole | src/file-transfer.ts:251-293 | a steady text of any length is converted the same under any division |
| LineEndings.UnsteadyDivides | src/file-transfer.ts:261-282 | an unsteady text has a division that converts differently |
| LineEndings.LateEndingsAreKept | src/file-transfer.ts:261-271 | beyond the sample, late line endings go undetected and are kept, unlike in the whole |
| LineEndings.DetectTells | src/file-transfer.ts:210-218 | what detection by counting says: lf without any pair, crlf with pairs only, mixed with both |
| LineEndings.CanonicalMeans | src/file-transfer.ts:194-207 | the converted text has the target style only and the same lines |
| LineEndings.ConvertTells | src/file-transfer.ts:194-207 | converting a text gives its lines, ended by a pair, a line feed or a lone carriage return, with the ending asked for; it changes nothing if the endings are the same, one is binary, or mixed is asked for |
| LineEndings.LineEndingTransform.Transform | src/file-transfer.ts:251-285 | in place, one chunk: sample, detection, held-back carriage return and output as specified |
| LineEndings.LineEndingTransform.Flush | src/file-transfer.ts:287-293 | the held-back carriage return at the end, converted |

## Left out

- Network, SSH, SFTP, subprocesses, command-line and MCP front ends, response texts: plumbing around libraries that are not visible here.
- The rule table that classifies commands: its results are inputs.
- Persistence, restore after a restart, virtual working directories, lifecycle hooks, waiting callers and agent records: without effect on the scheduling state modelled here; restoring does not pump, so work conservation is stated from an empty scheduler.
- The public acquire and release calls of the scheduler, and aborting all active tasks: the first two can take locks away from running tasks, which the invariant excludes.
- The sorted list of finished tasks behind eviction: eviction is an event that drops any finished tasks.
- Fields of a task and of a lock that only report (creation and update times, reasons, output tails): no decision reads them.
- Lock keys: the source joins scope, host and key with colons; the model takes the three as a triple, so keys that collide once joined are not modelled.
- The runner's result is a number; signals and streamed output are not modelled. A runner that reports later is a separate event.
- UTF-8 decoding, JSON text and hashing: lines, events and leases are decoded by a parameter or taken as values; a chunked stream is a stream of bytes, and the tail of an output is cut at a byte.
- Messages are handed out after a push and not during it, so a handler that pushes again is not modelled.
- SQL, schema migration, the scans that record observed processes, sessions, and the audit trail of the coordinator: the lease rows are kept, the observed processes are an input of a begin call; a conflict report is the set of rows it is made from.
- The reply timeout of the coordinator client: a lost reply is a failed call.
- EventLogs.EventLog.constructor: starts from an empty directory; choosing among existing files by counting their lines, and deleting old files, are not modelled.
- Failing writes of the output files, and paths with characters that are refused.
- Parsing the SSH configuration text and its includes, and reading the key file: the model starts from the parsed entries. Host patterns fold the case of ASCII letters only.
- Reading the registry's file: it is taken to be parsed and normalised, which `RegistryOperations.NormalStays` shows to be no change for a file the registry wrote. A blank text is a missing value, and execution settings are merged field by field.
- A registry process that crashes inside the lock: shut out by the assumption on the stale limit.
- Character encodings around the line-ending converter.
- Whether a run can always go on (deadlock, fairness): all results are safety results, with termination of each call.
