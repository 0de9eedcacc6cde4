# Synora: a model of the mirror manager, with proofs

Synora runs mirror jobs. A manager dispatches runs to workers, a scheduler decides when, and
providers fetch the data. This project models the parts of it where a mistake is expensive and
hard to see, and proves what they promise over every interleaving, crash and input:

- `RunTable`, `RunProtocol`, `RunStore`: the `job_runs` table, each guarded SQL statement as one
  atomic step together with the write to `jobs.status` that follows it, and the lease and fencing
  protocol as a state machine in which any worker, stale or not, may call anything at any time.
  `Store` is the same table with methods that update it in place, each tied to the step it
  implements. `RunEffects` says field by field what each statement leaves in the rows and on the job,
  and of every run that has ended which statement ended it and how.
- `Manager`, `ManagerLoop`: dispatch as the steps others can come between (hold check, one step for
  each dependency, the locked check and insert), each of whose reads may fail; the hold after worker
  loss, and the reaper's pass.
- `Schedule`: interval anchors, due passes, the boot pass and reloads, each of whose reads and
  writes may fail.
- The HTTP mirror: `MirrorPlan`, `MirrorCrawl`, `MirrorFacts` and `MirrorOffers` (a concurrent crawl,
  what its findings say, and that it takes all that upstream offers), `MirrorTree` (the local tree), `MirrorApply` (a plan carried out with bounded
  concurrency, the tree going through a sequence of atomic changes any of which may be the last),
  `MirrorOrder` (a plan in every order its downloads may land in), `MirrorSync` (the whole run) and
  `MirrorExamples` (two upstreams).
- `Download`: the resumable GitHub release downloader against a server whose object changes.
- `NixChannels`: publishing a channel release once its closure is in the store, and the garbage
  collector.
- `AccessLogs`: the cache of validated access logs and the seven-day window made from it.
- `LogTail`: the bounded rolling log.
- `Expand`, `ExpandMeaning`, `Layers`: `${VAR}` expansion, its meaning on texts made of comments,
  strings and variables, and the layered merge of included configuration files.

Modelling conventions. Wall clock, new ids, the network, the planner's choice, I/O failures and
cancellation are parameters or nondeterministic choices, so every statement holds for all of them,
but where the end of this page says otherwise.
Where a class has a constant that says whether things may fail, its methods also promise what happens
when nothing does.
Where the code changes files, a class keeps a `history` of every state the disk has been in since
the call began, each change is one `Commit`, and crash safety is a statement about every element of
that history. Run ids and lease tokens are numbers that never repeat; bytes of a log are characters;
paths are sequences of names without trailing slashes.

## What turned out differently from the documentation

- A lease lasts `RUN_LEASE_SECS` = 300 seconds (`crates/synora-core/src/job.rs:14`).
- Exclusion is stronger than the guard of `claim_run` says: the guard leaves out CANCELLING, but the
  unique index of `migrations/0008_assignment_fencing.sql` covers it and a violation is a lost claim
  (`crates/db/src/store.rs:742-746`). `RunProtocol.MutualExclusion` counts CANCELLING.
- The fence is skipped when the worker name is empty, the value the code uses for "no fence"
  (`RunProtocol.FenceNeedsWorkerName`).
- Reconciling is not always idempotent: its sort keys leave ties (`RunProtocol.TiedEndsFlip`).
  `RunProtocol.ReconcileIdempotentIff` says exactly when it is.
- The hold after worker loss is not complete. It can miss a loss, because the newest run is chosen by
  creation second and id (`Manager.LossWithoutHold`; `Manager.LossHoldsIff` is the exact condition,
  whatever else is in flight). And it is checked before the job's lock is taken, so a scheduled
  dispatch that passed the check before the loss still queues a run afterwards (`Manager.LossDuringDispatch`); a held job gains a
  row in no other way, except by the requeue of a safe stop already reported
  (`Manager.HoldBrokenIff`, `Manager.PostLossHold`). A worker that reports its own safe stop is
  requeued under either policy (`crates/manager/src/router.rs:845-893`).
- One run in flight for each job depends on the in-flight read: a failed read counts as "none"
  (`crates/engine/src/engine.rs:586-590`). The insert after such a read, of a job that has a run in
  flight, is the one step that breaks it (`Manager.OneInFlightKept`).
- `interval_next` gives the least slot after now only once the anchor has passed
  (`Schedule.GridNextIs`); its correcting loop never has anything to do.
- "No drift" does not survive a reload that fails after writing a job's row: until the next reload
  the ticks move the row by the old schedule from the new anchor (`Schedule.FailedReloadDrifts`).
  `Schedule.OffGridAfterIff` says for any run of boots, reloads and ticks when a row is off its grid,
  `Schedule.GetsAheadIff` that only such a reload starts it, and `Schedule.FailedReloadStraysIff`
  which of them can: the schedule still followed is manual, at startup, a calendar with a slot off
  the new grid, or an interval that is not a multiple of the new one.
- A slot is dispatched once only if the row can be moved on afterwards: the error of that write is
  discarded, and the next tick finds the same slot due (`Schedule.RepeatNeedsFailure`). For the same
  reason a missed slot that the policy skips may be dispatched by the first tick.
- The rolling log stays within its limit exactly for limits up to 1 or from twice the marker length
  less one (`LogTail.CapHoldsIff`). Output is lost without a marker when a chunk of more than half the
  limit comes while its end still fits (`LogTail.SilentLossIff`). A rollover goes through the empty
  file, so a crash there leaves nothing (`LogTail.LogFile.Append`: an append takes away what was
  there, even for a moment, exactly if it rolls over), and what a crash leaves shows that output is
  missing exactly if all of the marker was written (`LogTail.CutShowsLossIff`).
- RPM metadata is kept complete for readers only where a listing does not reach into a metadata
  directory. Object stores list keys with slashes, and these pass the path check
  (`crates/parser/src/lib.rs:125-160`, `crates/httpfetch/src/lib.rs:396-420`). A root listing with
  `repodata/`, `repodata/repomd.xml` and `repodata/new.xml` schedules `repodata/repomd.xml` both as
  an ordinary download and for publication, because the result of `remote.insert` is ignored when the
  manifest is found (`crates/httpfetch/src/lib.rs:389`). If that download lands before
  `repodata/new.xml`, readers see a manifest that names a missing file
  (`MirrorExamples.FlatShowsIncomplete`). `MirrorOrder.NeverIncompleteIff` says which plans can show
  one, in some landing order against some server: those in which a planned manifest is also a
  download, or names a file neither planned nor there. `MirrorSync.PlanOrderly` says of which
  upstreams no plan is one.
- Exclusions do not stop metadata: a manifest that a listing of a metadata directory names is
  published although an exclusion hits it (`crates/httpfetch/src/lib.rs:383-394`). Everything else an
  exclusion hits stays (`MirrorSync.ExcludedStays`).
- An upstream that lists both `x` and `x.partial` can lose the second: `x` uses that name for its
  partial file (`MirrorApply.NameLost`). Some landing order loses a name exactly if the plan fetches
  the file it is the partial name of (`MirrorApply.NameFateIff`); `MirrorSync.ScratchKeptIff` says
  which orders keep it, and `MirrorSync.Stable` that nothing else stands between a clean run and an
  idle next one.
- A mirror run with deletes reports a failure when a `.partial` file of an earlier crash is in the
  way: the plan wants it deleted, but by then the download of its file has removed it. Exactly those
  deletes find nothing (`MirrorApply.StaleGone`), and a run meets one exactly if it deletes, its
  listing is complete, and there is a local file at the partial name of something to fetch that is
  neither listed nor excluded (`MirrorSync.StalePlannedIff`).
- A download without a digest may publish the first part of a version when the advertised size is
  smaller than the object and the connection ends exactly there (`Download.TruncatedVersion`);
  `Download.WholeVersion` says when the file is the whole object.

## Model

| member | source | states |
|---|---|---|
| `RunProtocol.RowEvolves` | crates/db/src/store.rs:383-1009 | every statement changes any one row only along the legal transitions: statuses, token, lease, retry count; new rows start without a token |
| `RunProtocol.InvKept` | crates/db/src/store.rs:719-760 | every statement keeps: ids and tokens issued and unshared, live rows leased to a named worker, retry counts within budget, one live row per job |
| `RunProtocol.MutualExclusion` | crates/db/src/store.rs:719-746 | in every reachable state no two runs of a job are in STARTING, SYNCING, RUNNING or CANCELLING |
| `RunProtocol.ClaimIff` | crates/db/src/store.rs:723-746 | a claim succeeds exactly if the run is queued for this worker or nobody and no run of its job is live |
| `RunProtocol.ClaimGrantsLease` | crates/db/src/store.rs:732-738 | after a claim the fence lets through exactly this worker with this token for one lease period |
| `RunProtocol.DeadStaysDead` | crates/db/src/store.rs:383-398 | no statement revives a claim that is over or whose lease has lapsed |
| `RunProtocol.StaleCallRefused` | crates/db/src/store.rs:903-925 | a fenced call without a usable token changes nothing and reports so |
| `RunProtocol.DeadForever` | crates/db/src/store.rs:383-398 | over any run of the system a dead token stays dead |
| `RunProtocol.StaleHolderSafety` | crates/db/src/store.rs:889-1009 | once a claim is over or its lease has lapsed, before or after the reaper, no renewal, finish, retry or log write with its token is ever applied |
| `RunProtocol.ClaimEndsOnce` | crates/db/src/store.rs:889-935 | each claim ends at most once, whichever of finish, retry, expiry, supersession or purge comes first |
| `RunProtocol.ReapedAmongOthers` | crates/manager/src/main.rs:133-139 | once each overdue run that the reaper asked for has been expired, at whatever points of an interleaved run, no remote run is left whose lease had run out by then |
| `RunProtocol.FenceNeedsWorkerName` | crates/db/src/store.rs:912-912 | the fence protects a finish exactly if a worker is named |
| `RunProtocol.DropLeavesOne` | crates/db/src/store.rs:555-575 | after dropping superseded runs a job with an executing run has no other run in flight, and no live claim was taken away |
| `RunProtocol.FuelBurns` | crates/db/src/store.rs:764-773 | each status change of a row lowers retries left and phase, lexicographically; terminal rows do not change |
| `RunProtocol.RunTerminates` | crates/db/src/store.rs:975-1009 | a run changes status at most 5 * retries + 4 times |
| `RunProtocol.TerminalAbsorbs` | crates/db/src/store.rs:889-911 | a terminal status is never left |
| `RunProtocol.LiveRunShields` | crates/db/src/store.rs:889-1009 | while a run of a job is live, no finish, retry, expiry or other statement about another of its runs changes the status the job shows; only a promotion of the job, a reconciliation, a dependency skip, or an insert while the run is being cancelled can |
| `RunProtocol.LiveRunShieldsLong` | crates/db/src/store.rs:937-942 | the same over any stretch of a run of the system |
| `RunProtocol.LatestExists` | crates/db/src/store.rs:1488-1491 | reconciling finds a latest row for every job with a run |
| `RunProtocol.ReconcileShowsLiveRun` | crates/db/src/store.rs:1475-1497 | a reconciled job shows its live run |
| `RunProtocol.ReconcileIdempotentIff` | crates/db/src/store.rs:1475-1497 | reconciling twice is reconciling once exactly if no job without a run in flight has two equally late runs with different statuses |
| `RunProtocol.SettledIffIdempotent` | crates/db/src/store.rs:1488-1491 | the same for the evidence read per job |
| `RunProtocol.TiedEndsFlip` | crates/db/src/store.rs:1488-1491 | a table whose latest rows tie: reconciling it may show either status, and reconciling again the other |
| `RunEffects.CompletionStored` | crates/db/src/store.rs:889-935 | a reported completion is applied exactly if the worker named holds the run with this token in this attempt; then the row has the outcome reported, this end time and no lease, and no other field, row or log differs |
| `RunEffects.RetryStored` | crates/db/src/store.rs:975-1009 | a scheduled retry likewise: RETRYING, one attempt further, due at the time given, no lease |
| `RunEffects.ExpiryStored` | crates/db/src/store.rs:392-398 | exactly a live run whose lease is over becomes LOST, ended at the time of the check |
| `RunEffects.ClaimStored` | crates/db/src/store.rs:719-760 | a claim takes exactly a queued run of this worker or of nobody whose job has no live run: SYNCING, with the worker, a new token and a lease |
| `RunEffects.RenewalStored` | crates/db/src/store.rs:383-390 | a renewal by the holder, and by no one else, moves the end of the lease and changes nothing else |
| `RunEffects.RenewalHolds` | crates/db/src/store.rs:383-390 | afterwards exactly this worker with this token passes the fence, for 300 seconds |
| `RunEffects.LogStored` | crates/db/src/store.rs:1237-1247 | the log of a run is the text its holder sent, and of an existing log the job must be the run's |
| `RunEffects.InsertStored` | crates/db/src/store.rs:683-715 | a new run is queued with nothing else set; the job shows QUEUED exactly if no run of it is active |
| `RunEffects.SkipStored` | crates/engine/src/engine.rs:548-575 | a dependency skip is a run that has ended as SKIPPED when it begins, and is shown so |
| `RunEffects.RequeueStored` | crates/db/src/store.rs:642-679 | a lost run is queued anew with one loss more exactly if nothing of its job is in flight |
| `RunEffects.AssignStored` | crates/db/src/store.rs:579-589 | exactly a queued run without a worker gets this one |
| `RunEffects.UnassignStored` | crates/manager/src/main.rs:177-186 | exactly the queued runs of workers that are not online lose them |
| `RunEffects.HeartbeatStored` | crates/db/src/store.rs:764-799 | after a heartbeat exactly the begun runs of this worker and the listed jobs have become RUNNING, and the jobs with an active run there show it |
| `RunEffects.StopStored` | crates/db/src/store.rs:1102-1110 | an operator's stop makes exactly the active runs of the job CANCELLING |
| `RunEffects.RetryDueStored` | crates/engine/src/scheduler.rs:76-79 | exactly a due retry in the attempt it was read in is queued again |
| `RunEffects.LeftoversStored` | crates/db/src/store.rs:555-575 | exactly the waiting and cancelling runs beside an active run of their job are CANCELLED |
| `RunEffects.ReloadStored` | crates/engine/src/engine.rs:843-843 | a changed definition cancels exactly the waiting runs of its job |
| `RunEffects.DisabledStored` | crates/engine/src/scheduler.rs:50-66 | the waiting retry of a disabled job is cancelled |
| `RunEffects.ForgetStored` | crates/db/src/store.rs:1422-1470 | purging a job takes away its runs, its logs and its row, and nothing of any other |
| `RunEffects.EndShown` | crates/db/src/store.rs:937-942 | after an applied completion, retry or expiry the job shows the outcome reported, RETRYING or LOST, unless another run of it is live, and no other job differs |
| `RunEffects.ClaimShown` | crates/db/src/store.rs:753-760 | after a claim the job shows SYNCING |
| `RunEffects.ReconcileShows` | crates/db/src/store.rs:1475-1497 | a reconciled job shows RUNNING, SYNCING, CANCELLING, QUEUED or RETRYING, in this order, if a run of it is in such a status, and else the status of a run that none ended after |
| `RunEffects.EndTimes` | crates/db/src/store.rs:889-911 | in every reachable state exactly the runs that have ended have an end time |
| `RunEffects.EndedByItsStatement` | crates/db/src/store.rs:889-911 | in every reachable state a run that has ended carries the outcome and the time of the one statement that ended it, and is as that statement left it |
| `RunEffects.OneRunLive` | migrations/0008_assignment_fencing.sql:2-2 | in every reachable state no two runs of a job are in the statuses the unique index lists |
| `RunStore.Store.SetJobStatusForRun` | crates/db/src/store.rs:937-942 | the guarded update of `jobs.status` |
| `RunStore.Store.CreateQueuedRun` | crates/db/src/store.rs:683-715 | insert a queued run; the job's status follows only if nothing is active |
| `RunStore.Store.AssignQueuedRun` | crates/db/src/store.rs:579-589 | a queued run nobody has gets this worker, once |
| `RunStore.Store.ClaimRun` | crates/db/src/store.rs:719-760 | the guarded update and the index conflict together are the claim step, and exclusion holds afterwards |
| `RunStore.Store.MarkJobsRunning` | crates/db/src/store.rs:764-799 | a heartbeat promotes this worker's syncing runs of the listed jobs, one after the other |
| `RunStore.Store.RenewRunLease` | crates/db/src/store.rs:383-390 | a lease is renewed only through the fence |
| `RunStore.Store.SetCancellingByJob` | crates/db/src/store.rs:1102-1110 | an operator's stop marks the active runs of a job |
| `RunStore.Store.FinishActiveRunFenced` | crates/db/src/store.rs:889-935 | the fenced completion with its write-back |
| `RunStore.Store.SetRetryFromActiveFenced` | crates/db/src/store.rs:975-1009 | the fenced retry with its write-back |
| `RunStore.Store.ExpireRun` | crates/db/src/store.rs:392-398 | a lapsed live run becomes LOST |
| `RunStore.Store.ExpiredRuns` | crates/db/src/store.rs:617-619 | exactly the live remote runs with a lapsed lease |
| `RunStore.Store.CreateLostRequeue` | crates/db/src/store.rs:642-679 | a lost run is requeued with its loss counted, unless its job has a run in flight |
| `RunStore.Store.DropSupersededRuns` | crates/db/src/store.rs:555-575 | waiting and cancelling runs of a job that has an active run are cancelled |
| `RunStore.Store.UnassignOfflineRuns` | crates/manager/src/main.rs:177-186 | queued runs of workers that are not online lose their worker |
| `RunStore.Store.InsertLogFenced` | crates/db/src/store.rs:1237-1247 | a log is stored only through the fence, on insert and on update |
| `RunStore.Store.ReconcileStaleJobStatus` | crates/db/src/store.rs:1475-1497 | every job's status becomes what the fixed priority of its runs yields |
| `Manager.ManagedRefines` | crates/engine/src/engine.rs:516-614 | each step of the managed system is one statement of the free protocol or none, so its theorems apply |
| `Manager.StepRowsEnd` | crates/engine/src/engine.rs:585-610 | in the managed system rows only end, and a new row in flight is alone in its job exactly unless a failed in-flight read hid another one |
| `Manager.OneInFlightKept` | crates/engine/src/engine.rs:578-610 | whatever comes between the steps of dispatches, every step keeps a job at one run in flight but the insert after a failed in-flight read of a job that has one, which breaks it |
| `Manager.BlindInsertIff` | crates/engine/src/engine.rs:586-610 | an insert after a failed in-flight read keeps one run in flight exactly if there was none |
| `Manager.LossHoldsIff` | crates/engine/src/engine.rs:527-541 | losing a run holds its job exactly if no other run of it is in flight and it was the newest run or the newest was already lost |
| `Manager.LossWithoutHold` | crates/engine/src/engine.rs:527-541 | a concrete table in which the loss is missed and the next dispatch queues a run |
| `Manager.HoldKept` | crates/engine/src/engine.rs:527-541 | a held job with no work under way gains and loses no row in any step but the insert of a forced dispatch or its removal, and gets no work under way |
| `Manager.ManagedInvariants` | crates/manager/src/main.rs:133-162 | every reachable state of the managed system keeps the protocol's invariants, and one run in flight for each job of which no failed read has hidden one |
| `Manager.HoldPersists` | crates/engine/src/engine.rs:527-541 | such a hold lasts over any continuation without a release |
| `Manager.HoldBrokenIff` | crates/engine/src/engine.rs:527-610 | a held job can gain a row without a release exactly if a scheduled dispatch of it has passed the hold check and not finished, or a safe stop of one of its runs has still to requeue it |
| `Manager.PostLossHold` | crates/engine/src/engine.rs:527-610 | under the policy `fail`, after the reaper loses the newest run, the job is held exactly if no other run of it was in flight, which takes an earlier failed read; and held it can gain a row without a release exactly if such work was under way at the loss |
| `Manager.LossDuringDispatch` | crates/engine/src/engine.rs:527-610 | a concrete run in which a dispatch passes the check, the reaper loses the run, and the locked insert queues another one |
| `ManagerLoop.Coordinator.RunHistoryFirst` | crates/db/src/store.rs:1041-1053 | the first run by creation time and id, descending |
| `ManagerLoop.Coordinator.DispatchCurrent` | crates/engine/src/engine.rs:516-614 | given what others make of the table before each of its steps and which reads and writes fail: the outcome and the new table are what the rules allow for those tables; a hold that cannot be checked ends it, a dependency that cannot be read has not succeeded |
| `ManagerLoop.Coordinator.Dispatch` | crates/engine/src/engine.rs:516-614 | in terms of the rows of those tables: it is refused for the hold exactly if the newest run by (creation, id) could be read and was LOST; each dependency passed had a newest run in SUCCESS or SUCCESS_WITH_WARNINGS, and the one it was skipped for had none such or could not be read; past that a run in flight is found if the last table could be read and shows one, and else one with exactly these fields is queued unless the write fails |
| `ManagerLoop.Coordinator.LockedInsert` | crates/engine/src/engine.rs:578-610 | under the lock: the run already in flight, or a new one queued unless the write fails; a failed read finds nothing in flight |
| `ManagerLoop.Coordinator.ReaperPass` | crates/manager/src/main.rs:133-215 | each row afterwards, exactly: what waits or is cancelling beside an active run is CANCELLED, overdue remote runs are LOST, queued runs are with an online worker or where the planner says, all others are as they were; new rows are those of lost runs under `retry`, one loss more; workers silent for over 90 seconds are OFFLINE; jobs that lost no run show what reconciling gave |
| `ManagerLoop.Coordinator.ReapExpired` | crates/manager/src/main.rs:133-162 | exactly the overdue remote runs are lost, and those under `retry` leave their job with a run in flight; no other row or job differs |
| `ManagerLoop.Coordinator.Reassign` | crates/manager/src/main.rs:164-186 | workers silent for over 90 seconds go offline and the queued runs of workers that are not online go where the planner says; no other row differs |
| `Schedule.GridNextIs` | crates/synora-core/src/schedule.rs:145-158 | the next slot is on the anchor's grid and later than now; the least such slot if the anchor has passed, one period after the anchor otherwise |
| `Schedule.SyncKeepsGrid` | crates/engine/src/engine.rs:434-468 | syncing a schedule leaves an interval row on its grid, and a changed one due no earlier than now |
| `Schedule.RecomputeKeepsGrid` | crates/engine/src/scheduler.rs:109-135 | recomputing keeps the row on its grid and makes it due strictly later than now |
| `Schedule.SyncWrites` | crates/engine/src/engine.rs:402-480 | a row synced: an unchanged schedule keeps its anchor and its slot, a changed one is anchored now and due at its first slot, or now for a start at boot |
| `Schedule.TickWrites` | crates/engine/src/scheduler.rs:109-135 | a row recomputed keeps anchor and policy and is due at the first slot later than now, or never |
| `Schedule.OffGridIff` | crates/synora-core/src/schedule.rs:145-158 | counting another period from the same anchor stays on the grid at all times exactly if it is a multiple of the grid's own |
| `Schedule.StrangeTickIff` | crates/engine/src/scheduler.rs:109-135 | ticks by a live interval other than the row's keep the row on its grid at all times exactly if the live period is a multiple of the row's |
| `Schedule.StepOffGridIff` | crates/engine/src/engine.rs:434-468 | one boot, reload or tick: the row is off its grid afterwards exactly if this tick strays, or it was off and is not rewritten |
| `Schedule.OffGridAfterIff` | crates/engine/src/engine.rs:434-468 | any run of boots, reloads and ticks: the row is off its grid at the end exactly if some tick strayed and nothing has rewritten the row since |
| `Schedule.GetsAheadIff` | crates/engine/src/engine.rs:838-846 | a row gets ahead of the schedule the daemon follows exactly by a reload that fails after writing it |
| `Schedule.CanStrayIff` | crates/engine/src/scheduler.rs:109-135 | on a row ahead of the daemon some tick strays exactly if the live schedule is manual, at startup, an interval that is not a multiple of the row's, or a calendar with a slot off the grid |
| `Schedule.FailedReloadStraysIff` | crates/engine/src/engine.rs:838-846 | a reload that fails after writing a new interval can lead to drift exactly if the schedule still followed is of that kind |
| `Schedule.NoDrift` | crates/engine/src/engine.rs:807-860 | on any run in which no reload fails that way every row stays on its grid |
| `Schedule.FailedReloadDrifts` | crates/engine/src/engine.rs:838-846 | a reload that fails half way, a tick and a reload that succeeds leave an interval job off its grid |
| `Schedule.Fired` | crates/engine/src/scheduler.rs:89-106 | a dispatch keeps: if the row was moved on after a dispatch, the slot of the job's next one had not come when it was made |
| `Schedule.RepeatNeedsFailure` | crates/engine/src/scheduler.rs:109-135 | a slot is dispatched again under the same schedule only if the row could not be moved on |
| `Schedule.Scheduler.Fire` | crates/engine/src/scheduler.rs:96-105 | an overdue row of a live job is dispatched at most once; it is recomputed by the live schedule and due strictly later, or stays as it was if that fails |
| `Schedule.Scheduler.Pass` | crates/engine/src/scheduler.rs:89-106 | one firing for each job to be dispatched and no other; handled rows are recomputed and due later but for those that could not be written, which like all others are unchanged |
| `Schedule.Scheduler.DispatchDue` | crates/engine/src/scheduler.rs:89-106 | a live job is dispatched if and only if its row could be read and was due, once however many slots it missed; rows not due are as they were, and all live due rows that could be written, all if nothing fails, are due later than now |
| `Schedule.Scheduler.BootPass` | crates/engine/src/scheduler.rs:12-41 | a live job is dispatched, once, if and only if the rows could be read and its own was due by now, its slot lay before the boot and its policy is run-immediately; a row due later or not before the boot is as it was; the others are moved on if they can be written, all if nothing fails |
| `Schedule.Scheduler.SyncJob` | crates/engine/src/engine.rs:402-480 | one row becomes what its specification and its old row say, or nothing changes on an error, which is an unknown time zone or a fault |
| `Schedule.Scheduler.Boot` | crates/engine/src/engine.rs:307-331 | a start fails only for an unknown time zone or a fault; after it the rows are exactly those of the configured jobs, each as its specification says (`SyncWrites`), and still on their grids; a start that fails is to each job at most one event of `OffGridAfterIff` |
| `Schedule.Scheduler.Reload` | crates/engine/src/engine.rs:807-860 | live definitions become the new ones exactly if everything could be written, which takes known time zones of the new ones and no fault; a failing one may only have dropped removed jobs; changed rows are as their specifications say (`SyncWrites`), those of removed jobs go, unchanged jobs keep theirs; to each job it is at most one event of `OffGridAfterIff` |
| `Schedule.Scheduler.Forget` | crates/engine/src/engine.rs:339-390 | a removed job leaves the live ones before its row goes; the first error ends it there |
| `MirrorPlan.ManifestEntries` | crates/httpfetch/src/lib.rs:855-895 | a manifest's files, in order, with their sizes |
| `MirrorPlan.EntriesAddUp` | crates/httpfetch/src/lib.rs:396-448 | with single names, what other directories found does not change what a listing adds |
| `MirrorPlan.ListingAddsUp` | crates/httpfetch/src/lib.rs:375-448 | one listing and its subdirectories still to do amount to the recursive crawl of it |
| `MirrorPlan.EntriesOnce` | crates/httpfetch/src/lib.rs:421-426 | no listing schedules a file twice |
| `MirrorCrawl.CrawlFrom` | crates/httpfetch/src/lib.rs:308-478 | the worklist loop keeps what it knows and what is outstanding equal to the whole, lists nothing but the root and what an earlier listing named, and on any server ends with findings each of which has its ground |
| `MirrorCrawl.CrawlIndex` | crates/httpfetch/src/lib.rs:283-514 | in every completion order the crawl finds what the recursive crawl finds (single names, cap not reached); on any server the root is listed with min(depth, 16) levels of budget, at most 64 listings and no more than `threads` are in flight, at most 1,000,001 directories are listed, none twice, each but the root an entry of a directory listed before it with one level of budget more, and no file is scheduled twice; an invalid manifest met, or a listing that failed, is reported exactly then; without cap or failure all that is offered has been taken |
| `MirrorCrawl.ChainBound` | crates/httpfetch/src/lib.rs:433-443 | on any server a chain of listings each found by the one before is as long as the budget it uses up |
| `MirrorCrawl.HopsBound` | crates/httpfetch/src/lib.rs:283-446 | on any server every directory listed is at the end of such a chain from the root, of at most min(depth, 16) hops |
| `MirrorTree.ReadDir` | crates/httpfetch/src/lib.rs:995-1022 | one directory's extra files, extra directories and directories to descend into |
| `MirrorTree.LocalExtras` | crates/httpfetch/src/lib.rs:989-1026 | exactly the files, links and directories that are not listed and of which no exclusion hits a prefix, the path itself included; directories deepest first |
| `MirrorFacts.CrawlJustified` | crates/httpfetch/src/lib.rs:396-448 | on any server every planned download, link and manifest is listed, nothing planned but manifests is hit by an exclusion or leads outside, and every listed file is downloaded or in place |
| `MirrorFacts.StaysSane` | crates/httpfetch/src/lib.rs:375-394 | where listings keep out of metadata directories, reading one more listing leaves no manifest an ordinary file, and every file of a planned manifest in the plan or excluded |
| `MirrorFacts.CrawlAlike` | crates/httpfetch/src/lib.rs:958-981 | the local tree decides which files to download and nothing else about the plan |
| `MirrorOffers.ReplyIs` | crates/httpfetch/src/lib.rs:374-395 | what a directory is answered with: one called `repodata` with the files its `repomd.xml` names, whatever it lists itself, or as invalid if that is no `repomd` document, has no primary metadata, or names a file elsewhere, itself, or none |
| `MirrorOffers.EntryTaken` | crates/httpfetch/src/lib.rs:396-448 | one entry: passed over exactly if it leads outside or an exclusion hits it, only counted if its name is known, else it adds exactly its name, its size to the total, and what its kind calls for; a file is fetched unless what is there has its size, or for want of a size its time, or is no file |
| `MirrorOffers.EntriesTaken` | crates/httpfetch/src/lib.rs:396-448 | all that one listing offers is known afterwards, and what is known only now is taken for what one of its entries says |
| `MirrorCrawl.EverythingTaken` | crates/httpfetch/src/lib.rs:308-478 | after a crawl without cap or failure, everything offered by a directory that plain directory entries lead to from the root is among the findings |
| `MirrorApply.Mirror.OpenPartial` | crates/httpfetch/src/lib.rs:1101-1113 | making directories and the partial file keeps every manifest complete, and succeeds if nothing is in the way and nothing fails |
| `MirrorApply.Mirror.FinishDownload` | crates/httpfetch/src/lib.rs:1114-1150 | a download lands by one rename of whatever is at its partial name or leaves its destination as it was; if nothing is in the way and nothing fails, a full answer lands |
| `MirrorApply.RankedLand` | crates/httpfetch/src/lib.rs:1109-1150 | a landing keeps track of what is at every partial name in use, and of which files hold their own content |
| `MirrorApply.NameLost` | crates/httpfetch/src/lib.rs:1109-1150 | a plan for `x.partial` and `x` and the states of a run that loses the first |
| `MirrorApply.Counted` | crates/httpfetch/src/lib.rs:626-672 | counting an outcome keeps the transfer's books balanced |
| `MirrorApply.Mirror.Transfer` | crates/httpfetch/src/lib.rs:562-703 | if not cancelled each download was started exactly once, in order, at most `threads` at once, and ended once, as the server's answer allows; downloaded, failed, warned and bytes are exactly those of the endings: a 404 or 410, and a 403 if allowed, of a file that is not vital is warned of, any other ending that is no landing has failed |
| `MirrorApply.CriticalIs` | crates/httpfetch/src/lib.rs:1028-1039 | a file is vital exactly if it is below a directory `repodata`, is named `Release`, `Release.gpg`, `InRelease`, `repomd.xml` or `index.html`, or its name up to the first dot is `Packages` or `Sources` |
| `MirrorApply.ReadyToPublish` | crates/httpfetch/src/lib.rs:702-721 | once every download has landed, all files a planned manifest names are there |
| `MirrorApply.Mirror.PublishAll` | crates/httpfetch/src/lib.rs:704-721 | manifests are published only then, by rename, and the first failure ends the run; if nothing is in the way and nothing fails all are published |
| `MirrorApply.ReadyToDelete` | crates/httpfetch/src/lib.rs:722-722 | once every manifest is out, no planned delete is named by a visible manifest |
| `MirrorApply.Mirror.DeleteFiles` | crates/httpfetch/src/lib.rs:722-744 | each planned file is unlinked or counted as failed, and the failures are the files that are not there and the I/O faults |
| `MirrorApply.StaleGone` | crates/httpfetch/src/lib.rs:1109-1150 | once everything has landed and is out, a planned delete is still there exactly if the run has not used its name for a partial file |
| `MirrorApply.StaleAbsent` | crates/httpfetch/src/lib.rs:722-744 | so the planned deletes that are absent then are exactly those of partial names of the run |
| `MirrorApply.NameFateIff` | crates/httpfetch/src/lib.rs:1109-1150 | some landing order of a plan loses a name exactly if it is the partial name of something planned; some order keeps such a name exactly if it is itself a download and no manifest uses it |
| `MirrorApply.Mirror.DeleteDirs` | crates/httpfetch/src/lib.rs:745-768 | without failures each obsolete directory is gone or has something left in it |
| `MirrorApply.Mirror.EnsureLink` | crates/httpfetch/src/lib.rs:1163-1184 | whatever is at the path stays untouched; otherwise the link is made |
| `MirrorApply.Mirror.MakeLinks` | crates/httpfetch/src/lib.rs:769-797 | without failures every planned link path is occupied and nothing deleted comes back |
| `MirrorApply.Mirror.Execute` | crates/httpfetch/src/lib.rs:522-816 | for any plan: nothing is deleted unless all planned files have landed and all manifests are out; a run that ends has had one ending for each download, and its figures are theirs and those of the manifests if everything was complete and landed; an incomplete plan fails, and one that deletes partial files of its own counts at least that many failures; if nothing is in the way and nothing fails it does end, every full answer lands and every failure is one of the server, of those partial files or of the listing; if the plan is orderly, at every moment each visible manifest is complete |
| `MirrorOrder.NeverIncompleteIff` | crates/httpfetch/src/lib.rs:562-721 | a plan with nothing in its way, over a mirror whose manifests are complete, passes through a tree with an incomplete manifest, in some landing order against some server, exactly if a planned manifest is also a download or names a file neither planned nor there |
| `MirrorOrder.OrderlyIff` | crates/httpfetch/src/lib.rs:522-721 | and that is all that a whole run asks of a plan to keep manifests complete |
| `MirrorSync.MakePlan` | crates/httpfetch/src/lib.rs:479-514 | an error exactly for an unreachable root, an invalid manifest met, or deletes asked for although a listing failed; else the plan holds exactly what was found, no file twice, deletes only on a complete listing, and then all that was offered has been taken |
| `MirrorSync.ExcludedIsLeft` | crates/httpfetch/src/lib.rs:1045-1058 | where an exclusion hits a path or a directory it is in, no plan downloads, links or deletes it |
| `MirrorSync.DeletesAre` | crates/httpfetch/src/lib.rs:985-1026 | with deletes on and a complete listing, the plan deletes exactly what is there, is not among the findings and of which no exclusion hits a prefix |
| `MirrorSync.ExcludedStays` | crates/httpfetch/src/lib.rs:1045-1058 | in every tree of a run a local path that an exclusion hits is as it was, unless it is a partial name of the run or a manifest |
| `MirrorSync.AllSeen` | crates/httpfetch/src/lib.rs:308-478 | a complete listing knows everything offered on any way down from the root |
| `MirrorSync.PlanProper` | crates/httpfetch/src/lib.rs:375-394 | whatever the server lists, the plan is one that can be carried out: it deletes only what is there and nothing it fetches or links, and its manifests are good |
| `MirrorSync.PlanOrderly` | crates/httpfetch/src/lib.rs:375-394 | where no listing names anything inside a metadata directory, the plan never shows an incomplete manifest |
| `MirrorSync.NothingLost` | crates/httpfetch/src/lib.rs:985-1026 | nothing listed or excluded is lost; at a name the run has used for a partial file there is a file exactly if the file of that name landed later |
| `MirrorSync.NothingObsolete` | crates/httpfetch/src/lib.rs:722-744 | no file is left that is neither listed nor excluded |
| `MirrorSync.DirsNeeded` | crates/httpfetch/src/lib.rs:745-768 | a directory that is left is listed, excluded, or leads to something that is |
| `MirrorSync.FileCurrent` | crates/httpfetch/src/lib.rs:958-981 | every listed file is there with its size, or a link or directory is left in its place, if it landed after the file whose partial name it has and so did the one with its own partial name |
| `MirrorSync.ScratchKeptIff` | crates/httpfetch/src/lib.rs:1109-1150 | after a clean run there is a file at a partial name of the run exactly if the file of that name landed later |
| `MirrorSync.Converges` | crates/httpfetch/src/lib.rs:522-816 | a clean run leaves the mirror in step with upstream, a listed file with a partial name of the run being there exactly if it landed later |
| `MirrorSync.Stable` | crates/httpfetch/src/lib.rs:958-981 | with exact sizes a second plan over the same listings downloads nothing and deletes no file if no listed file was lost to a partial file, and only then unless a link or directory took its place |
| `MirrorSync.StalePlannedIff` | crates/httpfetch/src/lib.rs:479-514 | a plan deletes a partial file of its own exactly if deletes are on, the listing is complete, and a local file at the partial name of something to fetch is neither listed nor excluded |
| `MirrorSync.Sync` | crates/httpfetch/src/lib.rs:822-845 | a whole synchronisation of any upstream: what exclusions hit stays at every moment, a complete listing has seen everything offered; convergence when it ends clean, which with deletes it never does over a partial file left behind, and which it does if nothing is in the way, the listing is complete, the server has everything and nothing fails; crash consistency of the metadata at every moment if the plan is orderly; with single names and exact sizes an idle next run exactly if no name was lost |
| `MirrorExamples.BehindIsOrdinary` | crates/httpfetch/src/lib.rs:1327-1379 | a concrete mirror one metadata generation behind meets everything the synchronisation takes for granted |
| `MirrorExamples.BehindPlansNew` | crates/httpfetch/src/lib.rs:1327-1379 | and its crawl plans the new manifest and the file it names |
| `MirrorExamples.BehindFree` | crates/httpfetch/src/lib.rs:1327-1379 | nothing is in the way of that plan, and its server has all of it |
| `MirrorExamples.FlatShowsIncomplete` | crates/httpfetch/src/lib.rs:385-394 | an upstream whose listing has keys inside a metadata directory: the crawl schedules the manifest as a download and for publication, and when that download lands first readers see it name a missing file |
| `Download.Accept` | synora-scripts/github-release.py:145-161 | a response is accepted exactly if its status, range, version and length fit the request, and then the body belongs at offset zero for 200, at the requested one for 206 |
| `Download.WholeVersion` | synora-scripts/github-release.py:107-119 | without a digest a published file of known size is the beginning of some version, and all of one that it begins exactly if that version has the advertised size |
| `Download.TruncatedVersion` | synora-scripts/github-release.py:107-179 | a server and a response that publish a strict beginning of every version |
| `Download.DigestDecides` | synora-scripts/github-release.py:108-115 | with a digest and no collisions it is the object the digest was taken of |
| `Download.Downloader.Publish` | synora-scripts/github-release.py:107-119 | publishes exactly if the digest matches, else drops the part and its state |
| `Download.Downloader.Receive` | synora-scripts/github-release.py:162-176 | the part grows by the body, stays the beginning of one version, and is given up when it exceeds the size |
| `Download.TheVersion` | synora-scripts/github-release.py:129-161 | what is kept of the part file and what the response carries belong to one version |
| `Download.Downloader.Take` | synora-scripts/github-release.py:141-179 | one response handled: published exactly if it is accepted, ends without error at the advertised size and has the digest, and then what was kept followed by the body; otherwise safe to go on from |
| `Download.Downloader.Try` | synora-scripts/github-release.py:121-179 | one attempt: an answer that is whole, fresh or resumed, and has the digest is published; an error status is final exactly if it is not transient |
| `Download.Downloader.DoDownload` | synora-scripts/github-release.py:79-188 | over any responses and with a crash after any step, a published file has the advertised size and either the given digest or the bytes of one version; a whole answer is published, only a final status ends in an HTTP error, and there are at most five attempts |
| `NixChannels.PathInfo` | synora-scripts/nix-channels.py:344-369 | the reflexive and transitive closure of the roots, or an error exactly if part of it is missing |
| `NixChannels.PublishedServes` | synora-scripts/nix-channels.py:404-412 | in every state each published channel has narinfo and nar of all that its release asks for |
| `NixChannels.Mirror.Stage` | synora-scripts/nix-channels.py:180-272 | exactly a release neither published nor already named as the update is filled: its paths and time are those given, it is complete only if it was, and it is named as the update exactly if no hash failed; no other release, and no published one, is written to |
| `NixChannels.Mirror.Closures` | synora-scripts/nix-channels.py:343-373 | jobs result exactly if every batch's closure can be had, and the release is given up exactly if the first batch whose closure cannot is one that upstream has dropped for good; they hold narinfo and nar of the whole closure, nothing else and no file twice, each nar before its narinfo |
| `NixChannels.Mirror.Fetch` | synora-scripts/nix-channels.py:378-398 | in any order of the pool: nothing but the jobs' files is stored, success means all of them, and what is missing is in a job one of whose files failed |
| `NixChannels.Mirror.UpdateChannel` | synora-scripts/nix-channels.py:303-414 | the pending release is published only with narinfo and nar of everything its paths, but those left out by name, refer to in the store, and is if every batch's closure can be had and nothing fails; nothing else is stored; it is given up exactly if the first batch that cannot be had is gone for good; all other releases stay as they are |
| `NixChannels.Mirror.Alive` | synora-scripts/nix-channels.py:437-471 | the releases kept are exactly the finished ones that are published, recent enough, or the newest of their channel |
| `NixChannels.Mirror.LocalClosure` | synora-scripts/nix-channels.py:473-510 | the closure of all kept releases, or a refusal exactly if part of one is not in the store |
| `NixChannels.Mirror.Sweep` | synora-scripts/nix-channels.py:522-552 | nothing of the closure is unlinked; if no unlink fails nothing else is left |
| `NixChannels.Mirror.CollectGarbage` | synora-scripts/nix-channels.py:427-561 | suspended exactly if an update is pending, refused exactly if part of what a kept release asks for is missing; a sweep leaves exactly the kept releases and those that never finished, and all that the kept ones ask for; a clean one leaves nothing else in the store; published channels stay whole at every moment |
| `AccessLogs.Cache.Validate` | synora-scripts/pypi-runtime/logs.py:83-105 | an error exactly if some line is invalid; else the requests of all good lines, in order, a summary that describes them, and the number of lines left out for their path |
| `AccessLogs.Cache.ValidatedFile` | synora-scripts/pypi-runtime/logs.py:58-110 | reused exactly if fingerprint and size match, or else validated anew and an error exactly if the file cannot be read or has an invalid line; the result is the validation of the file's content; the entry is the only one that changes, and after any step metadata never describes other data |
| `AccessLogs.Cache.Contribution` | synora-scripts/pypi-runtime/logs.py:133-145 | whole-file copy, line filter or nothing is always the requests in the window |
| `AccessLogs.Cache.Prepare` | synora-scripts/pypi-runtime/logs.py:113-151 | the output holds exactly the good requests of the last seven days, up to 300 seconds ahead, of all lines of all regular files changed in that time, in order; it is replaced only if not empty; only an unreadable file or an invalid line fails it; afterwards the cache holds exactly the entries of those files |
| `AccessLogs.PlainIs` | synora-scripts/pypi-runtime/logs.py:113-147 | the plain definition in terms of lines: it fails exactly at an invalid line of a file to read, and else gives that output |
| `AccessLogs.Cache.DropUnused` | synora-scripts/pypi-runtime/logs.py:150-152 | exactly the entries not used are dropped, safely in any order |
| `LogTail.LogFile.Append` | crates/command-runner/src/log_tail.rs:13-42 | the file becomes what was there and the chunk, or if that does not fit the marker, the whole recent lines there is room for, and the chunk; it fails only if the lock or a write does; wherever an append stops, the file holds a beginning of that, after all of the old content unless it rolls over; some state on the way lacks the old content exactly if it rolls over, and then one is the empty file |
| `LogTail.LinesKept` | crates/command-runner/src/log_tail.rs:28-41 | every end of the old content that starts a line and fits half the limit less the marker survives a rollover |
| `LogTail.CapHoldsIff` | crates/command-runner/src/log_tail.rs:28-41 | appends keep every file within the limit exactly for limits up to 1 or from twice the marker length less one |
| `LogTail.DefaultCap` | crates/command-runner/src/log_tail.rs:6-11 | the default limit is one of them |
| `LogTail.TailKept` | crates/command-runner/src/log_tail.rs:28-41 | the file is what was written, or the marker and the end of it; an old marker never survives; the last chunk is at the end |
| `LogTail.ReplayTail` | crates/command-runner/src/log_tail.rs:13-42 | the same over any sequence of chunks of any size, with the cap |
| `LogTail.RunTail` | crates/command-runner/src/log_tail.rs:13-42 | with chunks of at most half the limit nothing but old output is lost, and nothing at all within the limit |
| `LogTail.SilentLossIff` | crates/command-runner/src/log_tail.rs:27-41 | output is lost without a rollover exactly if a chunk of more than half the limit comes while its end still fits; a rollover always writes the marker |
| `LogTail.CutShowsLossIff` | crates/command-runner/src/log_tail.rs:37-41 | a rollover cut short shows that output is missing exactly if all of the marker was written |
| `ExpandMeaning.ExpandEnv` | crates/config/src/loader.rs:470-548 | the scanner's loop computes the scan, and so gives every text made of code, comments, strings and variables its meaning |
| `ExpandMeaning.FileMeans` | crates/config/src/loader.rs:470-548 | such a text comes out with every variable in code and in basic strings replaced by its value and doubled dollars halved, all else as it is, if that is at most 16 MiB |
| `ExpandMeaning.PiecesScanned` | crates/config/src/loader.rs:470-548 | after such a text the scan goes on in code, whatever follows |
| `ExpandMeaning.TooLargeFails` | crates/config/src/loader.rs:483-489 | a text whose expansion is over 16 MiB before its end is an error |
| `Expand.BytesEach` | crates/config/src/loader.rs:483-483 | sizes count the bytes of UTF-8 |
| `ExpandMeaning.LiteralCopied` | crates/config/src/loader.rs:507-538 | from code, a quote, any text without that quote and a quote are copied, dollars and all, and the scan goes on in code |
| `ExpandMeaning.PartsScanned` | crates/config/src/loader.rs:507-538 | a basic string, from after its opening quote: its characters, escapes and variables each with their meaning, up to the quote that ends it |
| `ExpandMeaning.EscapeCopied` | crates/config/src/loader.rs:513-518 | in a basic string a backslash and the character after it are copied: no dollar or quote counts there |
| `ExpandMeaning.UnsetFails` | crates/config/src/loader.rs:590-602 | after any such text a variable that is not set is an error that names it |
| `Expand.Substituted` | crates/config/src/loader.rs:576-602 | `${NAME}` becomes the variable's value, which is not read again; an empty or unset name is an error |
| `Expand.Unclosed` | crates/config/src/loader.rs:576-589 | a `${` without a closing brace is an error |
| `Expand.DollarSigns` | crates/config/src/loader.rs:559-575 | two dollars stand for one, even before a brace; one dollar that neither a brace nor a dollar follows stands for itself |
| `Expand.CommentVerbatim` | crates/config/src/loader.rs:514-525 | a comment is copied as it is |
| `Expand.CommentAtEnd` | crates/config/src/loader.rs:519-525 | so is one that the file ends with |
| `Expand.LiteralVerbatim` | crates/config/src/loader.rs:507-512 | a literal string is copied as it is |
| `Expand.DollarOnce` | crates/config/src/loader.rs:559-568 | a doubled dollar comes out single, whatever follows |
| `Expand.RoundTrip` | crates/config/src/loader.rs:470-602 | escaping and then expanding gives any text within the size limit back, in every environment |
| `Expand.NothingToExpand` | crates/config/src/loader.rs:470-548 | text without a dollar expands to itself |
| `Layers.MergeTable` | crates/config/src/loader.rs:775-786 | the loop computes the recursive merge, in any order of keys |
| `Layers.MergeLookup` | crates/config/src/loader.rs:775-786 | a path holds a value after one merge exactly if the later document sets it so, or the earlier does and the later does not touch it |
| `Layers.LayeredLookup` | crates/config/src/loader.rs:768-786 | a path holds a value exactly if some file sets it so and no later file sets the path or replaces a table on the way to it |
| `Layers.Loader.LoadFile` | crates/config/src/loader.rs:391-460 | files are merged in load order, a beginning of which has been merged when an error ends it; each error has its reason: a chain of more than 32 includes, one that closes, a file that cannot be read, one file too many, or more than 16 MiB, as read or expanded |
| `Layers.Loader.Load` | crates/config/src/loader.rs:391-460 | a root file loads exactly if no chain of includes closes, is more than 32 deep or names a file that cannot be read, and there are at most 1024 files of at most 16 MiB; then every path means what the last file that touches it says |
| `Layers.PreorderPlaced` | crates/config/src/loader.rs:447-457 | load order is the order of places in the include tree: a file before all it includes, those in the order listed, every place once |

## Left out

- `ManagerLoop.Coordinator.DispatchCurrent`: the insert and the finish of a skipped run happen together or not at all; in the code the second may fail on its own, which leaves the row without an end time.
- `ManagerLoop.Coordinator.ReaperPass`: the pass is alone on the table and none of its statements fails; among others, `RunProtocol.ReapedAmongOthers` and the invariants of `RunProtocol` hold.
- The second statement on `jobs` after creating, claiming, finishing, retrying, expiring or requeueing a run is part of the step. In the code others may come between; the one after a claim is unguarded (`crates/db/src/store.rs:757`) and can land after a finish. It concerns `jobs.status` alone.
- `MirrorApply.Mirror.PublishOne`: a local symbolic link at `repomd.xml.partial` is replaced by a file; the code writes through it and renames the link.
- Unfenced local writes (`set_run_status`, `finish_run`, `set_retry` by id alone) rely on a single local owner; only the uses in dispatch and `retry_tick` are modelled.
- HTTP routes, roles, token checks, SQL drivers, migrations other than the index named above, the CLI and the TUI.
- Calendar arithmetic (cron, daily, weekly, time zones): a parameter that yields a later instant or none. Sub-second intervals count as whole seconds.
- Retry delays and back-off: the next attempt's time is a parameter; the retry count grows by one.
- Index, TOML, JSON and XML parsing: parsed documents, listings and manifests are inputs. Inline tables count as leaves of a document.
- Line numbers of configuration errors, and TOML multi-line strings, which the scanner itself reads as single-line ones.
- Jobs, providers and connection-only loading in `load_file`; include patterns are taken as resolved file lists.
- Log lines, progress reports, metrics and hooks everywhere.
- Paths reached through a local symbolic link: the model does not resolve them. `create_dir_all` for a link whose parent is a symbolic link is an error in the model.
- Keys with empty or `.` segments (`a//b`, `a/./b`) name one local file; in the model they are two paths.
- Other processes writing to the mirror between planning and execution.
- The contents of a partial file while it grows; it is modelled from its creation to its rename or removal.
- RPM checksums: content addressing is an assumption about paths and what the server returns for them, not derived from checksums.
- `normalize` and `legacy` in the access-log scripts: how one line parses is a parameter that yields a positive timestamp.
- Channel pages and hash lists in `clone_channels`: a release's paths, its time and whether a hash failed are parameters; channels that are skipped for their age, a missing page or a bad tagline are not staged.
- Torn writes: file writes, renames, unlinks and SQL statements are atomic; removing a release directory is one step.
- Download size bounds on headers, encodings other than identity beyond their refusal, back-off between attempts, and file times and modes.
- The other mirror scripts, proxies, bandwidth, cgroups, snapshots and safety ratios.
