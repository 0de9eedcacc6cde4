/** Values shared by the whole project. */
module Prelude {
  datatype Option<+T> = None | Some(value: T)
}

/** The `job_runs`, `jobs` and `job_logs` tables and every guarded SQL statement
    of `crates/db/src/store.rs` that moves a run, one function per statement.
    A statement that fails its guard returns the table unchanged and `false`. */
module RunTable {
  import opened Prelude

  /** Lifetime of a claimed run's lease. */
  const RUN_LEASE_SECS := 300

  /** The text of a `RunId`: run ids and lease tokens. Only equality and the
      order used by `ORDER BY id` matter, so the naturals stand for it. */
  type Id = nat

  datatype Status =
    | Pending | Scheduled | Queued | Starting | Syncing | Running
    | Success | SuccessWithWarnings | Failed | Retrying
    | Cancelling | Cancelled | Lost | Skipped

  predicate Active(s: Status) { s.Starting? || s.Syncing? || s.Running? }

  /** The statuses of the unique index `one_active_run_per_job`. */
  predicate Live(s: Status) { Active(s) || s.Cancelling? }

  predicate InFlight(s: Status) { Live(s) || s.Queued? || s.Retrying? }

  predicate Terminal(s: Status) {
    s.Success? || s.SuccessWithWarnings? || s.Failed? || s.Cancelled? || s.Lost? || s.Skipped?
  }

  datatype Run = Run(
    job: string, worker: Option<string>, status: Status, retryCount: nat, lostCount: nat,
    token: Option<Id>, lease: Option<int>, nextRetry: Option<int>,
    created: int, started: Option<int>, finished: Option<int>, priority: int)

  datatype Table = Table(runs: map<Id, Run>, jobs: map<string, Status>, logs: map<Id, string>)

  // --- conditions of the WHERE clauses ------------------------------------

  predicate ActiveRunOf(t: Table, job: string) {
    exists x | x in t.runs :: t.runs[x].job == job && Active(t.runs[x].status)
  }

  predicate OtherLive(t: Table, job: string, id: Id) {
    exists x | x in t.runs :: x != id && t.runs[x].job == job && Live(t.runs[x].status)
  }

  predicate InFlightRunOf(t: Table, job: string) {
    exists x | x in t.runs :: t.runs[x].job == job && InFlight(t.runs[x].status)
  }

  /** The fence of a claim: this worker, this token, an unexpired lease, a live row. */
  predicate Fence(r: Run, worker: string, token: Option<Id>, now: int) {
    && r.worker == Some(worker)
    && token.Some? && r.token == token
    && r.lease.Some? && r.lease.value > now
    && Live(r.status)
  }

  /** `(? = '' OR (worker_id = ? AND ...)) AND status IN (...)`: an empty worker
      name is how the code writes "no fence". */
  predicate FencePasses(r: Run, worker: string, token: Option<Id>, now: int) {
    Live(r.status) && (worker == "" || Fence(r, worker, token, now))
  }

  // --- denormalised job status ---------------------------------------------

  function SetJobStatus(t: Table, job: string, s: Status): (t2: Table)
    ensures t2.runs == t.runs && t2.logs == t.logs
  {
    if job in t.jobs then t.(jobs := t.jobs[job := s]) else t
  }

  function ProjectRun(t: Table, id: Id): (t2: Table)
    ensures t2.runs == t.runs && t2.logs == t.logs
  {
    if id in t.runs && !OtherLive(t, t.runs[id].job, id)
    then SetJobStatus(t, t.runs[id].job, t.runs[id].status)
    else t
  }

  // --- statements ------------------------------------------------------------

  function SetRow(t: Table, id: Id, r: Run): Table { t.(runs := t.runs[id := r]) }

  function NewRun(job: string, worker: Option<string>, s: Status, lost: nat, now: int, priority: int): Run {
    Run(job, worker, s, 0, lost, None, None, None, now, None, None, priority)
  }

  function CreateRun(t: Table, id: Id, job: string, worker: Option<string>, s: Status, priority: int, now: int): Table {
    if id in t.runs then t else
      var t1 := SetRow(t, id, NewRun(job, worker, s, 0, now, priority));
      if s.Queued? && ActiveRunOf(t1, job) then t1 else SetJobStatus(t1, job, s)
  }

  /** Dispatch writes a dependency skip as an insert followed by `finish_run`. */
  function CreateSkipped(t: Table, id: Id, job: string, now: int): Table {
    if id in t.runs then t else
      var t1 := CreateRun(t, id, job, None, Skipped, 0, now);
      ProjectRun(SetRow(t1, id, t1.runs[id].(finished := Some(now))), id)
  }

  function AssignQueued(t: Table, id: Id, worker: string): (Table, bool) {
    if id in t.runs && t.runs[id].status.Queued? && t.runs[id].worker.None?
    then (SetRow(t, id, t.runs[id].(worker := Some(worker))), true)
    else (t, false)
  }

  function UnassignRow(r: Run, online: set<string>): Run {
    if r.status.Queued? && (r.worker.None? || r.worker.value !in online) then r.(worker := None) else r
  }

  function UnassignOffline(t: Table, online: set<string>): Table {
    t.(runs := map x | x in t.runs :: UnassignRow(t.runs[x], online))
  }

  /** The guarded UPDATE of `claim_run`: the row and sub-select guards first, then
      the unique index, whose violation comes back as `DbError::Conflict`. */
  predicate ClaimGuard(t: Table, id: Id, worker: string) {
    && id in t.runs
    && t.runs[id].status.Queued?
    && (t.runs[id].worker.None? || t.runs[id].worker.value == worker)
    && !ActiveRunOf(t, t.runs[id].job)
  }

  predicate IndexRejects(t: Table, id: Id) requires id in t.runs { OtherLive(t, t.runs[id].job, id) }

  function Claim(t: Table, id: Id, worker: string, token: Id, now: int): (Table, bool) {
    if ClaimGuard(t, id, worker) && !IndexRejects(t, id) then
      var r := t.runs[id].(status := Syncing, worker := Some(worker), started := Some(now),
                           lease := Some(now + RUN_LEASE_SECS), token := Some(token));
      (SetJobStatus(SetRow(t, id, r), r.job, Syncing), true)
    else (t, false)
  }

  function PromoteRow(r: Run, worker: string, job: string): Run {
    if r.worker == Some(worker) && r.job == job && (r.status.Starting? || r.status.Syncing?)
    then r.(status := Running) else r
  }

  predicate ActiveRunOn(t: Table, worker: string, job: string) {
    exists x | x in t.runs :: t.runs[x].worker == Some(worker) && t.runs[x].job == job && Active(t.runs[x].status)
  }

  function MarkRunning(t: Table, worker: string, job: string): Table {
    var t1 := t.(runs := map x | x in t.runs :: PromoteRow(t.runs[x], worker, job));
    if ActiveRunOn(t, worker, job) then SetJobStatus(t1, job, Running) else t1
  }

  function Renew(t: Table, id: Id, worker: string, token: Option<Id>, now: int): (Table, bool) {
    if id in t.runs && Fence(t.runs[id], worker, token, now)
    then (SetRow(t, id, t.runs[id].(lease := Some(now + RUN_LEASE_SECS))), true)
    else (t, false)
  }

  function CancelRow(r: Run, job: string): Run {
    if r.job == job && Active(r.status) then r.(status := Cancelling) else r
  }

  function CancelJob(t: Table, job: string): Table {
    t.(runs := map x | x in t.runs :: CancelRow(t.runs[x], job))
  }

  function Finish(t: Table, id: Id, expected: nat, s: Status, worker: string, token: Option<Id>,
                  now: int): (Table, bool)
  {
    if id in t.runs && t.runs[id].retryCount == expected && FencePasses(t.runs[id], worker, token, now)
    then (ProjectRun(SetRow(t, id, t.runs[id].(status := s, finished := Some(now), lease := None)), id), true)
    else (t, false)
  }

  function Retry(t: Table, id: Id, expected: nat, nextAt: int, count: nat, worker: string, token: Option<Id>,
                 now: int): (Table, bool)
  {
    if id in t.runs && t.runs[id].retryCount == expected && FencePasses(t.runs[id], worker, token, now)
    then
      var r := t.runs[id].(status := Retrying, nextRetry := Some(nextAt), retryCount := count, lease := None);
      (ProjectRun(SetRow(t, id, r), id), true)
    else (t, false)
  }

  predicate Lapsed(r: Run, at: int) { Live(r.status) && r.lease.Some? && r.lease.value <= at }

  function Expire(t: Table, id: Id, at: int): (Table, bool) {
    if id in t.runs && Lapsed(t.runs[id], at)
    then (ProjectRun(SetRow(t, id, t.runs[id].(status := Lost, finished := Some(at))), id), true)
    else (t, false)
  }

  function LostRequeue(t: Table, id: Id, newId: Id, worker: Option<string>, now: int): (Table, bool) {
    if id in t.runs && t.runs[id].status.Lost? && !InFlightRunOf(t, t.runs[id].job) && newId !in t.runs then
      var r := NewRun(t.runs[id].job, worker, Queued, t.runs[id].lostCount + 1, now, 0);
      (SetJobStatus(SetRow(t, newId, r), r.job, Queued), true)
    else (t, false)
  }

  function RetryRequeue(t: Table, id: Id, count: nat, at: int): (Table, bool) {
    if id in t.runs && t.runs[id].status.Retrying? && t.runs[id].retryCount == count
       && t.runs[id].nextRetry.Some? && t.runs[id].nextRetry.value <= at
    then (SetRow(t, id, t.runs[id].(status := Queued)), true)
    else (t, false)
  }

  predicate Superseded(t: Table, id: Id) requires id in t.runs {
    && (t.runs[id].status.Queued? || t.runs[id].status.Retrying? || t.runs[id].status.Cancelling?)
    && exists a | a in t.runs :: a != id && t.runs[a].job == t.runs[id].job && Active(t.runs[a].status)
  }

  function DropSuperseded(t: Table, now: int): Table {
    t.(runs := map x | x in t.runs ::
         if Superseded(t, x) then t.runs[x].(status := Cancelled, finished := Some(now)) else t.runs[x])
  }

  function ReloadRow(r: Run, job: string, now: int): Run {
    if r.job == job && (r.status.Queued? || r.status.Retrying?)
    then r.(status := Cancelled, finished := Some(now)) else r
  }

  function ReloadCancel(t: Table, job: string, now: int): Table {
    t.(runs := map x | x in t.runs :: ReloadRow(t.runs[x], job, now))
  }

  /** `retry_tick` drops the due retry of a disabled job with `finish_run`. */
  function DropRetry(t: Table, id: Id, now: int): Table {
    if id in t.runs && t.runs[id].status.Retrying?
    then ProjectRun(SetRow(t, id, t.runs[id].(status := Cancelled, finished := Some(now), lease := None)), id)
    else t
  }

  function Purge(t: Table, job: string): Table {
    Table(map x | x in t.runs && t.runs[x].job != job :: t.runs[x],
          map j | j in t.jobs && j != job :: t.jobs[j],
          map x | x in t.logs && !(x in t.runs && t.runs[x].job == job) :: t.logs[x])
  }

  /** The insert checks the fence; the update on conflict checks the job as well. */
  function WriteLog(t: Table, id: Id, worker: string, token: Option<Id>, job: string, text: string,
                    now: int): (Table, bool)
  {
    if id in t.runs && Fence(t.runs[id], worker, token, now) && (id in t.logs ==> t.runs[id].job == job)
    then (t.(logs := t.logs[id := text]), true)
    else (t, false)
  }

  // --- reconcile ---------------------------------------------------------------

  predicate HasStatus(runs: map<Id, Run>, job: string, s: Status) {
    exists x | x in runs :: runs[x].job == job && runs[x].status == s
  }

  /** The in-flight part of the COALESCE, in its order of preference. */
  function InFlightStatus(runs: map<Id, Run>, job: string): Option<Status> {
    if HasStatus(runs, job, Running) then Some(Running)
    else if HasStatus(runs, job, Starting) || HasStatus(runs, job, Syncing) then Some(Syncing)
    else if HasStatus(runs, job, Cancelling) then Some(Cancelling)
    else if HasStatus(runs, job, Queued) then Some(Queued)
    else if HasStatus(runs, job, Retrying) then Some(Retrying)
    else None
  }

  function EndedAt(r: Run): int { if r.finished.Some? then r.finished.value else r.created }

  /** No run of the same job sorts before `id` under
      `ORDER BY COALESCE(finished_at, created_at) DESC, created_at DESC`. */
  predicate TopRow(runs: map<Id, Run>, id: Id) requires id in runs {
    forall y | y in runs && runs[y].job == runs[id].job ::
      || EndedAt(runs[y]) < EndedAt(runs[id])
      || (EndedAt(runs[y]) == EndedAt(runs[id]) && runs[y].created <= runs[id].created)
  }

  /** What `reconcile_stale_job_status` reads of one job: the in-flight status, and the
      statuses of the rows that `LIMIT 1` may return. */
  datatype Evidence = Evidence(inFlight: Option<Status>, last: set<Status>)

  function EvidenceOf(runs: map<Id, Run>, job: string): Evidence {
    Evidence(InFlightStatus(runs, job),
             set x | x in runs && runs[x].job == job && TopRow(runs, x) :: runs[x].status)
  }

  /** The statuses the COALESCE may yield; a job without runs keeps its own. */
  predicate Shows(e: Evidence, was: Status, s: Status) {
    if e.inFlight.Some? then s == e.inFlight.value
    else if e.last != {} then s in e.last
    else s == was
  }

  ghost predicate Reconciled(t: Table, jobs: map<string, Status>) {
    && jobs.Keys == t.jobs.Keys
    && forall j | j in t.jobs :: Shows(EvidenceOf(t.runs, j), t.jobs[j], jobs[j])
  }
}
