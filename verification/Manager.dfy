/** The manager on top of the store: lock-protected dispatch, the hold after worker loss, and
    the reaper pass. */
module Manager {
  import opened Prelude
  import opened RunTable
  import opened RunProtocol

  /** The fields of a job definition that dispatch and the reaper read. */
  datatype JobSpec = JobSpec(enabled: bool, failOnLost: bool, dependsOn: seq<string>)

  // --- run history ----------------------------------------------------------

  /** First under `ORDER BY created_at DESC, id DESC`. */
  predicate IsLatest(t: Table, id: Id) requires id in t.runs {
    forall y | y in t.runs && t.runs[y].job == t.runs[id].job ::
      t.runs[y].created < t.runs[id].created || (t.runs[y].created == t.runs[id].created && y <= id)
  }

  predicate LatestIs(t: Table, job: string, s: Status) {
    exists x | x in t.runs :: t.runs[x].job == job && t.runs[x].status == s && IsLatest(t, x)
  }

  predicate LatestSucceeded(t: Table, job: string) {
    LatestIs(t, job, Success) || LatestIs(t, job, SuccessWithWarnings)
  }

  // --- dispatch ----------------------------------------------------------------

  /** The hold check, made before the per-job lock is taken. */
  predicate MayPass(t: Table, cfg: map<string, JobSpec>, job: string, forced: bool) {
    job in cfg && cfg[job].enabled && (forced || !cfg[job].failOnLost || !LatestIs(t, job, Lost))
  }

  /** Work under way outside any statement: a dispatch that has passed the hold check and read
      some of its dependencies, or a safe stop whose requeue is still to come. */
  datatype Ticket = Dispatching(job: string, forced: bool, read: nat) | Requeueing(id: Id, job: string)

  datatype Site = Site(w: World, pending: map<nat, Ticket>)

  datatype Outcome =
    | UnknownJob | DisabledJob | HistoryUnread | HeldJob | DependencySkip
    | InFlightAlready(run: Id) | QueuedNow | InsertFailed

  /** A table as one step of a dispatch finds it, and whether reading it worked. */
  datatype Sight = Sight(t: Table, legible: bool)

  /** What `dispatch_current` does, given what it saw: one sight at the hold check, one at each
      dependency it read, one under the lock. Others may act between them. A hold that cannot be
      checked ends the dispatch, a dependency that cannot be read has not succeeded, and a failed
      in-flight read finds nothing. */
  ghost predicate Dispatches(seen: seq<Sight>, cfg: map<string, JobSpec>, job: string, forced: bool, newId: Id,
                             worker: Option<string>, now: int, t2: Table, o: Outcome)
  {
    && seen != []
    && if job !in cfg then o == UnknownJob && |seen| == 1 && t2 == seen[0].t
       else if !cfg[job].enabled then o == DisabledJob && |seen| == 1 && t2 == seen[0].t
       else if !forced && cfg[job].failOnLost && !seen[0].legible
       then o == HistoryUnread && |seen| == 1 && t2 == seen[0].t
       else if !MayPass(seen[0].t, cfg, job, forced) then o == HeldJob && |seen| == 1 && t2 == seen[0].t
       else
         var deps, k := cfg[job].dependsOn, |seen| - 2;
         && 0 <= k <= |deps| && (forall i | 0 <= i < k :: SeenSucceeded(seen[i + 1], deps[i]))
         && if k < |deps|
            then && o == DependencySkip && !SeenSucceeded(seen[k + 1], deps[k])
                 && (t2 == CreateSkipped(seen[k + 1].t, newId, job, now) || t2 == seen[k + 1].t)
            else Inserts(seen[k + 1], job, forced, newId, worker, now, t2, o)
  }

  predicate SeenSucceeded(s: Sight, job: string) { s.legible && LatestSucceeded(s.t, job) }

  /** The in-flight check and the insert, under the lock. */
  ghost predicate Inserts(s: Sight, job: string, forced: bool, newId: Id, worker: Option<string>, now: int,
                          t2: Table, o: Outcome)
  {
    if s.legible && InFlightRunOf(s.t, job)
    then && o.InFlightAlready? && o.run in s.t.runs && s.t.runs[o.run].job == job
         && InFlight(s.t.runs[o.run].status) && t2 == s.t
    else if o.QueuedNow? then t2 == CreateRun(s.t, newId, job, worker, Queued, if forced then 1 else 0, now)
    else o == InsertFailed && t2 == s.t
  }

  /** A step of the managed system, between any two of which others may happen. Inserts only come
      from dispatch and from worker loss. A read that fails is `unread`; a hold check or an insert
      that fails is no step, but for the `Abandon` of its dispatch. */
  datatype Step =
    | Plain(op: Op)
    | Begin(n: nat, job: string, forced: bool)
    | DependencyMet(n: nat)
    | DependencyMissed(n: nat, newId: Id, unread: bool)
    | LockedInsert(n: nat, newId: Id, worker: Option<string>, unread: bool)
    | Abandon(n: nat)
    | ReaperRequeue(id: Id, newId: Id, worker: Option<string>)
    | SafeStop(n: nat, id: Id, expected: nat, holder: string, token: Option<Id>)
    | SafeRequeue(n: nat, newId: Id, worker: Option<string>)

  predicate DispatchAt(m: Site, cfg: map<string, JobSpec>, n: nat) {
    n in m.pending && m.pending[n].Dispatching? && m.pending[n].job in cfg
  }

  function Deps(m: Site, cfg: map<string, JobSpec>, n: nat): seq<string>
    requires DispatchAt(m, cfg, n)
  {
    cfg[m.pending[n].job].dependsOn
  }

  predicate NextDependency(m: Site, cfg: map<string, JobSpec>, n: nat, legible: bool, met: bool) {
    && DispatchAt(m, cfg, n) && m.pending[n].read < |Deps(m, cfg, n)|
    && (SeenSucceeded(Sight(m.w.t, legible), Deps(m, cfg, n)[m.pending[n].read]) <==> met)
  }

  /** The statement a step commits, if it commits one. The in-flight check and the insert under
      the per-job lock are one step; a worker that reports its own safe stop is requeued under
      either policy, the reaper requeues under the policy `retry`. */
  function Commits(m: Site, s: Step): Option<Op> {
    match s
    case Plain(op) => Some(op)
    case DependencyMissed(n, newId, _) => if n in m.pending then Some(InsertSkipped(newId, m.pending[n].job)) else None
    case LockedInsert(n, newId, worker, unread) =>
      if n !in m.pending || !m.pending[n].Dispatching? || (!unread && InFlightRunOf(m.w.t, m.pending[n].job)) then None
      else Some(Insert(newId, m.pending[n].job, worker, if m.pending[n].forced then 1 else 0))
    case ReaperRequeue(id, newId, worker) => Some(Requeue(id, newId, worker))
    case SafeStop(_, id, expected, holder, token) => Some(Complete(id, expected, Lost, holder, token))
    case SafeRequeue(n, newId, worker) =>
      if n in m.pending && m.pending[n].Requeueing? then Some(Requeue(m.pending[n].id, newId, worker)) else None
    case _ => None
  }

  predicate Enabled(m: Site, s: Step, cfg: map<string, JobSpec>) {
    match s
    case Plain(op) => !op.Insert? && !op.InsertSkipped? && !op.Requeue?
    case Begin(n, job, forced) => n !in m.pending && MayPass(m.w.t, cfg, job, forced)
    case DependencyMet(n) => NextDependency(m, cfg, n, true, true)
    case DependencyMissed(n, _, unread) => NextDependency(m, cfg, n, !unread, false)
    case LockedInsert(n, _, _, _) => DispatchAt(m, cfg, n) && m.pending[n].read == |Deps(m, cfg, n)|
    case Abandon(n) => n in m.pending
    case ReaperRequeue(id, _, _) =>
      id in m.w.t.runs ==> m.w.t.runs[id].job in cfg && !cfg[m.w.t.runs[id].job].failOnLost
    case SafeStop(n, id, expected, holder, token) =>
      n !in m.pending && holder != "" && id in m.w.t.runs && Live(m.w.t.runs[id].status)
    case SafeRequeue(n, _, _) => n in m.pending && m.pending[n].Requeueing?
  }

  function Pending(m: Site, s: Step): map<nat, Ticket> {
    match s
    case Begin(n, job, forced) => m.pending[n := Dispatching(job, forced, 0)]
    case DependencyMet(n) =>
      if n in m.pending && m.pending[n].Dispatching? then m.pending[n := m.pending[n].(read := m.pending[n].read + 1)]
      else m.pending
    case SafeStop(n, id, _, _, _) =>
      if id in m.w.t.runs then m.pending[n := Requeueing(id, m.w.t.runs[id].job)] else m.pending
    case DependencyMissed(n, _, _) => m.pending - {n}
    case LockedInsert(n, _, _, _) => m.pending - {n}
    case Abandon(n) => m.pending - {n}
    case SafeRequeue(n, _, _) => m.pending - {n}
    case _ => m.pending
  }

  ghost predicate ManagedNext(m: Site, s: Step, m2: Site, cfg: map<string, JobSpec>, budget: string -> nat) {
    && Enabled(m, s, cfg) && m2.pending == Pending(m, s)
    && (match Commits(m, s) case Some(op) => Next(m.w, op, m2.w, budget) case None => m2.w == m.w)
    && (s.SafeStop? ==> Apply(m.w.t, Commits(m, s).value, m2.w.clock).1)
  }

  /** Every managed step is one statement of the free protocol, or none, so each of its theorems
      holds here. */
  lemma ManagedRefines(m: Site, s: Step, m2: Site, cfg: map<string, JobSpec>, budget: string -> nat) returns (op: Op)
    requires ManagedNext(m, s, m2, cfg, budget)
    ensures Next(m.w, op, m2.w, budget)
  {
    hide Next, Enabled, Pending;
    if Commits(m, s).Some? { op := Commits(m, s).value; } else { op := NoOp(m.w, budget); }
  }

  /** A log write without a token changes nothing. */
  lemma NoOp(w: World, budget: string -> nat) returns (op: Op)
    ensures Next(w, op, w, budget)
  {
    op := Log(0, "w", None, "", "");
  }

  // --- one run in flight -----------------------------------------------------------

  ghost predicate OneInFlight(t: Table, job: string) {
    forall x, y | x in t.runs && y in t.runs && x != y && t.runs[x].job == job && t.runs[y].job == job ::
      !(InFlight(t.runs[x].status) && InFlight(t.runs[y].status))
  }

  /** An insert for a job with a run in flight, which a failed in-flight read hid. */
  predicate Doubles(m: Site, s: Step, job: string) {
    && s.LockedInsert? && s.unread && s.n in m.pending && m.pending[s.n].Dispatching?
    && m.pending[s.n].job == job && InFlightRunOf(m.w.t, job)
  }

  /** Without inserts, rows only leave the in-flight statuses; ended rows keep theirs. */
  lemma PlainOnlyEnds(w: World, op: Op, w2: World, budget: string -> nat, x: Id)
    requires Next(w, op, w2, budget) && !op.Insert? && !op.InsertSkipped? && !op.Requeue?
    ensures x in w2.t.runs ==>
              && x in w.t.runs && w2.t.runs[x].job == w.t.runs[x].job && w2.t.runs[x].created == w.t.runs[x].created
              && (InFlight(w2.t.runs[x].status) ==> InFlight(w.t.runs[x].status))
              && (!InFlight(w.t.runs[x].status) ==> w2.t.runs[x].status == w.t.runs[x].status)
    ensures x in w.t.runs && !(op.Forget? && op.job == w.t.runs[x].job) ==> x in w2.t.runs
  {
    if x in w2.t.runs { RowEvolves(w, op, w2, budget, x); }
  }

  lemma RequeueAdds(t: Table, id: Id, newId: Id, worker: Option<string>, now: int)
    ensures var (t2, ok) := LostRequeue(t, id, newId, worker, now);
            if ok then && id in t.runs && newId !in t.runs && !InFlightRunOf(t, t.runs[id].job)
                       && t2.runs.Keys == t.runs.Keys + {newId} && t2.runs[newId].job == t.runs[id].job
                       && t2.runs[newId].status.Queued?
                       && forall x | x in t.runs :: t2.runs[x] == t.runs[x]
            else t2 == t
  {
  }

  predicate RowEnds(r: Run, r2: Run) {
    && r2.job == r.job && r2.created == r.created
    && (InFlight(r2.status) ==> InFlight(r.status))
    && (!InFlight(r.status) ==> r2.status == r.status)
  }

  ghost predicate AloneInFlight(t: Table, x: Id) requires x in t.runs {
    forall y | y in t.runs && y != x && t.runs[y].job == t.runs[x].job :: !InFlight(t.runs[y].status)
  }

  /** Rows that were there only end. */
  ghost predicate RowsEnd(t: Table, t2: Table) {
    forall x | x in t2.runs && x in t.runs :: RowEnds(t.runs[x], t2.runs[x])
  }

  /** The rows of `job` that are new and in flight are its only ones. */
  ghost predicate NewAlone(t: Table, t2: Table, job: string) {
    forall x | x in t2.runs && x !in t.runs && t2.runs[x].job == job && InFlight(t2.runs[x].status) ::
        AloneInFlight(t2, x)
  }

  /** A statement of the managed system only ends rows, or adds one row. */
  lemma OpRowsEnd(w: World, op: Op, w2: World, budget: string -> nat, job: string)
    requires Inv(w, budget) && Next(w, op, w2, budget)
    ensures RowsEnd(w.t, w2.t)
    ensures NewAlone(w.t, w2.t, job) <==> !(op.Insert? && op.job == job && InFlightRunOf(w.t, job))
  {
    hide Inv;
    if op.Insert? || op.InsertSkipped? || op.Requeue? {
      NewIdsNotThere(w, op, w2, budget);
      OpAdds(w.t, op, w2.clock, job);
    } else {
      hide Next;
      forall x | x in w2.t.runs ensures x in w.t.runs && RowEnds(w.t.runs[x], w2.t.runs[x]) {
        PlainOnlyEnds(w, op, w2, budget, x);
      }
    }
  }

  lemma NewIdsNotThere(w: World, op: Op, w2: World, budget: string -> nat)
    requires Inv(w, budget) && Next(w, op, w2, budget)
    ensures forall id | id in NewIds(op) :: id !in w.t.runs
  {
  }

  lemma OpAdds(t: Table, op: Op, now: int, job: string)
    requires op.Insert? || op.InsertSkipped? || op.Requeue?
    requires forall id | id in NewIds(op) :: id !in t.runs
    ensures RowsEnd(t, Apply(t, op, now).0)
    ensures NewAlone(t, Apply(t, op, now).0, job) <==> !(op.Insert? && op.job == job && InFlightRunOf(t, job))
  {
    match op
    case Insert(id, j, worker, priority) => InsertAlone(t, id, j, worker, priority, now, job);
    case InsertSkipped(id, j) => SkipRows(t, id, j, now);
    case Requeue(id, newId, worker) => RequeueAdds(t, id, newId, worker, now);
  }

  lemma InsertAlone(t: Table, id: Id, j: string, worker: Option<string>, priority: int, now: int, job: string)
    requires id !in t.runs
    ensures var t2 := CreateRun(t, id, j, worker, Queued, priority, now);
            && RowsEnd(t, t2) && (NewAlone(t, t2, job) <==> !(j == job && InFlightRunOf(t, job)))
  {
    var t2 := CreateRun(t, id, j, worker, Queued, priority, now);
    assert t2.runs == t.runs[id := NewRun(j, worker, Queued, 0, now, priority)];
    if j == job && InFlightRunOf(t, job) {
      var x :| x in t.runs && t.runs[x].job == job && InFlight(t.runs[x].status);
      assert t2.runs[x] == t.runs[x] && !AloneInFlight(t2, id);
    }
  }

  /** In the managed system rows only end, and a new row in flight is alone in its job unless a
      failed read hid another one. */
  lemma StepRowsEnd(m: Site, s: Step, m2: Site, cfg: map<string, JobSpec>, budget: string -> nat, job: string)
    requires Inv(m.w, budget) && ManagedNext(m, s, m2, cfg, budget)
    ensures RowsEnd(m.w.t, m2.w.t) && (NewAlone(m.w.t, m2.w.t, job) <==> !Doubles(m, s, job))
  {
    hide Next, Inv;
    if Commits(m, s).Some? { OpRowsEnd(m.w, Commits(m, s).value, m2.w, budget, job); }
  }

  lemma SkipRows(t: Table, id: Id, job: string, now: int)
    ensures CreateSkipped(t, id, job, now).runs ==
              if id in t.runs then t.runs
              else t.runs[id := NewRun(job, None, Skipped, 0, now, 0).(finished := Some(now))]
  {
  }

  /** One run in flight is kept for a job by every step but one, and broken by that one: the
      insert after a failed in-flight read of a job that has a run in flight. */
  lemma OneInFlightKept(m: Site, s: Step, m2: Site, cfg: map<string, JobSpec>, budget: string -> nat, job: string)
    requires Inv(m.w, budget) && OneInFlight(m.w.t, job) && ManagedNext(m, s, m2, cfg, budget)
    ensures OneInFlight(m2.w.t, job) <==> !Doubles(m, s, job)
  {
    StepRowsEnd(m, s, m2, cfg, budget, job);
    hide ManagedNext, Inv;
  }

  /** The insert alone: on any table it keeps one run in flight exactly when there was none. */
  lemma BlindInsertIff(t: Table, newId: Id, job: string, worker: Option<string>, priority: nat, now: int)
    requires OneInFlight(t, job) && newId !in t.runs
    ensures OneInFlight(CreateRun(t, newId, job, worker, Queued, priority, now), job) <==> !InFlightRunOf(t, job)
  {
    InsertAlone(t, newId, job, worker, priority, now, job);
    var t2 := CreateRun(t, newId, job, worker, Queued, priority, now);
    assert t2.runs.Keys == t.runs.Keys + {newId};
  }

  // --- hold after worker loss ---------------------------------------------------------

  ghost predicate Held(t: Table, job: string) { LatestIs(t, job, Lost) && !InFlightRunOf(t, job) }

  /** The job has the same runs, each with the same status. */
  ghost predicate SameRuns(t: Table, t2: Table, job: string) {
    && (forall x :: (x in t.runs && t.runs[x].job == job) <==> (x in t2.runs && t2.runs[x].job == job))
    && forall x | x in t.runs && t.runs[x].job == job ::
         t2.runs[x].status == t.runs[x].status && t2.runs[x].created == t.runs[x].created
  }

  lemma SameRunsHeld(t: Table, t2: Table, job: string)
    requires SameRuns(t, t2, job) && Held(t, job)
    ensures Held(t2, job)
  {
    var x :| x in t.runs && t.runs[x].job == job && t.runs[x].status == Lost && IsLatest(t, x);
    assert IsLatest(t2, x);
  }

  /** What a ticket may still add: a scheduled dispatch its row, a safe stop its requeue. */
  predicate UnderWay(m: Site, n: nat, job: string) {
    && n in m.pending && m.pending[n].job == job
    && match m.pending[n]
       case Dispatching(_, forced, _) => !forced
       case Requeueing(id, _) => id in m.w.t.runs
  }

  predicate NoneUnderWay(m: Site, job: string) { forall n | n in m.pending :: !UnderWay(m, n, job) }

  /** Tickets were handed out for configured jobs and for runs that were lost. */
  ghost predicate TicketsOk(m: Site, cfg: map<string, JobSpec>) {
    forall n | n in m.pending ::
      match m.pending[n]
      case Dispatching(job, _, read) => job in cfg && read <= |cfg[job].dependsOn|
      case Requeueing(id, job) =>
        id in m.w.issued && (id in m.w.t.runs ==> m.w.t.runs[id].job == job && m.w.t.runs[id].status.Lost?)
  }

  ghost predicate SiteInv(m: Site, cfg: map<string, JobSpec>, budget: string -> nat) {
    Inv(m.w, budget) && TicketsOk(m, cfg)
  }

  /** What releases a hold: a dispatch an operator forced gets to its insert, or the job is
      forgotten. */
  predicate Releases(m: Site, s: Step, job: string) {
    match s
    case DependencyMissed(n, _, _) =>
      n in m.pending && m.pending[n].Dispatching? && m.pending[n].forced && m.pending[n].job == job
    case LockedInsert(n, _, _, _) =>
      n in m.pending && m.pending[n].Dispatching? && m.pending[n].forced && m.pending[n].job == job
    case Plain(op) => op.Forget? && op.job == job
    case _ => false
  }

  lemma TicketsKept(m: Site, s: Step, m2: Site, cfg: map<string, JobSpec>, budget: string -> nat)
    requires SiteInv(m, cfg, budget) && ManagedNext(m, s, m2, cfg, budget)
    ensures TicketsOk(m2, cfg)
  {
    hide Inv, Next, LatestIs;
    var op := ManagedRefines(m, s, m2, cfg, budget);
    forall n | n in m2.pending && m2.pending[n].Requeueing?
      ensures m2.pending[n].id in m2.w.issued
      ensures m2.pending[n].id in m2.w.t.runs ==>
                m2.w.t.runs[m2.pending[n].id].job == m2.pending[n].job && m2.w.t.runs[m2.pending[n].id].status.Lost?
    {
      var id := m2.pending[n].id;
      if n in m.pending && m.pending[n] == m2.pending[n] {
        LostStays(m.w, op, m2.w, budget, id);
      } else {
        JustLost(m.w, Commits(m, s).value, m2.w, budget);
      }
    }
  }

  lemma LostStays(w: World, op: Op, w2: World, budget: string -> nat, id: Id)
    requires Next(w, op, w2, budget) && id in w.issued && (id in w.t.runs ==> w.t.runs[id].status.Lost?)
    ensures id in w2.issued && (id in w2.t.runs ==>
                                id in w.t.runs && w2.t.runs[id].job == w.t.runs[id].job && w2.t.runs[id].status.Lost?)
  {
    hide Apply;
    if id in w2.t.runs { RowEvolves(w, op, w2, budget, id); }
  }

  lemma JustLost(w: World, op: Op, w2: World, budget: string -> nat)
    requires Inv(w, budget) && Next(w, op, w2, budget) && op.Complete? && op.outcome.Lost? && Apply(w.t, op, w2.clock).1
    ensures op.id in w.t.runs && op.id in w2.issued && w2.t.runs.Keys == w.t.runs.Keys
    ensures w2.t.runs[op.id].job == w.t.runs[op.id].job && w2.t.runs[op.id].status.Lost?
  {
    hide Exclusive;
  }

  lemma SiteInvKept(m: Site, s: Step, m2: Site, cfg: map<string, JobSpec>, budget: string -> nat)
    requires SiteInv(m, cfg, budget) && ManagedNext(m, s, m2, cfg, budget)
    ensures SiteInv(m2, cfg, budget)
  {
    hide Inv, TicketsOk, ManagedNext;
    var op := ManagedRefines(m, s, m2, cfg, budget);
    InvKept(m.w, op, m2.w, budget);
    TicketsKept(m, s, m2, cfg, budget);
  }

  /** The row a statement adds, if any, and none other; only forgetting a job removes rows. */
  lemma OpKeepsRows(w: World, op: Op, w2: World, budget: string -> nat, job: string, x: Id)
    requires Inv(w, budget) && Next(w, op, w2, budget) && !(op.Forget? && op.job == job)
    requires op.Insert? || op.InsertSkipped? ==> op.job != job
    requires op.Requeue? ==> op.id in w.t.runs ==> w.t.runs[op.id].job != job
    ensures x in w.t.runs && w.t.runs[x].job == job <==> x in w2.t.runs && w2.t.runs[x].job == job
  {
    hide Exclusive;
    match op
    case Insert(_, _, _, _) =>
    case InsertSkipped(id, j) => SkipRows(w.t, id, j, w2.clock);
    case Requeue(id, newId, worker) => RequeueAdds(w.t, id, newId, worker, w2.clock);
    case _ =>
      PlainOnlyEnds(w, op, w2, budget, x);
      if x in w.t.runs && x in w2.t.runs { PlainOnlyEnds(w, op, w2, budget, x); }
  }

  lemma HoldKept(m: Site, s: Step, m2: Site, cfg: map<string, JobSpec>, budget: string -> nat, job: string)
    requires SiteInv(m, cfg, budget) && ManagedNext(m, s, m2, cfg, budget)
    requires job in cfg && cfg[job].failOnLost && Held(m.w.t, job) && NoneUnderWay(m, job) && !Releases(m, s, job)
    ensures SameRuns(m.w.t, m2.w.t, job) && Held(m2.w.t, job) && NoneUnderWay(m2, job)
  {
    hide Next, Inv;
    if Commits(m, s).Some? {
      var op := Commits(m, s).value;
      HeldOp(m, s, cfg, job);
      forall x ensures x in m.w.t.runs && m.w.t.runs[x].job == job <==> x in m2.w.t.runs && m2.w.t.runs[x].job == job {
        OpKeepsRows(m.w, op, m2.w, budget, job, x);
      }
    }
    StepRowsEnd(m, s, m2, cfg, budget, job);
    SameRunsNow(m.w.t, m2.w.t, job);
    SameRunsHeld(m.w.t, m2.w.t, job);
    StillNone(m, s, m2, cfg, budget, job);
  }

  /** In a held job, nothing that is enabled adds a row to it or forgets it. */
  lemma HeldOp(m: Site, s: Step, cfg: map<string, JobSpec>, job: string)
    requires TicketsOk(m, cfg) && Enabled(m, s, cfg) && Commits(m, s).Some?
    requires job in cfg && cfg[job].failOnLost && Held(m.w.t, job) && NoneUnderWay(m, job) && !Releases(m, s, job)
    ensures var op := Commits(m, s).value;
            && !(op.Forget? && op.job == job) && (op.Insert? || op.InsertSkipped? ==> op.job != job)
            && (op.Requeue? ==> op.id in m.w.t.runs ==> m.w.t.runs[op.id].job != job)
  {
    hide LatestIs, LatestSucceeded, InFlightRunOf;
    match s
    case DependencyMissed(n, _, _) => assert !UnderWay(m, n, job);
    case LockedInsert(n, _, _, _) => assert !UnderWay(m, n, job);
    case SafeRequeue(n, _, _) => assert !UnderWay(m, n, job);
    case _ =>
  }

  lemma SameRunsNow(t: Table, t2: Table, job: string)
    requires RowsEnd(t, t2) && !InFlightRunOf(t, job)
    requires forall x :: (x in t.runs && t.runs[x].job == job) <==> (x in t2.runs && t2.runs[x].job == job)
    ensures SameRuns(t, t2, job)
  {
  }

  lemma StillNone(m: Site, s: Step, m2: Site, cfg: map<string, JobSpec>, budget: string -> nat, job: string)
    requires TicketsOk(m, cfg) && ManagedNext(m, s, m2, cfg, budget) && SameRuns(m.w.t, m2.w.t, job)
    requires job in cfg && cfg[job].failOnLost && Held(m.w.t, job) && NoneUnderWay(m, job)
    requires Inv(m.w, budget)
    ensures NoneUnderWay(m2, job)
  {
    hide Next, Inv, LatestSucceeded;
    var op := ManagedRefines(m, s, m2, cfg, budget);
    forall n | n in m2.pending ensures !UnderWay(m2, n, job) {
      if n in m.pending {
        assert !UnderWay(m, n, job);
        if m.pending[n].Requeueing? { LostStays(m.w, op, m2.w, budget, m.pending[n].id); }
      } else if s.SafeStop? {
        assert !(m.w.t.runs[s.id].job == job && InFlight(m.w.t.runs[s.id].status));
      }
    }
  }

  lemma SortsAlike(t: Table, t2: Table, y: Id)
    requires t2.runs.Keys == t.runs.Keys && y in t.runs
    requires forall x | x in t.runs :: t2.runs[x].job == t.runs[x].job && t2.runs[x].created == t.runs[x].created
    ensures IsLatest(t2, y) <==> IsLatest(t, y)
  {
  }

  /** When the reaper marks run `x` LOST, the job is held afterwards exactly when no other run of
      it is in flight, and `x` was the newest run or the newest one was already LOST. */
  lemma LossHoldsIff(t: Table, x: Id, at: int)
    requires x in t.runs && Lapsed(t.runs[x], at)
    ensures Held(Expire(t, x, at).0, t.runs[x].job) <==>
            AloneInFlight(t, x) && (IsLatest(t, x) || LatestIs(t, t.runs[x].job, Lost))
  {
    var t2, job := Expire(t, x, at).0, t.runs[x].job;
    assert t2.runs == t.runs[x := t.runs[x].(status := Lost, finished := Some(at))];
    assert InFlightRunOf(t2, job) <==> !AloneInFlight(t, x) by {
      forall y | y in t.runs && y != x ensures t2.runs[y] == t.runs[y] {}
    }
    LossLatestIff(t, t2, x);
  }

  lemma LossLatestIff(t: Table, t2: Table, x: Id)
    requires x in t.runs && t2.runs.Keys == t.runs.Keys && t2.runs[x].status.Lost?
    requires t2.runs[x].job == t.runs[x].job && t2.runs[x].created == t.runs[x].created
    requires forall y | y in t.runs && y != x :: t2.runs[y] == t.runs[y]
    ensures LatestIs(t2, t.runs[x].job, Lost) <==> IsLatest(t, x) || LatestIs(t, t.runs[x].job, Lost)
  {
    var job := t.runs[x].job;
    forall y | y in t.runs ensures IsLatest(t2, y) <==> IsLatest(t, y) { SortsAlike(t, t2, y); }
    if LatestIs(t, job, Lost) {
      var y :| y in t.runs && t.runs[y].job == job && t.runs[y].status == Lost && IsLatest(t, y);
      assert t2.runs[y].status == Lost && IsLatest(t2, y);
    }
  }

  /** The hold can miss a loss: a run created in the same second with a higher id sorts first,
      and the next scheduled dispatch passes and queues a new run. */
  lemma LossWithoutHold()
    ensures var t, cfg := TiedLoss(), TiedConfig();
            && OneInFlight(t, "j") && 1 in t.runs && Lapsed(t.runs[1], 400) && cfg["j"].failOnLost
            && var t2 := Expire(t, 1, 400).0;
               !Held(t2, "j") && MayPass(t2, cfg, "j", false) && !InFlightRunOf(t2, "j")
  {
    var t := TiedLoss();
    TiedLatest();
    LossHoldsIff(t, 1, 400);
    LossLatestIff(t, TiedAfter(), 1);
  }

  function TiedLoss(): Table {
    Table(map[1 := NewRun("j", Some("w"), Running, 0, 100, 0).(token := Some(7), lease := Some(400)),
              2 := NewRun("j", None, Cancelled, 0, 100, 0).(finished := Some(100))], map[], map[])
  }

  function TiedConfig(): map<string, JobSpec> { map["j" := JobSpec(true, true, [])] }

  function TiedAfter(): Table { Expire(TiedLoss(), 1, 400).0 }

  lemma TiedLatest()
    ensures !IsLatest(TiedLoss(), 1) && !LatestIs(TiedLoss(), "j", Lost) && OneInFlight(TiedLoss(), "j")
    ensures TiedAfter().runs == TiedLoss().runs[1 := TiedLoss().runs[1].(status := Lost, finished := Some(400))]
    ensures !InFlightRunOf(TiedAfter(), "j")
  {
    assert 2 in TiedLoss().runs;
  }

  /** A managed run of the system. */
  ghost predicate ManagedTrace(ms: seq<Site>, steps: seq<Step>, cfg: map<string, JobSpec>, budget: string -> nat) {
    Continues(ms, steps, cfg, budget) && ms[0].w.t.runs == map[] && ms[0].pending == map[]
  }

  ghost predicate Continues(ms: seq<Site>, steps: seq<Step>, cfg: map<string, JobSpec>, budget: string -> nat) {
    |ms| == |steps| + 1 && forall i :: 0 <= i < |steps| ==> ManagedNext(ms[i], steps[i], ms[i + 1], cfg, budget)
  }

  ghost predicate NeverReleased(ms: seq<Site>, steps: seq<Step>, job: string)
    requires |ms| == |steps| + 1
  {
    forall i :: 0 <= i < |steps| ==> !Releases(ms[i], steps[i], job)
  }

  ghost predicate NeverDoubled(ms: seq<Site>, steps: seq<Step>, n: nat, job: string)
    requires n <= |steps| <= |ms|
  {
    forall i :: 0 <= i < n ==> !Doubles(ms[i], steps[i], job)
  }

  /** Every reachable state keeps the invariants, and one run in flight for each job of which no
      failed read has hidden a run in flight. */
  lemma {:induction false} ManagedInvariants(ms: seq<Site>, steps: seq<Step>, cfg: map<string, JobSpec>,
                                             budget: string -> nat, n: nat, job: string)
    requires ManagedTrace(ms, steps, cfg, budget) && n < |ms|
    ensures SiteInv(ms[n], cfg, budget) && (NeverDoubled(ms, steps, n, job) ==> OneInFlight(ms[n].w.t, job))
  {
    if n > 0 {
      ManagedInvariants(ms, steps, cfg, budget, n - 1, job);
      SiteInvKept(ms[n - 1], steps[n - 1], ms[n], cfg, budget);
      hide ManagedNext, Doubles, Inv, TicketsOk, OneInFlight;
      if NeverDoubled(ms, steps, n, job) {
        assert NeverDoubled(ms, steps, n - 1, job);
        OneInFlightKept(ms[n - 1], steps[n - 1], ms[n], cfg, budget, job);
      }
    }
  }

  /** A hold without work under way lasts over any continuation that does not release it. */
  lemma {:induction false} HoldPersists(ms: seq<Site>, steps: seq<Step>, cfg: map<string, JobSpec>,
                                        budget: string -> nat, n: nat, job: string)
    requires Continues(ms, steps, cfg, budget) && NeverReleased(ms, steps, job) && n < |ms|
             && SiteInv(ms[0], cfg, budget)
    requires job in cfg && cfg[job].failOnLost && Held(ms[0].w.t, job) && NoneUnderWay(ms[0], job)
    ensures SiteInv(ms[n], cfg, budget) && Held(ms[n].w.t, job) && NoneUnderWay(ms[n], job)
            && SameRuns(ms[0].w.t, ms[n].w.t, job)
  {
    hide SiteInv, Held, NoneUnderWay, ManagedNext;
    if n == 0 {
      SameRunsSelf(ms[0].w.t, job);
    } else {
      HoldPersists(ms, steps, cfg, budget, n - 1, job);
      SiteInvKept(ms[n - 1], steps[n - 1], ms[n], cfg, budget);
      HoldKept(ms[n - 1], steps[n - 1], ms[n], cfg, budget, job);
      SameRunsTrans(ms[0].w.t, ms[n - 1].w.t, ms[n].w.t, job);
    }
  }

  lemma SameRunsSelf(t: Table, job: string)
    ensures SameRuns(t, t, job)
  {
  }

  lemma SameRunsTrans(a: Table, b: Table, c: Table, job: string)
    requires SameRuns(a, b, job) && SameRuns(b, c, job)
    ensures SameRuns(a, c, job)
  {
  }

  /** Some continuation without a release gives the job a row it does not have. */
  ghost predicate CanGain(m: Site, cfg: map<string, JobSpec>, budget: string -> nat, job: string) {
    exists ms: seq<Site>, steps: seq<Step> ::
      && Continues(ms, steps, cfg, budget) && ms[0] == m && NeverReleased(ms, steps, job)
      && GainedRow(m.w.t, ms[|ms| - 1].w.t, job)
  }

  ghost predicate GainedRow(t: Table, t2: Table, job: string) {
    exists x | x in t2.runs :: t2.runs[x].job == job && x !in t.runs
  }

  /** A held job can gain a row without a release exactly when a scheduled dispatch of it has
      passed the hold check and not finished, or a safe stop of one of its runs has still to
      requeue it. */
  lemma HoldBrokenIff(m: Site, cfg: map<string, JobSpec>, budget: string -> nat, job: string)
    requires SiteInv(m, cfg, budget) && job in cfg && cfg[job].failOnLost && Held(m.w.t, job)
    ensures CanGain(m, cfg, budget, job) <==> exists n | n in m.pending :: UnderWay(m, n, job)
  {
    hide SiteInv, Held, ManagedNext, Releases, UnderWay;
    if n :| n in m.pending && UnderWay(m, n, job) {
      Gains(m, cfg, budget, job, n);
    } else {
      forall ms: seq<Site>, steps: seq<Step> | Continues(ms, steps, cfg, budget) && ms[0] == m
          && NeverReleased(ms, steps, job)
        ensures !GainedRow(m.w.t, ms[|ms| - 1].w.t, job)
      {
        HoldPersists(ms, steps, cfg, budget, |ms| - 1, job);
      }
    }
  }

  /** The work under way runs to its insert. */
  lemma {:induction false} Gains(m: Site, cfg: map<string, JobSpec>, budget: string -> nat, job: string, n: nat)
    requires SiteInv(m, cfg, budget) && job in cfg && Held(m.w.t, job) && UnderWay(m, n, job)
    ensures CanGain(m, cfg, budget, job)
    decreases if m.pending[n].Dispatching? then |cfg[job].dependsOn| - m.pending[n].read else 0
  {
    hide Inv, LatestIs;
    var tk, newId := m.pending[n], Unissued(m.w.issued);
    NotThere(m.w, budget, newId);
    if tk.Requeueing? {
      LastStep(m, SafeRequeue(n, newId, None), cfg, budget, job, newId);
    } else if tk.read == |cfg[job].dependsOn| {
      LastStep(m, LockedInsert(n, newId, None, false), cfg, budget, job, newId);
    } else if LatestSucceeded(m.w.t, cfg[job].dependsOn[tk.read]) {
      var m2 := Site(m.w, m.pending[n := tk.(read := tk.read + 1)]);
      Gains(m2, cfg, budget, job, n);
      FirstStep(m, DependencyMet(n), m2, cfg, budget, job);
    } else {
      LastStep(m, DependencyMissed(n, newId, false), cfg, budget, job, newId);
    }
  }

  lemma NotThere(w: World, budget: string -> nat, id: Id)
    requires Inv(w, budget) && id !in w.issued
    ensures id !in w.t.runs
  {
  }

  ghost function Unissued(ids: set<Id>): (id: Id)
    ensures id !in ids
  {
    Above(ids) + 1
  }

  ghost function Above(ids: set<Id>): (id: Id)
    ensures forall x | x in ids :: x <= id
  {
    if ids == {} then 0
    else
      var x :| x in ids;
      var a := Above(ids - {x});
      assert forall y | y in ids :: y == x || y in ids - {x};
      if a < x then x else a
  }

  lemma FirstStep(m: Site, s: Step, m2: Site, cfg: map<string, JobSpec>, budget: string -> nat, job: string)
    requires ManagedNext(m, s, m2, cfg, budget) && !Releases(m, s, job) && m2.w == m.w && CanGain(m2, cfg, budget, job)
    ensures CanGain(m, cfg, budget, job)
  {
    hide ManagedNext, Releases;
    var ms: seq<Site>, steps: seq<Step> :| Continues(ms, steps, cfg, budget) && ms[0] == m2
        && NeverReleased(ms, steps, job)
                     && GainedRow(m2.w.t, ms[|ms| - 1].w.t, job);
    var ms2, steps2 := [m] + ms, [s] + steps;
    forall i | 0 <= i < |steps2|
      ensures ManagedNext(ms2[i], steps2[i], ms2[i + 1], cfg, budget) && !Releases(ms2[i], steps2[i], job) {
      if i > 0 { assert ms2[i] == ms[i - 1] && steps2[i] == steps[i - 1] && ms2[i + 1] == ms[i]; }
    }
    assert Continues(ms2, steps2, cfg, budget) && ms2[|ms2| - 1] == ms[|ms| - 1];
  }

  lemma LastStep(m: Site, s: Step, cfg: map<string, JobSpec>, budget: string -> nat, job: string, newId: Id)
    requires Enabled(m, s, cfg) && !Releases(m, s, job) && !s.SafeStop? && newId !in m.w.issued && newId !in m.w.t.runs
    requires !InFlightRunOf(m.w.t, job)
    requires || Commits(m, s) == Some(InsertSkipped(newId, job))
             || (exists p :: Commits(m, s) == Some(Insert(newId, job, None, p)))
             || (exists id :: Commits(m, s) == Some(Requeue(id, newId, None)) && id in m.w.t.runs
                   && m.w.t.runs[id].job == job && m.w.t.runs[id].status.Lost?)
    ensures CanGain(m, cfg, budget, job)
  {
    hide Enabled, Releases, Pending, Apply, Next;
    var op := Commits(m, s).value;
    var w2 := World(Apply(m.w.t, op, m.w.clock).0, m.w.clock, m.w.issued + NewIds(op));
    var m2 := Site(w2, Pending(m, s));
    NewRowHere(m.w, op, w2, budget, job, newId);
    assert ManagedNext(m, s, m2, cfg, budget);
    assert Continues([m, m2], [s], cfg, budget) && NeverReleased([m, m2], [s], job);
    assert GainedRow(m.w.t, [m, m2][1].w.t, job);
  }

  lemma NewRowHere(w: World, op: Op, w2: World, budget: string -> nat, job: string, newId: Id)
    requires w2 == World(Apply(w.t, op, w.clock).0, w.clock, w.issued + NewIds(op))
    requires newId !in w.issued && newId !in w.t.runs && !InFlightRunOf(w.t, job)
    requires || op == InsertSkipped(newId, job) || (op.Insert? && op.id == newId && op.job == job)
             || (op.Requeue? && op.newId == newId && op.id in w.t.runs && w.t.runs[op.id].job == job
                 && w.t.runs[op.id].status.Lost?)
    ensures Next(w, op, w2, budget) && newId in w2.t.runs && w2.t.runs[newId].job == job
  {
    match op
    case InsertSkipped(_, _) => SkipRows(w.t, newId, job, w.clock);
    case Requeue(id, _, worker) => RequeueAdds(w.t, id, newId, worker, w.clock);
    case Insert(_, _, _, _) =>
  }

  /** Post-loss hold: under the policy `fail`, once the reaper has lost a job's newest run, the
      job is held exactly if no other run of it was in flight, which only a failed read can have
      brought about; and a held job can gain a row without a release exactly when a scheduled
      dispatch of it, or a safe stop's requeue, was already under way at the loss. */
  lemma PostLossHold(ms: seq<Site>, steps: seq<Step>, cfg: map<string, JobSpec>, budget: string -> nat, i: nat, x: Id,
                     at: int)
    requires ManagedTrace(ms, steps, cfg, budget) && i < |steps| && steps[i] == Plain(Reap(x, at))
    requires x in ms[i].w.t.runs && Lapsed(ms[i].w.t.runs[x], at) && IsLatest(ms[i].w.t, x)
    requires ms[i].w.t.runs[x].job in cfg && cfg[ms[i].w.t.runs[x].job].failOnLost
    ensures Held(ms[i + 1].w.t, ms[i].w.t.runs[x].job) <==> AloneInFlight(ms[i].w.t, x)
    ensures NeverDoubled(ms, steps, i, ms[i].w.t.runs[x].job) ==> AloneInFlight(ms[i].w.t, x)
    ensures AloneInFlight(ms[i].w.t, x) ==>
              (CanGain(ms[i + 1], cfg, budget, ms[i].w.t.runs[x].job) <==>
               exists n | n in ms[i].pending :: UnderWay(ms[i], n, ms[i].w.t.runs[x].job))
  {
    hide Inv, TicketsOk, CanGain, Held, ManagedNext;
    var m, m2, job := ms[i], ms[i + 1], ms[i].w.t.runs[x].job;
    ManagedInvariants(ms, steps, cfg, budget, i, job);
    if NeverDoubled(ms, steps, i, job) { AloneIfOne(m.w.t, x); }
    SiteInvKept(m, steps[i], m2, cfg, budget);
    JustReaped(m, x, at, m2, cfg, budget);
    LossHoldsIff(m.w.t, x, at);
    if AloneInFlight(m.w.t, x) {
      HoldBrokenIff(m2, cfg, budget, job);
      assert m2.w.t.runs.Keys == m.w.t.runs.Keys;
      forall n | n in m.pending ensures UnderWay(m2, n, job) <==> UnderWay(m, n, job) {}
    }
  }

  lemma AloneIfOne(t: Table, x: Id)
    requires x in t.runs && InFlight(t.runs[x].status) && OneInFlight(t, t.runs[x].job)
    ensures AloneInFlight(t, x)
  {
  }

  lemma JustReaped(m: Site, x: Id, at: int, m2: Site, cfg: map<string, JobSpec>, budget: string -> nat)
    requires ManagedNext(m, Plain(Reap(x, at)), m2, cfg, budget)
    ensures m2.w.t == Expire(m.w.t, x, at).0 && m2.pending == m.pending
  {
  }

  // --- a dispatch that straddles the loss -----------------------------------------------------

  function Straddled(): Site {
    var r := NewRun("j", Some("w"), Running, 0, 100, 0).(token := Some(7), lease := Some(400));
    Site(World(Table(map[1 := r], map[], map[]), 400, {1, 7}), map[])
  }

  function Checked(): Site { Site(Straddled().w, map[0 := Dispatching("j", false, 0)]) }

  function LostMeanwhile(): Site { Site(Straddled().w.(t := Expire(Straddled().w.t, 1, 400).0), Checked().pending) }

  function Queued8(): Site {
    Site(World(CreateRun(LostMeanwhile().w.t, 8, "j", None, Queued, 0, 400), 400, {1, 7, 8}), map[])
  }

  /** The hold check sees a running run, the reaper loses it, and the locked insert queues a new
      run although the job is held. */
  lemma LossDuringDispatch(budget: string -> nat)
    ensures SiteInv(Straddled(), TiedConfig(), budget)
    ensures ManagedNext(Straddled(), Begin(0, "j", false), Checked(), TiedConfig(), budget)
    ensures ManagedNext(Checked(), Plain(Reap(1, 400)), LostMeanwhile(), TiedConfig(), budget)
    ensures Held(LostMeanwhile().w.t, "j") && TiedConfig()["j"].failOnLost
    ensures ManagedNext(LostMeanwhile(), LockedInsert(0, 8, None, false), Queued8(), TiedConfig(), budget)
    ensures GainedRow(LostMeanwhile().w.t, Queued8().w.t, "j")
  {
    StraddledInv(budget);
    StraddledLoss();
    StraddledBegin(budget);
    StraddledInsert(budget);
    hide SiteInv, ManagedNext, Held, GainedRow;
  }

  lemma StraddledInv(budget: string -> nat)
    ensures SiteInv(Straddled(), TiedConfig(), budget)
  {
  }

  lemma StraddledBegin(budget: string -> nat)
    ensures ManagedNext(Straddled(), Begin(0, "j", false), Checked(), TiedConfig(), budget)
    ensures ManagedNext(Checked(), Plain(Reap(1, 400)), LostMeanwhile(), TiedConfig(), budget)
  {
    StraddledLoss();
    hide LatestIs;
  }

  lemma StraddledInsert(budget: string -> nat)
    ensures ManagedNext(LostMeanwhile(), LockedInsert(0, 8, None, false), Queued8(), TiedConfig(), budget)
    ensures GainedRow(LostMeanwhile().w.t, Queued8().w.t, "j")
  {
    StraddledLoss();
    hide LatestIs, Expire;
    assert map[0 := Dispatching("j", false, 0)] - {0} == map[];
    assert 8 in Queued8().w.t.runs;
  }

  lemma StraddledLoss()
    ensures var t := Straddled().w.t;
            var t2 := Expire(t, 1, 400).0;
            && t2.runs == map[1 := t.runs[1].(status := Lost, finished := Some(400))]
            && !LatestIs(t, "j", Lost) && Held(t2, "j")
  {
    var t := Straddled().w.t;
    var t2 := Expire(t, 1, 400).0;
    assert t2.runs == map[1 := t.runs[1].(status := Lost, finished := Some(400))];
    assert IsLatest(t2, 1);
  }
}
