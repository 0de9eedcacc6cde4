/** What each statement of the run table leaves behind, told by its rows: which row it touches, when,
    and what is in it afterwards. */
module RunEffects {
  import opened Prelude
  import opened RunTable
  import opened RunProtocol
  import opened RunStore

  const ACTIVE: set<Status> := {Starting, Syncing, Running}
  const LIVE: set<Status> := {Starting, Syncing, Running, Cancelling}
  const IN_FLIGHT: set<Status> := {Queued, Starting, Syncing, Running, Retrying, Cancelling}
  const ENDED: set<Status> := {Success, SuccessWithWarnings, Failed, Cancelled, Lost, Skipped}

  /** The statuses the statements list, among them those of the index `one_active_run_per_job`. */
  lemma StatusSets(s: Status)
    ensures (Active(s) <==> s in ACTIVE) && (Live(s) <==> s in LIVE)
    ensures (InFlight(s) <==> s in IN_FLIGHT) && (Terminal(s) <==> s in ENDED)
  {
  }

  /** No two runs of one job hold the index in any reachable state. */
  lemma OneRunLive(ws: seq<World>, ops: seq<Op>, budget: string -> nat, n: nat, x: Id, y: Id)
    requires Trace(ws, ops, budget) && n < |ws| && x in ws[n].t.runs && y in ws[n].t.runs && x != y
    requires ws[n].t.runs[x].job == ws[n].t.runs[y].job
    ensures ws[n].t.runs[x].status !in LIVE || ws[n].t.runs[y].status !in LIVE
  {
    MutualExclusion(ws, ops, budget, n);
    StatusSets(ws[n].t.runs[x].status);
    StatusSets(ws[n].t.runs[y].status);
  }

  // --- one row ----------------------------------------------------------------------------------

  /** Row `id` is now `r`; no other row and no log has changed. */
  ghost predicate RowIs(t: Table, t2: Table, id: Id, r: Run) {
    t2.logs == t.logs && t2.runs == t.runs[id := r]
  }

  /** Whose row this is: live, with this worker and this token, its lease open. */
  predicate Holds(r: Run, worker: string, token: Option<Id>, now: int) {
    && r.status in LIVE && r.worker == Some(worker)
    && token.Some? && r.token == token && r.lease.Some? && now < r.lease.value
  }

  /** A reported completion is stored if its worker holds the run in that attempt: the run ends
      with the outcome reported, now, and gives up its lease. */
  lemma CompletionStored(w: World, op: Op, w2: World, budget: string -> nat)
    requires Next(w, op, w2, budget) && op.Complete?
    ensures var stored := op.id in w.t.runs && w.t.runs[op.id].retryCount == op.expected
                          && Holds(w.t.runs[op.id], op.holder, op.token, w2.clock);
            && Apply(w.t, op, w2.clock).1 == stored
            && if !stored then w2.t == w.t
               else RowIs(w.t, w2.t, op.id,
                          w.t.runs[op.id].(status := op.outcome, finished := Some(w2.clock), lease := None))
  {
  }

  /** A scheduled retry likewise: the run waits, one attempt further, until the time given. */
  lemma RetryStored(w: World, op: Op, w2: World, budget: string -> nat)
    requires Next(w, op, w2, budget) && op.ScheduleRetry?
    ensures var stored := op.id in w.t.runs && w.t.runs[op.id].retryCount == op.expected
                          && Holds(w.t.runs[op.id], op.holder, op.token, w2.clock);
            && Apply(w.t, op, w2.clock).1 == stored
            && if !stored then w2.t == w.t
               else RowIs(w.t, w2.t, op.id,
                          w.t.runs[op.id].(status := Retrying, nextRetry := Some(op.nextAt),
                                           retryCount := op.expected + 1, lease := None))
  {
  }

  /** The reaper loses a live run whose lease is over at its time, and no other. */
  lemma ExpiryStored(w: World, op: Op, w2: World, budget: string -> nat)
    requires Next(w, op, w2, budget) && op.Reap?
    ensures var over := op.id in w.t.runs && w.t.runs[op.id].status in LIVE
                        && w.t.runs[op.id].lease.Some? && w.t.runs[op.id].lease.value <= op.at;
            && Apply(w.t, op, w2.clock).1 == over
            && if !over then w2.t == w.t
               else RowIs(w.t, w2.t, op.id, w.t.runs[op.id].(status := Lost, finished := Some(op.at)))
  {
  }

  /** A claim gives a queued run of this worker, or of nobody, a token and a lease from now on,
      unless its job has a live run. */
  lemma ClaimStored(w: World, op: Op, w2: World, budget: string -> nat)
    requires Next(w, op, w2, budget) && op.TakeRun?
    ensures var taken := op.id in w.t.runs && w.t.runs[op.id].status == Queued
                         && (w.t.runs[op.id].worker == None || w.t.runs[op.id].worker == Some(op.holder))
                         && forall x | x in w.t.runs && w.t.runs[x].job == w.t.runs[op.id].job ::
                              w.t.runs[x].status !in LIVE;
            && Apply(w.t, op, w2.clock).1 == taken
            && if !taken then w2.t == w.t
               else RowIs(w.t, w2.t, op.id,
                          w.t.runs[op.id].(status := Syncing, worker := Some(op.holder), token := Some(op.newId),
                                           started := Some(w2.clock), lease := Some(w2.clock + RUN_LEASE_SECS)))
  {
    ClaimIff(w.t, op.id, op.holder, op.newId, w2.clock);
    forall s: Status ensures Live(s) <==> s in LIVE { StatusSets(s); }
    hide ClaimGuard, IndexRejects;
  }

  /** A renewal moves the end of the holder's lease to a whole period from now. */
  lemma RenewalStored(w: World, op: Op, w2: World, budget: string -> nat)
    requires Next(w, op, w2, budget) && op.RenewLease?
    ensures var held := op.id in w.t.runs && Holds(w.t.runs[op.id], op.holder, op.token, w2.clock);
            && Apply(w.t, op, w2.clock).1 == held
            && if !held then w2.t == w.t
               else w2.t.jobs == w.t.jobs
                    && RowIs(w.t, w2.t, op.id, w.t.runs[op.id].(lease := Some(w2.clock + RUN_LEASE_SECS)))
  {
  }

  /** So a worker that renews in time holds the run for another period, and nobody else does. */
  lemma RenewalHolds(w: World, op: Op, w2: World, budget: string -> nat, who: string, with: Option<Id>, at: int)
    requires Next(w, op, w2, budget) && op.RenewLease? && Apply(w.t, op, w2.clock).1
    ensures op.id in w2.t.runs
    ensures Fence(w2.t.runs[op.id], who, with, at) <==>
              who == op.holder && with == op.token && at < w2.clock + 300
  {
    RenewalStored(w, op, w2, budget);
  }

  /** The log of a run is the text its holder sent; of an existing log the job must be the run's. */
  lemma LogStored(w: World, op: Op, w2: World, budget: string -> nat)
    requires Next(w, op, w2, budget) && op.Log?
    ensures var stored := op.id in w.t.runs && Holds(w.t.runs[op.id], op.holder, op.token, w2.clock)
                          && (op.id in w.t.logs ==> w.t.runs[op.id].job == op.job);
            && Apply(w.t, op, w2.clock).1 == stored
            && w2.t == if stored then w.t.(logs := w.t.logs[op.id := op.text]) else w.t
  {
  }

  predicate HasActive(runs: map<Id, Run>, job: string) {
    exists x | x in runs :: runs[x].job == job && runs[x].status in ACTIVE
  }

  predicate HasActiveOn(runs: map<Id, Run>, job: string, worker: string) {
    exists x | x in runs :: runs[x].job == job && runs[x].worker == Some(worker) && runs[x].status in ACTIVE
  }

  // --- new rows ------------------------------------------------------------------------------------

  /** A queued run as `create_run` writes it. */
  lemma InsertStored(w: World, op: Op, w2: World, budget: string -> nat)
    requires Inv(w, budget) && Next(w, op, w2, budget) && op.Insert?
    ensures op.id !in w.t.runs
    ensures RowIs(w.t, w2.t, op.id,
                  Run(op.job, op.worker, Queued, 0, 0, None, None, None, w2.clock, None, None, op.priority))
    ensures w2.t.jobs == if op.job in w.t.jobs && !HasActive(w.t.runs, op.job)
                         then w.t.jobs[op.job := Queued] else w.t.jobs
  {
    hide Inv;
    assert op.id !in w.t.runs by { FreshId(w, op, w2, budget, op.id); }
    var t1 := SetRow(w.t, op.id, NewRun(op.job, op.worker, Queued, 0, w2.clock, op.priority));
    if x :| x in w.t.runs && w.t.runs[x].job == op.job && w.t.runs[x].status in ACTIVE {
      assert t1.runs[x] == w.t.runs[x] && ActiveRunOf(t1, op.job);
    }
  }

  lemma FreshId(w: World, op: Op, w2: World, budget: string -> nat, id: Id)
    requires Inv(w, budget) && Next(w, op, w2, budget) && id in NewIds(op)
    ensures id !in w.t.runs
  {
  }

  /** A run skipped for a dependency has ended as it begins. */
  lemma SkipStored(w: World, op: Op, w2: World, budget: string -> nat)
    requires Inv(w, budget) && Next(w, op, w2, budget) && op.InsertSkipped?
    ensures op.id !in w.t.runs
    ensures RowIs(w.t, w2.t, op.id,
                  Run(op.job, None, Skipped, 0, 0, None, None, None, w2.clock, None, Some(w2.clock), 0))
    ensures w2.t.jobs == if op.job in w.t.jobs then w.t.jobs[op.job := Skipped] else w.t.jobs
  {
    hide Inv;
    assert op.id !in w.t.runs by { FreshId(w, op, w2, budget, op.id); }
  }

  /** A lost run is queued anew, its losses counted, if nothing of its job is in flight. */
  lemma RequeueStored(w: World, op: Op, w2: World, budget: string -> nat)
    requires Inv(w, budget) && Next(w, op, w2, budget) && op.Requeue?
    ensures op.newId !in w.t.runs
    ensures var due := op.id in w.t.runs && w.t.runs[op.id].status == Lost
                       && forall x | x in w.t.runs && w.t.runs[x].job == w.t.runs[op.id].job ::
                            w.t.runs[x].status !in IN_FLIGHT;
            && Apply(w.t, op, w2.clock).1 == due
            && if !due then w2.t == w.t
               else var r := w.t.runs[op.id];
                    && RowIs(w.t, w2.t, op.newId,
                             Run(r.job, op.worker, Queued, 0, r.lostCount + 1, None, None, None, w2.clock, None, None,
                                 0))
                    && w2.t.jobs == if r.job in w.t.jobs then w.t.jobs[r.job := Queued] else w.t.jobs
  {
    hide Inv;
    assert op.newId !in w.t.runs by { FreshId(w, op, w2, budget, op.newId); }
  }

  // --- many rows ---------------------------------------------------------------------------------------

  /** Each row is as before or, where `hit`, has become what is said; nothing else has changed. */
  ghost predicate RowsAre(t: Table, t2: Table, hit: Run -> bool, becomes: Run -> Run) {
    && t2.logs == t.logs && t2.runs.Keys == t.runs.Keys
    && forall x | x in t.runs :: t2.runs[x] == if hit(t.runs[x]) then becomes(t.runs[x]) else t.runs[x]
  }

  /** A queued run that nobody has goes to the worker named. */
  lemma AssignStored(w: World, op: Op, w2: World, budget: string -> nat)
    requires Next(w, op, w2, budget) && op.Assign?
    ensures var free := op.id in w.t.runs && w.t.runs[op.id].status == Queued && w.t.runs[op.id].worker == None;
            && Apply(w.t, op, w2.clock).1 == free
            && w2.t == if free then w.t.(runs := w.t.runs[op.id := w.t.runs[op.id].(worker := Some(op.to))]) else w.t
  {
  }

  /** Queued runs of workers that are not online lose them. */
  lemma UnassignStored(w: World, op: Op, w2: World, budget: string -> nat)
    requires Next(w, op, w2, budget) && op.Unassign?
    ensures w2.t.jobs == w.t.jobs
    ensures RowsAre(w.t, w2.t, (r: Run) => r.status == Queued && r.worker.Some? && r.worker.value !in op.online,
                    (r: Run) => r.(worker := None))
  {
  }

  /** A heartbeat makes the runs of the job that its worker has begun RUNNING, and shows that. */
  lemma PromoteStored(w: World, op: Op, w2: World, budget: string -> nat)
    requires Next(w, op, w2, budget) && op.Promote?
    ensures RowsAre(w.t, w2.t,
                    (r: Run) => r.worker == Some(op.holder) && r.job == op.job && r.status in {Starting, Syncing},
                    (r: Run) => r.(status := Running))
    ensures w2.t.jobs == if op.job in w.t.jobs && HasActiveOn(w.t.runs, op.job, op.holder)
                         then w.t.jobs[op.job := Running] else w.t.jobs
  {
  }

  /** An operator's stop asks every active run of the job to end. */
  lemma StopStored(w: World, op: Op, w2: World, budget: string -> nat)
    requires Next(w, op, w2, budget) && op.Stop?
    ensures w2.t.jobs == w.t.jobs
    ensures RowsAre(w.t, w2.t, (r: Run) => r.job == op.job && r.status in ACTIVE, (r: Run) => r.(status := Cancelling))
  {
  }

  /** A retry that is due, in the attempt it was read in, is queued again. */
  lemma RetryDueStored(w: World, op: Op, w2: World, budget: string -> nat)
    requires Next(w, op, w2, budget) && op.RetryDue?
    ensures var due := op.id in w.t.runs && w.t.runs[op.id].status == Retrying
                       && w.t.runs[op.id].retryCount == op.count
                       && w.t.runs[op.id].nextRetry.Some? && w.t.runs[op.id].nextRetry.value <= op.at;
            && Apply(w.t, op, w2.clock).1 == due
            && w2.t == if due then w.t.(runs := w.t.runs[op.id := w.t.runs[op.id].(status := Queued)]) else w.t
  {
  }

  /** Waiting and cancelling runs beside an active run of their job are cancelled. */
  lemma LeftoversStored(w: World, op: Op, w2: World, budget: string -> nat)
    requires Next(w, op, w2, budget) && op.DropLeftovers?
    ensures w2.t.jobs == w.t.jobs && w2.t.logs == w.t.logs && w2.t.runs.Keys == w.t.runs.Keys
    ensures forall x | x in w.t.runs ::
              w2.t.runs[x] == if w.t.runs[x].status in {Queued, Retrying, Cancelling} && BesideActive(w.t.runs, x)
                              then w.t.runs[x].(status := Cancelled, finished := Some(w2.clock)) else w.t.runs[x]
  {
  }

  predicate BesideActive(runs: map<Id, Run>, x: Id) requires x in runs {
    exists a | a in runs :: a != x && runs[a].job == runs[x].job && runs[a].status in ACTIVE
  }

  /** A reload cancels what a job has waiting. */
  lemma ReloadStored(w: World, op: Op, w2: World, budget: string -> nat)
    requires Next(w, op, w2, budget) && op.Reload?
    ensures w2.t.jobs == w.t.jobs
    ensures RowsAre(w.t, w2.t, (r: Run) => r.job == op.job && r.status in {Queued, Retrying},
                    (r: Run) => r.(status := Cancelled, finished := Some(w2.clock)))
  {
  }

  /** The waiting retry of a disabled job is cancelled. */
  lemma DisabledStored(w: World, op: Op, w2: World, budget: string -> nat)
    requires Next(w, op, w2, budget) && op.DropDisabled?
    ensures if op.id in w.t.runs && w.t.runs[op.id].status == Retrying
            then RowIs(w.t, w2.t, op.id,
                       w.t.runs[op.id].(status := Cancelled, finished := Some(w2.clock), lease := None))
            else w2.t == w.t
  {
  }

  /** Forgetting a job takes away its runs, its row and its logs. */
  lemma ForgetStored(w: World, op: Op, w2: World, budget: string -> nat)
    requires Next(w, op, w2, budget) && op.Forget?
    ensures forall x :: x in w2.t.runs <==> x in w.t.runs && w.t.runs[x].job != op.job
    ensures forall x | x in w2.t.runs :: w2.t.runs[x] == w.t.runs[x]
    ensures forall j :: j in w2.t.jobs <==> j in w.t.jobs && j != op.job
    ensures forall j | j in w2.t.jobs :: w2.t.jobs[j] == w.t.jobs[j]
    ensures forall x :: x in w2.t.logs <==> x in w.t.logs && (x in w.t.runs ==> w.t.runs[x].job != op.job)
    ensures forall x | x in w2.t.logs :: w2.t.logs[x] == w.t.logs[x]
  {
  }

  /** A reconciliation touches no run and no log. */
  lemma ReconcileStored(w: World, op: Op, w2: World, budget: string -> nat)
    requires Next(w, op, w2, budget) && op.Reconcile?
    ensures w2.t.runs == w.t.runs && w2.t.logs == w.t.logs && w2.t.jobs.Keys == w.t.jobs.Keys
  {
  }

  // --- jobs.status ------------------------------------------------------------------------------------------

  /** A run that ends or waits for a retry is shown so on its job: the outcome reported, RETRYING, or
      LOST, unless another run of the job is live. */
  lemma EndShown(w: World, op: Op, w2: World, budget: string -> nat)
    requires Next(w, op, w2, budget) && Apply(w.t, op, w2.clock).1
    requires (op.Complete? || op.ScheduleRetry? || op.Reap?) && op.id in w.t.runs
    ensures var job := w.t.runs[op.id].job;
            w2.t.jobs == if job in w.t.jobs && !LiveBeside(w.t.runs, op.id)
                         then w.t.jobs[job := if op.Complete? then op.outcome else if op.Reap? then Lost else Retrying]
                         else w.t.jobs
  {
    assert OtherLive(w.t, w.t.runs[op.id].job, op.id) <==> LiveBeside(w.t.runs, op.id);
    var r2 := if op.Complete? then w.t.runs[op.id].(status := op.outcome, finished := Some(w2.clock), lease := None)
              else if op.Reap? then w.t.runs[op.id].(status := Lost, finished := Some(op.at))
              else w.t.runs[op.id].(status := Retrying, nextRetry := Some(op.nextAt), retryCount := op.count, lease :=
                                    None);
    ShownBeside(w.t, op.id, r2);
  }

  lemma ShownBeside(t: Table, id: Id, r2: Run)
    requires id in t.runs && r2.job == t.runs[id].job
    ensures OtherLive(SetRow(t, id, r2), r2.job, id) <==> OtherLive(t, r2.job, id)
  {
    var t2 := SetRow(t, id, r2);
    forall x | x in t.runs && x != id ensures t2.runs[x] == t.runs[x] {}
  }

  predicate LiveBeside(runs: map<Id, Run>, id: Id) requires id in runs {
    exists x | x in runs :: x != id && runs[x].job == runs[id].job && runs[x].status in LIVE
  }

  /** A claim is shown as SYNCING. */
  lemma ClaimShown(w: World, op: Op, w2: World, budget: string -> nat)
    requires Next(w, op, w2, budget) && op.TakeRun? && Apply(w.t, op, w2.clock).1
    ensures op.id in w.t.runs
    ensures var job := w.t.runs[op.id].job;
            w2.t.jobs == if job in w.t.jobs then w.t.jobs[job := Syncing] else w.t.jobs
  {
  }

  predicate HasRun(runs: map<Id, Run>, job: string, ss: set<Status>) {
    exists x | x in runs :: runs[x].job == job && runs[x].status in ss
  }

  /** A run of the job that none sorts before: by end time, or creation if it has none, then creation. */
  predicate EndedLast(runs: map<Id, Run>, job: string, x: Id) {
    && x in runs && runs[x].job == job
    && forall y | y in runs && runs[y].job == job ::
         var (a, b) := (if runs[x].finished.Some? then runs[x].finished.value else runs[x].created,
                        if runs[y].finished.Some? then runs[y].finished.value else runs[y].created);
         b < a || (b == a && runs[y].created <= runs[x].created)
  }

  /** What a reconciliation shows of a job: what is in flight, in this order, or else how a run
      ended that none ended after; a job without runs keeps its status. */
  lemma ReconcileShows(w: World, op: Op, w2: World, budget: string -> nat, job: string)
    requires Next(w, op, w2, budget) && op.Reconcile? && job in w.t.jobs
    ensures job in w2.t.jobs
    ensures var (runs, s) := (w.t.runs, w2.t.jobs[job]);
            if HasRun(runs, job, {Running}) then s == Running
            else if HasRun(runs, job, {Starting, Syncing}) then s == Syncing
            else if HasRun(runs, job, {Cancelling}) then s == Cancelling
            else if HasRun(runs, job, {Queued}) then s == Queued
            else if HasRun(runs, job, {Retrying}) then s == Retrying
            else if exists x :: x in runs && runs[x].job == job
            then exists x :: EndedLast(runs, job, x) && runs[x].status == s
            else s == w.t.jobs[job]
  {
    var runs, s := w.t.runs, w2.t.jobs[job];
    assert Shows(EvidenceOf(runs, job), w.t.jobs[job], s);
    LatestExists(runs, job);
    InFlightShown(runs, job);
    hide HasRun, InFlightStatus, TopRow, EndedLast, Next;
    if InFlightStatus(runs, job).None? && EvidenceOf(runs, job).last != {} { LastShown(runs, job, s); }
  }

  lemma LastShown(runs: map<Id, Run>, job: string, s: Status)
    requires s in EvidenceOf(runs, job).last
    ensures exists x :: EndedLast(runs, job, x) && runs[x].status == s
  {
    hide InFlightStatus;
    var x :| x in runs && runs[x].job == job && TopRow(runs, x) && runs[x].status == s;
    assert EndedLast(runs, job, x);
  }

  lemma InFlightShown(runs: map<Id, Run>, job: string)
    ensures InFlightStatus(runs, job) ==
            if HasRun(runs, job, {Running}) then Some(Running)
            else if HasRun(runs, job, {Starting, Syncing}) then Some(Syncing)
            else if HasRun(runs, job, {Cancelling}) then Some(Cancelling)
            else if HasRun(runs, job, {Queued}) then Some(Queued)
            else if HasRun(runs, job, {Retrying}) then Some(Retrying)
            else None
  {
    forall s: Status ensures HasStatus(runs, job, s) <==> HasRun(runs, job, {s}) {}
    assert HasStatus(runs, job, Starting) || HasStatus(runs, job, Syncing) <==> HasRun(runs, job, {Starting, Syncing});
  }

  /** A heartbeat's whole list: afterwards the runs it lists are RUNNING, and nothing else differs. */
  lemma {:induction false} HeartbeatStored(t: Table, worker: string, names: seq<string>)
    ensures RowsAre(t, MarkAll(t, worker, names),
                    (r: Run) => r.worker == Some(worker) && r.job in names && r.status in {Starting, Syncing},
                    (r: Run) => r.(status := Running))
    ensures MarkAll(t, worker, names).jobs.Keys == t.jobs.Keys
    ensures forall j | j in t.jobs ::
              MarkAll(t, worker, names).jobs[j] ==
              if j in names && HasActiveOn(t.runs, j, worker) then Running else t.jobs[j]
    decreases |names|
  {
    hide MarkRunning;
    if names != [] {
      var init, last := names[..|names| - 1], names[|names| - 1];
      HeartbeatStored(t, worker, init);
      var t1 := MarkAll(t, worker, init);
      assert names == init + [last];
      PromotedActive(t, t1, worker, init, last);
      OneMarked(t1, worker, last);
    }
  }

  lemma OneMarked(t: Table, worker: string, job: string)
    ensures RowsAre(t, MarkRunning(t, worker, job),
                    (r: Run) => r.worker == Some(worker) && r.job == job && r.status in {Starting, Syncing},
                    (r: Run) => r.(status := Running))
    ensures MarkRunning(t, worker, job).jobs ==
            if job in t.jobs && HasActiveOn(t.runs, job, worker) then t.jobs[job := Running] else t.jobs
  {
  }

  lemma PromotedActive(t: Table, t1: Table, worker: string, init: seq<string>, j: string)
    requires RowsAre(t, t1, (r: Run) => r.worker == Some(worker) && r.job in init && r.status in {Starting, Syncing},
                     (r: Run) => r.(status := Running))
    ensures HasActiveOn(t1.runs, j, worker) <==> HasActiveOn(t.runs, j, worker)
  {
  }

  // --- how runs end ---------------------------------------------------------------------------------------

  /** The statements that end run `id`, with the status and the end time each gives it. */
  predicate Ends(op: Op, now: int, id: Id, s: Status, at: int) {
    match op
    case Complete(x, _, outcome, _, _) => x == id && s == outcome && at == now
    case Reap(x, when) => x == id && s == Lost && at == when
    case DropLeftovers => s == Cancelled && at == now
    case Reload(_) => s == Cancelled && at == now
    case DropDisabled(x) => x == id && s == Cancelled && at == now
    case InsertSkipped(x, _) => x == id && s == Skipped && at == now
    case _ => false
  }

  ghost predicate Ended(t: Table, id: Id) { id in t.runs && t.runs[id].status in ENDED }

  /** A row has an end time exactly if it has ended. */
  predicate EndTimed(r: Run) { r.finished.Some? <==> r.status in ENDED }

  /** What a step makes of a row: one that has ended stays as it is, and one that ends does so by a
      statement that says how. */
  ghost predicate EndsRight(t: Table, op: Op, t2: Table, now: int, id: Id) {
    id in t2.runs && (id in t.runs ==> EndTimed(t.runs[id])) ==>
      && EndTimed(t2.runs[id])
      && (Ended(t, id) ==> t2.runs[id] == t.runs[id])
      && (!Ended(t, id) && Ended(t2, id) ==> Ends(op, now, id, t2.runs[id].status, t2.runs[id].finished.value))
  }

  lemma EndingStep(w: World, op: Op, w2: World, budget: string -> nat, id: Id)
    requires Inv(w, budget) && Next(w, op, w2, budget)
    ensures EndsRight(w.t, op, w2.t, w2.clock, id)
  {
    hide Inv, Next, Apply, EndsRight;
    if op.Insert? || op.InsertSkipped? || op.Requeue? {
      NewEnds(w, op, w2, budget, id);
    } else if op.Unassign? || op.Promote? || op.Stop? || op.Reload? {
      ManyEnd(w, op, w2, budget, id);
    } else if op.DropLeftovers? || op.Forget? {
      SomeEnd(w, op, w2, budget, id);
    } else if op.Complete? || op.ScheduleRetry? || op.Reap? || op.DropDisabled? {
      OneEnds(w, op, w2, budget, id);
    } else {
      NoneEnds(w, op, w2, budget, id);
    }
  }

  lemma NewEnds(w: World, op: Op, w2: World, budget: string -> nat, id: Id)
    requires Inv(w, budget) && Next(w, op, w2, budget) && (op.Insert? || op.InsertSkipped? || op.Requeue?)
    ensures EndsRight(w.t, op, w2.t, w2.clock, id)
  {
    hide Inv, Next, Apply;
    match op
    case Insert(_, _, _, _) => InsertStored(w, op, w2, budget);
    case InsertSkipped(_, _) => SkipStored(w, op, w2, budget);
    case Requeue(_, _, _) => RequeueStored(w, op, w2, budget);
  }

  lemma ManyEnd(w: World, op: Op, w2: World, budget: string -> nat, id: Id)
    requires Next(w, op, w2, budget) && (op.Unassign? || op.Promote? || op.Stop? || op.Reload?)
    ensures EndsRight(w.t, op, w2.t, w2.clock, id)
  {
    hide Next, Apply, HasActiveOn;
    match op
    case Unassign(_) => UnassignStored(w, op, w2, budget);
    case Promote(_, _) => PromoteStored(w, op, w2, budget);
    case Stop(_) => StopStored(w, op, w2, budget);
    case Reload(_) => ReloadStored(w, op, w2, budget);
  }

  lemma SomeEnd(w: World, op: Op, w2: World, budget: string -> nat, id: Id)
    requires Next(w, op, w2, budget) && (op.DropLeftovers? || op.Forget?)
    ensures EndsRight(w.t, op, w2.t, w2.clock, id)
  {
    hide Next, Apply, BesideActive;
    match op
    case DropLeftovers => LeftoversStored(w, op, w2, budget);
    case Forget(_) => ForgetStored(w, op, w2, budget);
  }

  lemma OneEnds(w: World, op: Op, w2: World, budget: string -> nat, id: Id)
    requires Next(w, op, w2, budget) && (op.Complete? || op.ScheduleRetry? || op.Reap? || op.DropDisabled?)
    ensures EndsRight(w.t, op, w2.t, w2.clock, id)
  {
    if op.Complete? { OutcomeEnds(w, op, w2, budget); }
    hide Next, Apply;
    match op
    case Complete(_, _, _, _, _) => CompletionStored(w, op, w2, budget);
    case ScheduleRetry(_, _, _, _, _, _) => RetryStored(w, op, w2, budget);
    case Reap(_, _) => ExpiryStored(w, op, w2, budget);
    case DropDisabled(_) => DisabledStored(w, op, w2, budget);
  }

  lemma OutcomeEnds(w: World, op: Op, w2: World, budget: string -> nat)
    requires Next(w, op, w2, budget) && op.Complete?
    ensures op.outcome in ENDED
  {
    hide Apply;
    StatusSets(op.outcome);
  }

  lemma NoneEnds(w: World, op: Op, w2: World, budget: string -> nat, id: Id)
    requires Next(w, op, w2, budget)
    requires op.Assign? || op.TakeRun? || op.RenewLease? || op.RetryDue? || op.Log? || op.Reconcile?
    ensures EndsRight(w.t, op, w2.t, w2.clock, id)
  {
    hide Next, Apply;
    match op
    case Assign(_, _) => AssignStored(w, op, w2, budget);
    case TakeRun(_, _, _) => ClaimStored(w, op, w2, budget);
    case RenewLease(_, _, _) => RenewalStored(w, op, w2, budget);
    case RetryDue(_, _, _) => RetryDueStored(w, op, w2, budget);
    case Log(_, _, _, _, _) => LogStored(w, op, w2, budget);
    case Reconcile(_) => ReconcileStored(w, op, w2, budget);
  }

  /** In every reachable state exactly the runs that have ended have an end time. */
  lemma {:induction false} EndTimes(ws: seq<World>, ops: seq<Op>, budget: string -> nat, n: nat)
    requires Trace(ws, ops, budget) && n < |ws|
    ensures forall id | id in ws[n].t.runs :: EndTimed(ws[n].t.runs[id])
  {
    hide Next, Inv, Ends, Ended, EndTimed;
    if n > 0 {
      EndTimes(ws, ops, budget, n - 1);
      MutualExclusion(ws, ops, budget, n - 1);
      forall id | id in ws[n].t.runs ensures EndTimed(ws[n].t.runs[id]) {
        EndingStep(ws[n - 1], ops[n - 1], ws[n], budget, id);
      }
    }
  }

  /** A run there is now has not ended and come back. */
  lemma NotEndedBefore(ws: seq<World>, ops: seq<Op>, budget: string -> nat, j: nat, n: nat, id: Id)
    requires Trace(ws, ops, budget) && j < n < |ws| && Ended(ws[j].t, id) && id in ws[n].t.runs
    ensures Ended(ws[n - 1].t, id)
  {
    hide Next;
    StatusSets(ws[j].t.runs[id].status);
    TerminalAbsorbs(ws, ops, budget, j, n - 1, id);
    NotReborn(ws[n - 1], ops[n - 1], ws[n], budget, id);
  }

  lemma NotReborn(w: World, op: Op, w2: World, budget: string -> nat, id: Id)
    requires Next(w, op, w2, budget) && id in w.issued && id in w2.t.runs
    ensures id in w.t.runs
  {
    hide Apply;
    RowEvolves(w, op, w2, budget, id);
  }

  /** In every reachable state a run that has ended carries the outcome and the time of the one
      statement that ended it, and is as that statement left it. */
  lemma {:induction false} EndedByItsStatement(ws: seq<World>, ops: seq<Op>, budget: string -> nat, n: nat, id: Id)
    returns (i: nat)
    requires Trace(ws, ops, budget) && n < |ws| && Ended(ws[n].t, id)
    ensures i < n && ws[n].t.runs[id].finished.Some?
    ensures Ends(ops[i], ws[i + 1].clock, id, ws[n].t.runs[id].status, ws[n].t.runs[id].finished.value)
    ensures forall j: nat | j <= i :: !Ended(ws[j].t, id)
    ensures forall j | i < j <= n :: id in ws[j].t.runs && ws[j].t.runs[id] == ws[n].t.runs[id]
  {
    hide Next, Inv, Ends;
    assert n > 0;
    EndTimes(ws, ops, budget, n - 1);
    MutualExclusion(ws, ops, budget, n - 1);
    EndingStep(ws[n - 1], ops[n - 1], ws[n], budget, id);
    if Ended(ws[n - 1].t, id) {
      i := EndedByItsStatement(ws, ops, budget, n - 1, id);
    } else {
      i := n - 1;
      forall j: nat | j <= i ensures !Ended(ws[j].t, id) {
        if j < i && Ended(ws[j].t, id) { NotEndedBefore(ws, ops, budget, j, n, id); }
      }
    }
  }
}
