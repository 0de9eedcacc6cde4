/** The run table as a shared state machine: any worker, stale or not, the
    dispatcher, the reaper and a reload may interleave their statements freely. */
module RunProtocol {
  import opened Prelude
  import opened RunTable

  /** One committed statement and its arguments. */
  datatype Op =
    | Insert(id: Id, job: string, worker: Option<string>, priority: int)
    | InsertSkipped(id: Id, job: string)
    | Assign(id: Id, to: string)
    | Unassign(online: set<string>)
    | TakeRun(id: Id, holder: string, newId: Id)
    | Promote(holder: string, job: string)
    | RenewLease(id: Id, holder: string, token: Option<Id>)
    | Stop(job: string)
    | Complete(id: Id, expected: nat, outcome: Status, holder: string, token: Option<Id>)
    | ScheduleRetry(id: Id, expected: nat, nextAt: int, count: nat, holder: string, token: Option<Id>)
    | Reap(id: Id, at: int)
    | Requeue(id: Id, newId: Id, worker: Option<string>)
    | RetryDue(id: Id, count: nat, at: int)
    | DropLeftovers
    | Reload(job: string)
    | DropDisabled(id: Id)
    | Forget(job: string)
    | Log(id: Id, holder: string, token: Option<Id>, job: string, text: string)
    | Reconcile(statuses: map<string, Status>)

  function Apply(t: Table, op: Op, now: int): (Table, bool) {
    match op
    case Insert(id, job, worker, priority) => (CreateRun(t, id, job, worker, Queued, priority, now), true)
    case InsertSkipped(id, job) => (CreateSkipped(t, id, job, now), true)
    case Assign(id, to) => AssignQueued(t, id, to)
    case Unassign(online) => (UnassignOffline(t, online), true)
    case TakeRun(id, holder, newId) => Claim(t, id, holder, newId, now)
    case Promote(holder, job) => (MarkRunning(t, holder, job), true)
    case RenewLease(id, holder, token) => Renew(t, id, holder, token, now)
    case Stop(job) => (CancelJob(t, job), true)
    case Complete(id, expected, outcome, holder, token) => Finish(t, id, expected, outcome, holder, token, now)
    case ScheduleRetry(id, expected, nextAt, count, holder, token) =>
      Retry(t, id, expected, nextAt, count, holder, token, now)
    case Reap(id, at) => Expire(t, id, at)
    case Requeue(id, newId, worker) => LostRequeue(t, id, newId, worker, now)
    case RetryDue(id, count, at) => RetryRequeue(t, id, count, at)
    case DropLeftovers => (DropSuperseded(t, now), true)
    case Reload(job) => (ReloadCancel(t, job, now), true)
    case DropDisabled(id) => (DropRetry(t, id, now), true)
    case Forget(job) => (Purge(t, job), true)
    case Log(id, holder, token, job, text) => WriteLog(t, id, holder, token, job, text, now)
    case Reconcile(statuses) => (t.(jobs := statuses), true)
  }

  function NewIds(op: Op): set<Id> {
    match op
    case Insert(id, _, _, _) => {id}
    case InsertSkipped(id, _) => {id}
    case TakeRun(_, _, newId) => {newId}
    case Requeue(_, newId, _) => {newId}
    case _ => {}
  }

  predicate Fenced(op: Op) { op.RenewLease? || op.Complete? || op.ScheduleRetry? || op.Log? }

  datatype World = World(t: Table, clock: int, issued: set<Id>)

  /** Calls the program can make: `RunId::new` never repeats, a fenced call names
      its worker, a retry follows `retry_decision`, the reaper's clock reading is not in
      the future. Tokens, run ids, workers and attempts are otherwise arbitrary. */
  ghost predicate Callable(w: World, op: Op, now: int, budget: string -> nat) {
    && NewIds(op) !! w.issued
    && (op.TakeRun? || Fenced(op) ==> op.holder != "")
    && (op.Complete? ==> Terminal(op.outcome))
    && (op.ScheduleRetry? ==>
          && op.count == op.expected + 1
          && (op.id in w.t.runs ==> op.expected < budget(w.t.runs[op.id].job)))
    && (op.Reap? ==> op.at <= now)
    && (op.Reconcile? ==> Reconciled(w.t, op.statuses))
  }

  ghost predicate Next(w: World, op: Op, w2: World, budget: string -> nat) {
    && w.clock <= w2.clock
    && Callable(w, op, w2.clock, budget)
    && w2.t == Apply(w.t, op, w2.clock).0
    && w2.issued == w.issued + NewIds(op)
  }

  // --- what one statement may do to one row ------------------------------------

  predicate Legal(s: Status, s2: Status) {
    || ((s.Starting? || s.Syncing?) && s2.Running?)
    || (Active(s) && s2.Cancelling?)
    || (Live(s) && Terminal(s2))
    || (s.Retrying? && s2.Queued?)
    || ((s.Queued? || s.Retrying?) && s2.Cancelled?)
  }

  /** A lease is left as it was, or pushed forward while it is still open. */
  predicate LeaseKept(r: Run, r2: Run, now: int) {
    && r2.worker == r.worker
    && (r2.lease == r.lease || (r.lease.Some? && r.lease.value > now && r2.lease == Some(now + RUN_LEASE_SECS)))
  }

  predicate ClaimStep(r: Run, r2: Run, holder: string, token: Id, now: int) {
    && r.status.Queued? && r2.status.Syncing?
    && r2.job == r.job && r2.created == r.created && r2.retryCount == r.retryCount
    && r2.worker == Some(holder) && r2.token == Some(token) && r2.lease == Some(now + RUN_LEASE_SECS)
  }

  predicate RowStep(r: Run, r2: Run, now: int, budget: nat) {
    && r2.job == r.job && r2.created == r.created && r2.token == r.token
    && (Live(r2.status) ==> Live(r.status) && LeaseKept(r, r2, now))
    && (if r2.status == r.status then r2.retryCount == r.retryCount
        else if r2.status.Retrying? then Live(r.status) && r2.retryCount == r.retryCount + 1 <= budget
        else Legal(r.status, r2.status) && r2.retryCount == r.retryCount)
  }

  predicate Newborn(r: Run) {
    (r.status.Queued? || r.status.Skipped?) && r.token.None? && r.retryCount == 0
  }

  /** What `op` may have done to row `id` between `t` and `t2`. */
  ghost predicate RowOutcome(t: Table, op: Op, t2: Table, now: int, budget: string -> nat, id: Id)
    requires id in t2.runs
  {
    if id !in t.runs then Newborn(t2.runs[id]) && id in NewIds(op)
    else if op.TakeRun? && op.id == id && t2.runs[id] != t.runs[id]
    then ClaimStep(t.runs[id], t2.runs[id], op.holder, op.newId, now) && !OtherLive(t, t.runs[id].job, id)
    else RowStep(t.runs[id], t2.runs[id], now, budget(t.runs[id].job))
  }

  lemma RowEvolves(w: World, op: Op, w2: World, budget: string -> nat, id: Id)
    requires Next(w, op, w2, budget) && id in w2.t.runs
    ensures RowOutcome(w.t, op, w2.t, w2.clock, budget, id)
  {
    hide ClaimStep;
    var t, now := w.t, w2.clock;
    match op
    case Insert(_, _, _, _) => NewRow(t, op, now, id);
    case InsertSkipped(_, _) => NewRow(t, op, now, id);
    case Assign(x, to) => AssignRow(t, x, to, now, budget, id);
    case Unassign(_) => BulkRow(t, op, now, budget, id);
    case TakeRun(x, holder, newId) => ClaimRow(t, x, holder, newId, now, budget, id);
    case Promote(_, _) => BulkRow(t, op, now, budget, id);
    case RenewLease(x, holder, token) => RenewRow(t, x, holder, token, now, budget, id);
    case Stop(_) => BulkRow(t, op, now, budget, id);
    case Complete(x, e, o, holder, token) => FinishRow(t, x, e, o, holder, token, now, budget, id);
    case ScheduleRetry(x, e, a, c, holder, token) => RetryRow(t, x, e, a, holder, token, now, budget, id);
    case Reap(x, at) => ExpireRow(t, x, at, now, budget, id);
    case Requeue(_, _, _) => NewRow(t, op, now, id);
    case RetryDue(x, c, at) => RequeueRow(t, x, c, at, now, budget, id);
    case DropLeftovers => BulkRow(t, op, now, budget, id);
    case Reload(_) => BulkRow(t, op, now, budget, id);
    case DropDisabled(x) => DropRow(t, x, now, budget, id);
    case Forget(_) => BulkRow(t, op, now, budget, id);
    case Log(_, _, _, _, _) =>
    case Reconcile(_) =>
  }

  /** Inserts leave the rows they find and add a row without a token. */
  lemma NewRow(t: Table, op: Op, now: int, id: Id)
    requires op.Insert? || op.InsertSkipped? || op.Requeue?
    requires id in Apply(t, op, now).0.runs
    ensures id in t.runs ==> Apply(t, op, now).0.runs[id] == t.runs[id]
    ensures id !in t.runs ==> Newborn(Apply(t, op, now).0.runs[id]) && id in NewIds(op)
  {
  }

  /** The statements without a row id change rows one by one. */
  lemma BulkRow(t: Table, op: Op, now: int, budget: string -> nat, id: Id)
    requires op.Unassign? || op.Promote? || op.Stop? || op.DropLeftovers? || op.Reload? || op.Forget?
    requires id in Apply(t, op, now).0.runs
    ensures id in t.runs && RowStep(t.runs[id], Apply(t, op, now).0.runs[id], now, budget(t.runs[id].job))
  {
    var r2 := Apply(t, op, now).0.runs[id];
    match op
    case Unassign(online) => assert r2 == UnassignRow(t.runs[id], online);
    case Promote(holder, job) => assert r2 == PromoteRow(t.runs[id], holder, job);
    case Stop(job) => assert r2 == CancelRow(t.runs[id], job);
    case Reload(job) => assert r2 == ReloadRow(t.runs[id], job, now);
    case _ =>
  }

  lemma AssignRow(t: Table, x: Id, to: string, now: int, budget: string -> nat, id: Id)
    requires id in t.runs
    ensures RowStep(t.runs[id], AssignQueued(t, x, to).0.runs[id], now, budget(t.runs[id].job))
  {
  }

  lemma ClaimRow(t: Table, x: Id, holder: string, token: Id, now: int, budget: string -> nat, id: Id)
    requires id in t.runs
    ensures var t2 := Claim(t, x, holder, token, now).0;
            if id == x && t2.runs[id] != t.runs[id]
            then ClaimStep(t.runs[id], t2.runs[id], holder, token, now) && !OtherLive(t, t.runs[id].job, id)
            else RowStep(t.runs[id], t2.runs[id], now, budget(t.runs[id].job))
  {
  }

  lemma RenewRow(t: Table, x: Id, holder: string, token: Option<Id>, now: int, budget: string -> nat, id: Id)
    requires id in t.runs
    ensures RowStep(t.runs[id], Renew(t, x, holder, token, now).0.runs[id], now, budget(t.runs[id].job))
  {
  }

  lemma FinishRow(t: Table, x: Id, e: nat, s: Status, holder: string, token: Option<Id>, now: int,
                  budget: string -> nat, id: Id)
    requires id in t.runs && Terminal(s)
    ensures RowStep(t.runs[id], Finish(t, x, e, s, holder, token, now).0.runs[id], now, budget(t.runs[id].job))
  {
  }

  lemma RetryRow(t: Table, x: Id, e: nat, at: int, holder: string, token: Option<Id>, now: int, budget: string -> nat,
                 id: Id)
    requires id in t.runs && (x in t.runs ==> e < budget(t.runs[x].job))
    ensures RowStep(t.runs[id], Retry(t, x, e, at, e + 1, holder, token, now).0.runs[id], now, budget(t.runs[id].job))
  {
  }

  lemma ExpireRow(t: Table, x: Id, at: int, now: int, budget: string -> nat, id: Id)
    requires id in t.runs
    ensures RowStep(t.runs[id], Expire(t, x, at).0.runs[id], now, budget(t.runs[id].job))
  {
  }

  lemma RequeueRow(t: Table, x: Id, count: nat, at: int, now: int, budget: string -> nat, id: Id)
    requires id in t.runs
    ensures RowStep(t.runs[id], RetryRequeue(t, x, count, at).0.runs[id], now, budget(t.runs[id].job))
  {
  }

  lemma DropRow(t: Table, x: Id, now: int, budget: string -> nat, id: Id)
    requires id in t.runs
    ensures RowStep(t.runs[id], DropRetry(t, x, now).runs[id], now, budget(t.runs[id].job))
  {
  }

  // --- invariant of every reachable state ----------------------------------------

  ghost predicate Inv(w: World, budget: string -> nat) {
    && (forall x | x in w.t.runs :: x in w.issued)
    && (forall x | x in w.t.runs && w.t.runs[x].token.Some? :: w.t.runs[x].token.value in w.issued)
    && (forall x, y | x in w.t.runs && y in w.t.runs && x != y && w.t.runs[x].token.Some? ::
          w.t.runs[x].token != w.t.runs[y].token)
    && (forall x | x in w.t.runs && Live(w.t.runs[x].status) ::
          && w.t.runs[x].token.Some? && w.t.runs[x].lease.Some?
          && w.t.runs[x].worker.Some? && w.t.runs[x].worker.value != "")
    && (forall x | x in w.t.runs :: w.t.runs[x].retryCount <= budget(w.t.runs[x].job))
    && Exclusive(w.t)
  }

  /** At most one run of a job holds it: what the unique index promises. */
  ghost predicate Exclusive(t: Table) {
    forall x, y | x in t.runs && y in t.runs && x != y && t.runs[x].job == t.runs[y].job ::
      !(Live(t.runs[x].status) && Live(t.runs[y].status))
  }

  lemma InvKept(w: World, op: Op, w2: World, budget: string -> nat)
    requires Inv(w, budget) && Next(w, op, w2, budget)
    ensures Inv(w2, budget)
  {
    hide Apply;
    forall x | x in w2.t.runs
      ensures x in w2.issued
      ensures w2.t.runs[x].token.Some? ==> w2.t.runs[x].token.value in w2.issued
      ensures Live(w2.t.runs[x].status) ==>
                && w2.t.runs[x].token.Some? && w2.t.runs[x].lease.Some?
                && w2.t.runs[x].worker.Some? && w2.t.runs[x].worker.value != ""
      ensures w2.t.runs[x].retryCount <= budget(w2.t.runs[x].job)
    {
      RowEvolves(w, op, w2, budget, x);
    }
    forall x, y | x in w2.t.runs && y in w2.t.runs && x != y
      ensures w2.t.runs[x].token.Some? ==> w2.t.runs[x].token != w2.t.runs[y].token
      ensures w2.t.runs[x].job == w2.t.runs[y].job ==> !(Live(w2.t.runs[x].status) && Live(w2.t.runs[y].status))
    {
      RowEvolves(w, op, w2, budget, x);
      RowEvolves(w, op, w2, budget, y);
    }
  }

  // --- every reachable state --------------------------------------------------------

  /** A run of the program from an empty table. */
  ghost predicate Trace(ws: seq<World>, ops: seq<Op>, budget: string -> nat) {
    && |ws| == |ops| + 1
    && ws[0].t.runs == map[]
    && forall i :: 0 <= i < |ops| ==> Next(ws[i], ops[i], ws[i + 1], budget)
  }

  /** Mutual exclusion: whatever was inserted and however calls interleave, no two runs of
      one job are live together. CANCELLING counts as live. */
  lemma {:induction false} MutualExclusion(ws: seq<World>, ops: seq<Op>, budget: string -> nat, n: nat)
    requires Trace(ws, ops, budget) && n < |ws|
    ensures Inv(ws[n], budget) && Exclusive(ws[n].t)
  {
    if n > 0 {
      MutualExclusion(ws, ops, budget, n - 1);
      InvKept(ws[n - 1], ops[n - 1], ws[n], budget);
    }
  }

  /** A claim succeeds exactly when the run waits for this worker and nothing of its job is
      live: the statement's own guard leaves CANCELLING to the index. */
  lemma ClaimIff(t: Table, id: Id, worker: string, token: Id, now: int)
    ensures Claim(t, id, worker, token, now).1 <==>
              && id in t.runs && t.runs[id].status.Queued?
              && (t.runs[id].worker.None? || t.runs[id].worker.value == worker)
              && forall x | x in t.runs && t.runs[x].job == t.runs[id].job :: !Live(t.runs[x].status)
  {
  }

  /** The winner of a claim, and nobody else, passes the fence, for one lease period. */
  lemma ClaimGrantsLease(t: Table, id: Id, worker: string, token: Id, now: int, who: string, with: Option<Id>, at: int)
    requires Claim(t, id, worker, token, now).1
    ensures Fence(Claim(t, id, worker, token, now).0.runs[id], who, with, at)
            <==> who == worker && with == Some(token) && at < now + RUN_LEASE_SECS
  {
  }

  // --- stale holders ------------------------------------------------------------------

  ghost predicate HeldLive(t: Table, token: Id) {
    exists x | x in t.runs :: t.runs[x].token == Some(token) && Live(t.runs[x].status)
  }

  ghost predicate Usable(t: Table, token: Id, now: int) {
    exists x | x in t.runs ::
      t.runs[x].token == Some(token) && Live(t.runs[x].status) && t.runs[x].lease.Some? && t.runs[x].lease.value > now
  }

  lemma DeadStaysDead(w: World, op: Op, w2: World, budget: string -> nat, token: Id)
    requires Next(w, op, w2, budget) && token in w.issued
    ensures !HeldLive(w.t, token) ==> !HeldLive(w2.t, token)
    ensures !Usable(w.t, token, w.clock) ==> !Usable(w2.t, token, w2.clock)
    ensures token in w2.issued
  {
    forall x | x in w2.t.runs && w2.t.runs[x].token == Some(token) && Live(w2.t.runs[x].status)
      ensures HeldLive(w.t, token)
      ensures w2.t.runs[x].lease.Some? && w2.t.runs[x].lease.value > w2.clock ==> Usable(w.t, token, w.clock)
    {
      RowEvolves(w, op, w2, budget, x);
    }
  }

  lemma StaleCallRefused(w: World, op: Op, now: int, budget: string -> nat)
    requires Callable(w, op, now, budget) && Fenced(op)
    requires op.token.None? || !Usable(w.t, op.token.value, now)
    ensures Apply(w.t, op, now) == (w.t, false)
  {
  }

  lemma {:induction false} DeadForever(ws: seq<World>, ops: seq<Op>, budget: string -> nat, i: nat, j: nat, token: Id)
    requires Trace(ws, ops, budget) && i <= j < |ws| && token in ws[i].issued
    ensures token in ws[j].issued
    ensures !HeldLive(ws[i].t, token) ==> !HeldLive(ws[j].t, token)
    ensures !Usable(ws[i].t, token, ws[i].clock) ==> !Usable(ws[j].t, token, ws[j].clock)
    decreases j
  {
    if i < j {
      DeadForever(ws, ops, budget, i, j - 1, token);
      DeadStaysDead(ws[j - 1], ops[j - 1], ws[j], budget, token);
    }
  }

  /** Stale-holder safety: once a token's claim is over, or its lease has lapsed even though
      the reaper has not run, no renewal, completion, retry or log write with that token is
      ever applied again. */
  lemma StaleHolderSafety(ws: seq<World>, ops: seq<Op>, budget: string -> nat, i: nat, j: nat, token: Id)
    requires Trace(ws, ops, budget) && i <= j < |ops|
    requires token in ws[i].issued && !Usable(ws[i].t, token, ws[i].clock)
    requires Fenced(ops[j]) && ops[j].token == Some(token)
    ensures !Apply(ws[j].t, ops[j], ws[j + 1].clock).1
    ensures ws[j + 1].t == ws[j].t
  {
    DeadForever(ws, ops, budget, i, j, token);
    StaleCallRefused(ws[j], ops[j], ws[j + 1].clock, budget);
  }

  ghost predicate EndsClaim(t: Table, t2: Table, token: Id) { HeldLive(t, token) && !HeldLive(t2, token) }

  /** Each claim ends at most once, by whichever of finish, retry, expiry, supersession or
      purge comes first. */
  lemma ClaimEndsOnce(ws: seq<World>, ops: seq<Op>, budget: string -> nat, i: nat, j: nat, token: Id)
    requires Trace(ws, ops, budget) && i < j < |ops|
    ensures !(EndsClaim(ws[i].t, ws[i + 1].t, token) && EndsClaim(ws[j].t, ws[j + 1].t, token))
  {
    assert |ws| == |ops| + 1;
    hide Next, Inv, Exclusive, HeldLive, Usable, Trace;
    if EndsClaim(ws[i].t, ws[i + 1].t, token) {
      MutualExclusion(ws, ops, budget, i);
      HeldIssued(ws[i], budget, token);
      DeadForever(ws, ops, budget, i, i + 1, token);
      DeadForever(ws, ops, budget, i + 1, j, token);
    }
  }

  lemma HeldIssued(w: World, budget: string -> nat, token: Id)
    requires Inv(w, budget) && HeldLive(w.t, token)
    ensures token in w.issued
  {
  }

  /** The fence protects exactly the calls that name a worker: with the empty name, which the
      code uses for "no fence", a live run is finished whatever token is presented. */
  lemma FenceNeedsWorkerName(worker: string)
    ensures worker != "" <==>
      forall t: Table, id: Id, e: nat, s: Status, token: Option<Id>, now: int ::
        Finish(t, id, e, s, worker, token, now).1 ==> Fence(t.runs[id], worker, token, now)
  {
    if worker == "" {
      var r := NewRun("job", Some("w"), Running, 0, 0, 0).(token := Some(1), lease := Some(RUN_LEASE_SECS));
      var t := Table(map[0 := r], map[], map[]);
      assert Finish(t, 0, 0, Success, "", None, 0).1 && !Fence(t.runs[0], "", None, 0);
    }
  }

  // --- the reaper among the others ------------------------------------------------------------

  /** What the reaper asks for: live runs of remote workers whose lease has run out. */
  function Overdue(t: Table, at: int): set<Id> {
    set x | x in t.runs && t.runs[x].worker.Some? && t.runs[x].worker.value != "local" && Lapsed(t.runs[x], at)
  }

  /** A lease that had run out is never put right again, and no run joins those with one. */
  lemma OverdueBefore(w: World, op: Op, w2: World, budget: string -> nat, at: int, x: Id)
    requires Next(w, op, w2, budget) && at <= w.clock && x in Overdue(w2.t, at)
    ensures x in Overdue(w.t, at) && op != Reap(x, at)
  {
    RowEvolves(w, op, w2, budget, x);
  }

  lemma {:induction false} OverdueThroughout(ws: seq<World>, ops: seq<Op>, budget: string -> nat, at: int,
                                             i: nat, j: nat, x: Id)
    requires Trace(ws, ops, budget) && i <= j < |ws| && at <= ws[i].clock && x in Overdue(ws[j].t, at)
    ensures x in Overdue(ws[i].t, at) && forall k | i <= k < j :: ops[k] != Reap(x, at)
    decreases j
  {
    hide Next, Overdue;
    if i < j {
      ClockRuns(ws, ops, budget, i, j - 1);
      OverdueBefore(ws[j - 1], ops[j - 1], ws[j], budget, at, x);
      OverdueThroughout(ws, ops, budget, at, i, j - 1, x);
    }
  }

  lemma {:induction false} ClockRuns(ws: seq<World>, ops: seq<Op>, budget: string -> nat, i: nat, j: nat)
    requires Trace(ws, ops, budget) && i <= j < |ws|
    ensures ws[i].clock <= ws[j].clock
    decreases j
  {
    hide Apply, Callable;
    if i < j { ClockRuns(ws, ops, budget, i, j - 1); }
  }

  /** The reaper asks once for the remote runs whose lease has run out, and then expires them one
      by one. Whatever others do in between, afterwards no remote run is left whose lease had run
      out by the time it asked about. */
  lemma ReapedAmongOthers(ws: seq<World>, ops: seq<Op>, budget: string -> nat, at: int, i: nat, j: nat)
    requires Trace(ws, ops, budget) && i <= j < |ws| && at <= ws[i].clock
    requires forall x | x in Overdue(ws[i].t, at) :: exists k | i <= k < j :: ops[k] == Reap(x, at)
    ensures Overdue(ws[j].t, at) == {}
  {
    hide Overdue, Next;
    if x :| x in Overdue(ws[j].t, at) { OverdueThroughout(ws, ops, budget, at, i, j, x); }
  }

  // --- superseded runs --------------------------------------------------------------------

  /** After `drop_superseded_runs`, a job with an executing run has no other run in flight,
      and no live claim was taken from its holder. */
  lemma DropLeavesOne(w: World, budget: string -> nat, now: int, x: Id, y: Id)
    requires Inv(w, budget) && x in w.t.runs && y in w.t.runs && x != y && w.t.runs[x].job == w.t.runs[y].job
    ensures var t2 := DropSuperseded(w.t, now);
            && (Active(t2.runs[x].status) ==> !InFlight(t2.runs[y].status))
            && (Live(w.t.runs[x].status) ==> t2.runs[x] == w.t.runs[x])
  {
  }

  // --- termination of one run ----------------------------------------------------------------

  function Phase(s: Status): nat {
    match s
    case Retrying => 5
    case Queued => 4
    case Starting => 3
    case Syncing => 3
    case Running => 2
    case Cancelling => 1
    case _ => 0
  }

  /** Retries left, then phase, as one number. */
  function Fuel(r: Run, budget: nat): int { 5 * (budget - r.retryCount) + Phase(r.status) }

  lemma FuelBurns(r: Run, r2: Run, holder: string, token: Id, now: int, budget: nat)
    requires RowStep(r, r2, now, budget) || ClaimStep(r, r2, holder, token, now)
    ensures if r2.status == r.status then Fuel(r2, budget) == Fuel(r, budget) else Fuel(r2, budget) < Fuel(r, budget)
    ensures Terminal(r.status) ==> r2.status == r.status
  {
  }

  /** How often the status of run `id` changed during the first `n` steps. */
  ghost function Changes(ws: seq<World>, n: nat, id: Id): nat
    requires n < |ws|
  {
    if n == 0 then 0
    else Changes(ws, n - 1, id) +
         if id in ws[n - 1].t.runs && id in ws[n].t.runs && ws[n - 1].t.runs[id].status != ws[n].t.runs[id].status
             then 1 else 0
  }

  lemma {:induction false} UnissuedUnchanged(ws: seq<World>, ops: seq<Op>, budget: string -> nat, n: nat, id: Id)
    requires Trace(ws, ops, budget) && n < |ws| && id !in ws[n].issued
    ensures Changes(ws, n, id) == 0
  {
    if n > 0 {
      MutualExclusion(ws, ops, budget, n);
      UnissuedUnchanged(ws, ops, budget, n - 1, id);
    }
  }

  /** A run whose job never retries more than `budget` times changes status at most
      5 * budget + 4 times, and spends fuel at each change. */
  lemma {:induction false} RunTerminates(ws: seq<World>, ops: seq<Op>, budget: string -> nat, n: nat, id: Id)
    requires Trace(ws, ops, budget) && n < |ws| && id in ws[n].t.runs
    ensures var r := ws[n].t.runs[id];
            && Changes(ws, n, id) + Fuel(r, budget(r.job)) <= 5 * budget(r.job) + 4
            && Changes(ws, n, id) <= 5 * budget(r.job) + 4
  {
    MutualExclusion(ws, ops, budget, n);
    EnoughFuel(ws[n], budget, id);
    hide Inv, Exclusive, Next, Phase;
    if n > 0 {
      if id in ws[n - 1].t.runs {
        RunTerminates(ws, ops, budget, n - 1, id);
        StepBurns(ws[n - 1], ops[n - 1], ws[n], budget, id);
      } else {
        BornUnissued(ws[n - 1], ops[n - 1], ws[n], budget, id);
        UnissuedUnchanged(ws, ops, budget, n - 1, id);
      }
    }
  }

  lemma EnoughFuel(w: World, budget: string -> nat, id: Id)
    requires Inv(w, budget) && id in w.t.runs
    ensures Fuel(w.t.runs[id], budget(w.t.runs[id].job)) >= 0
  {
  }

  lemma StepBurns(w: World, op: Op, w2: World, budget: string -> nat, id: Id)
    requires Next(w, op, w2, budget) && id in w.t.runs && id in w2.t.runs
    ensures var r, r2 := w.t.runs[id], w2.t.runs[id];
            && r2.job == r.job
            && if r2.status == r.status then Fuel(r2, budget(r.job)) == Fuel(r, budget(r.job))
               else Fuel(r2, budget(r.job)) < Fuel(r, budget(r.job))
  {
    hide Apply, Callable;
    RowEvolves(w, op, w2, budget, id);
    var holder, token := if op.TakeRun? then op.holder else "", if op.TakeRun? then op.newId else 0;
    FuelBurns(w.t.runs[id], w2.t.runs[id], holder, token, w2.clock, budget(w.t.runs[id].job));
  }

  lemma BornUnissued(w: World, op: Op, w2: World, budget: string -> nat, id: Id)
    requires Next(w, op, w2, budget) && id !in w.t.runs && id in w2.t.runs
    ensures id !in w.issued
    ensures var r := w2.t.runs[id]; Fuel(r, budget(r.job)) <= 5 * budget(r.job) + 4
  {
    hide Apply;
    RowEvolves(w, op, w2, budget, id);
  }

  /** Terminal statuses are absorbing. */
  lemma {:induction false} TerminalAbsorbs(ws: seq<World>, ops: seq<Op>, budget: string -> nat, i: nat, j: nat, id: Id)
    requires Trace(ws, ops, budget) && i <= j < |ws|
    requires id in ws[i].t.runs && Terminal(ws[i].t.runs[id].status)
    ensures id in ws[j].issued
    ensures id in ws[j].t.runs ==> ws[j].t.runs[id].status == ws[i].t.runs[id].status
    decreases j
  {
    hide Inv, Exclusive, Next;
    if i < j {
      TerminalAbsorbs(ws, ops, budget, i, j - 1, id);
      TerminalStep(ws[j - 1], ops[j - 1], ws[j], budget, id, ws[i].t.runs[id].status);
    } else {
      MutualExclusion(ws, ops, budget, i);
      RowsIssued(ws[i], budget, id);
    }
  }

  lemma RowsIssued(w: World, budget: string -> nat, id: Id)
    requires Inv(w, budget) && id in w.t.runs
    ensures id in w.issued
  {
  }

  lemma TerminalStep(w: World, op: Op, w2: World, budget: string -> nat, id: Id, s: Status)
    requires Next(w, op, w2, budget) && id in w.issued && Terminal(s)
    requires id in w.t.runs ==> w.t.runs[id].status == s
    ensures id in w2.issued && (id in w2.t.runs ==> w2.t.runs[id].status == s)
  {
    hide Apply;
    if id in w2.t.runs { RowEvolves(w, op, w2, budget, id); }
  }

  // --- jobs.status ---------------------------------------------------------------------------

  /** What may write the status of a job over a live run of it: the promotion of the job, a
      reconciliation, a dependency skip, and an insert once the run is being cancelled. */
  predicate Overwrites(w: World, op: Op, y: Id)
    requires y in w.t.runs
  {
    match op
    case Promote(_, job) => job == w.t.runs[y].job
    case Reconcile(_) => true
    case InsertSkipped(_, job) => job == w.t.runs[y].job
    case Insert(_, job, _, _) => job == w.t.runs[y].job && w.t.runs[y].status.Cancelling?
    case _ => false
  }

  ghost predicate SameStatus(t: Table, t2: Table, job: string) {
    (job in t.jobs <==> job in t2.jobs) && (job in t.jobs ==> t2.jobs[job] == t.jobs[job])
  }

  /** While a run of a job is live, no other statement changes the status the job shows; in
      particular no finish, retry or expiry of another run of it does, late or not. */
  lemma LiveRunShields(w: World, op: Op, w2: World, budget: string -> nat, y: Id)
    requires Next(w, op, w2, budget) && y in w.t.runs && Live(w.t.runs[y].status)
    requires y in w2.t.runs && Live(w2.t.runs[y].status) && !Overwrites(w, op, y)
    ensures w2.t.runs[y].job == w.t.runs[y].job && SameStatus(w.t, w2.t, w.t.runs[y].job)
  {
    RowEvolves(w, op, w2, budget, y);
    OthersKeep(w.t, op, w2.clock, w2.t.runs[y], y);
  }

  lemma OthersKeep(t: Table, op: Op, now: int, r2: Run, y: Id)
    requires y in t.runs && Live(t.runs[y].status) && !Overwrites(World(t, now, {}), op, y) && !op.Reconcile?
    requires var t2 := Apply(t, op, now).0; y in t2.runs && t2.runs[y] == r2 && Live(r2.status)
    requires op.Complete? ==> Terminal(op.outcome)
    ensures SameStatus(t, Apply(t, op, now).0, t.runs[y].job)
  {
    if op.Insert? {
      InsertKeeps(t, op.id, op.job, op.worker, op.priority, now, y);
    } else if op.Complete? || op.ScheduleRetry? || op.Reap? || op.DropDisabled? {
      EndKeeps(t, op, now, y);
    } else {
      RestKeeps(t, op, now, y);
    }
  }

  lemma RestKeeps(t: Table, op: Op, now: int, y: Id)
    requires y in t.runs && Live(t.runs[y].status) && !Overwrites(World(t, now, {}), op, y) && !op.Reconcile?
    requires var t2 := Apply(t, op, now).0; y in t2.runs && Live(t2.runs[y].status)
    requires !op.Insert? && !op.Complete? && !op.ScheduleRetry? && !op.Reap? && !op.DropDisabled?
    ensures SameStatus(t, Apply(t, op, now).0, t.runs[y].job)
  {
    hide CreateRun, CreateSkipped, ProjectRun, Fence, FencePasses;
    if op.InsertSkipped? { SkipKeeps(t, op.id, op.job, now, y); }
  }

  lemma SkipKeeps(t: Table, id: Id, job: string, now: int, y: Id)
    requires y in t.runs && t.runs[y].job != job
    ensures SameStatus(t, CreateSkipped(t, id, job, now), t.runs[y].job)
  {
  }

  lemma EndKeeps(t: Table, op: Op, now: int, y: Id)
    requires y in t.runs && Live(t.runs[y].status)
             && (op.Complete? || op.ScheduleRetry? || op.Reap? || op.DropDisabled?)
    requires var t2 := Apply(t, op, now).0; y in t2.runs && Live(t2.runs[y].status)
    requires op.Complete? ==> Terminal(op.outcome)
    ensures SameStatus(t, Apply(t, op, now).0, t.runs[y].job)
  {
    hide ProjectRun, FencePasses, Fence;
    match op
    case Complete(id, expected, outcome, holder, token) =>
      if Finish(t, id, expected, outcome, holder, token, now).1 {
        ProjectKeeps(SetRow(t, id, t.runs[id].(status := outcome, finished := Some(now), lease := None)), id, y);
      }
    case ScheduleRetry(id, expected, nextAt, count, holder, token) =>
      if Retry(t, id, expected, nextAt, count, holder, token, now).1 {
        var r := t.runs[id].(status := Retrying, nextRetry := Some(nextAt), retryCount := count, lease := None);
        ProjectKeeps(SetRow(t, id, r), id, y);
      }
    case Reap(id, at) =>
      if Expire(t, id, at).1 { ProjectKeeps(SetRow(t, id, t.runs[id].(status := Lost, finished := Some(at))), id, y); }
    case DropDisabled(id) =>
      if id in t.runs && t.runs[id].status.Retrying? {
        ProjectKeeps(SetRow(t, id, t.runs[id].(status := Cancelled, finished := Some(now), lease := None)), id, y);
      }
  }

  lemma InsertKeeps(t: Table, id: Id, job: string, worker: Option<string>, priority: int, now: int, y: Id)
    requires y in t.runs && Live(t.runs[y].status) && (job == t.runs[y].job ==> !t.runs[y].status.Cancelling?)
    ensures SameStatus(t, CreateRun(t, id, job, worker, Queued, priority, now), t.runs[y].job)
  {
    if id !in t.runs && job == t.runs[y].job {
      var t1 := SetRow(t, id, NewRun(job, worker, Queued, 0, now, priority));
      assert t1.runs[y] == t.runs[y] && ActiveRunOf(t1, job);
    }
  }

  /** The guarded write-back, with another run of the job live. */
  lemma ProjectKeeps(t: Table, id: Id, y: Id)
    requires id in t.runs && y in t.runs && y != id && Live(t.runs[y].status)
    ensures SameStatus(t, ProjectRun(t, id), t.runs[y].job)
  {
  }

  /** Over any stretch of a run during which it stays live. */
  lemma {:induction false} LiveRunShieldsLong(ws: seq<World>, ops: seq<Op>, budget: string -> nat, i: nat, j: nat,
                                              y: Id)
    requires Trace(ws, ops, budget) && i <= j < |ws|
    requires forall k | i <= k <= j :: y in ws[k].t.runs && Live(ws[k].t.runs[y].status)
    requires forall k | i <= k < j :: !Overwrites(ws[k], ops[k], y)
    ensures ws[j].t.runs[y].job == ws[i].t.runs[y].job && SameStatus(ws[i].t, ws[j].t, ws[i].t.runs[y].job)
    decreases j
  {
    hide Next, Apply;
    if i < j {
      LiveRunShieldsLong(ws, ops, budget, i, j - 1, y);
      LiveRunShields(ws[j - 1], ops[j - 1], ws[j], budget, y);
    }
  }

  /** Every job with a run has a latest one, so only a job without runs keeps its status. */
  lemma LatestExists(runs: map<Id, Run>, job: string)
    ensures EvidenceOf(runs, job).last == {} <==> forall x | x in runs :: runs[x].job != job
  {
    var ids := set x | x in runs && runs[x].job == job;
    if ids != {} {
      var top := LatestOf(runs, ids);
      assert TopRow(runs, top);
      assert top in ids && runs[top].status in EvidenceOf(runs, job).last;
    } else {
      forall x | x in runs ensures runs[x].job != job { assert x !in ids; }
    }
  }

  ghost predicate SortsBefore(r: Run, r2: Run) {
    EndedAt(r2) < EndedAt(r) || (EndedAt(r2) == EndedAt(r) && r2.created <= r.created)
  }

  lemma {:induction false} LatestOf(runs: map<Id, Run>, ids: set<Id>) returns (top: Id)
    requires ids != {} && ids <= runs.Keys
    ensures top in ids && forall y | y in ids :: SortsBefore(runs[top], runs[y])
  {
    top :| top in ids;
    if ids != {top} {
      var rest := LatestOf(runs, ids - {top});
      if SortsBefore(runs[rest], runs[top]) { top := rest; }
    }
  }

  /** A reconciled job shows its live run, of which there is at most one. */
  lemma ReconcileShowsLiveRun(t: Table, once: map<string, Status>, x: Id)
    requires Exclusive(t) && Reconciled(t, once)
    requires x in t.runs && Live(t.runs[x].status) && t.runs[x].job in t.jobs
    ensures once[t.runs[x].job] == if t.runs[x].status.Starting? then Syncing else t.runs[x].status
  {
    var j := t.runs[x].job;
    assert HasStatus(t.runs, j, t.runs[x].status);
    forall s | Live(s) && HasStatus(t.runs, j, s) ensures s == t.runs[x].status {
      var y :| y in t.runs && t.runs[y].job == j && t.runs[y].status == s;
    }
    assert Shows(EvidenceOf(t.runs, j), t.jobs[j], once[j]);
  }

  /** One job's status is decided: a run is in flight, or its latest rows agree. */
  predicate Settled(e: Evidence) {
    e.inFlight.Some? || forall a, b | a in e.last && b in e.last :: a == b
  }

  /** Reconciling twice is reconciling once exactly when no job without a run in flight has two
      latest runs, equal in both sort keys, that ended differently. */
  lemma ReconcileIdempotentIff(t: Table, once: map<string, Status>)
    requires Reconciled(t, once)
    ensures (forall j | j in t.jobs :: Settled(EvidenceOf(t.runs, j))) <==>
            forall twice | Reconciled(t.(jobs := once), twice) :: twice == once
  {
    var ev := map j | j in t.jobs :: EvidenceOf(t.runs, j);
    SettledIffIdempotent(ev, t.jobs, once);
    forall twice ensures Reconciled(t.(jobs := once), twice) <==> AllShow(ev, once, twice) {}
  }

  /** Two runs that ended and were created at the same times, one well and one badly. */
  function TiedEnds(): Table {
    Table(map[1 := NewRun("j", None, Success, 0, 100, 0).(finished := Some(200)),
              2 := NewRun("j", None, Failed, 0, 100, 0).(finished := Some(200))], map["j" := Queued], map[])
  }

  lemma TiedEvidence()
    ensures var e := EvidenceOf(TiedEnds().runs, "j"); e.inFlight.None? && Success in e.last && Failed in e.last
  {
    hide InFlightStatus, HasStatus, TopRow;
    var runs := TiedEnds().runs;
    TiedTops();
    assert runs[1].job == "j" && runs[1].status == Success;
    assert runs[2].job == "j" && runs[2].status == Failed;
  }

  lemma TiedTops()
    ensures TopRow(TiedEnds().runs, 1) && TopRow(TiedEnds().runs, 2) && InFlightStatus(TiedEnds().runs, "j").None?
  {
    hide InFlightStatus, TopRow;
    forall x | x in TiedEnds().runs
      ensures var r := TiedEnds().runs[x]; EndedAt(r) == 200 && r.created == 100 && !InFlight(r.status) {}
    AllTied(TiedEnds().runs, "j", 200, 100);
  }

  lemma AllTied(runs: map<Id, Run>, job: string, ended: int, created: int)
    requires forall x | x in runs ::
               EndedAt(runs[x]) == ended && runs[x].created == created && !InFlight(runs[x].status)
    ensures (forall x | x in runs :: TopRow(runs, x)) && InFlightStatus(runs, job).None?
  {
  }

  /** Reconciling this table may give either status, and reconciling again the other. */
  lemma TiedEndsFlip()
    ensures Reconciled(TiedEnds(), map["j" := Success])
    ensures Reconciled(TiedEnds().(jobs := map["j" := Success]), map["j" := Failed])
  {
    TiedEvidence();
    hide EvidenceOf;
  }

  ghost predicate AllShow(ev: map<string, Evidence>, was: map<string, Status>, s: map<string, Status>) {
    s.Keys == was.Keys == ev.Keys && forall j | j in ev :: Shows(ev[j], was[j], s[j])
  }

  lemma SettledIffIdempotent(ev: map<string, Evidence>, was: map<string, Status>, once: map<string, Status>)
    requires AllShow(ev, was, once)
    ensures (forall j | j in ev :: Settled(ev[j])) <==> forall twice | AllShow(ev, once, twice) :: twice == once
  {
    if j :| j in ev && !Settled(ev[j]) {
      var a, b :| a in ev[j].last && b in ev[j].last && a != b;
      var twice := once[j := if a == once[j] then b else a];
      assert AllShow(ev, once, twice) && twice[j] != once[j];
    }
  }
}
