/** `Store`: the three tables as fields that each method updates in place. The contracts say
    which row of the specification's table every method leaves behind. Wall clock and
    `RunId::new` are parameters. */
module RunStore {
  import opened Prelude
  import opened RunTable
  import opened RunProtocol

  /** A heartbeat's job list, promoted one after the other. */
  function MarkAll(t: Table, worker: string, jobs: seq<string>): Table
    decreases |jobs|
  {
    if jobs == [] then t
    else MarkRunning(MarkAll(t, worker, jobs[..|jobs| - 1]), worker, jobs[|jobs| - 1])
  }

  class Store {
    var runs: map<Id, Run>
    var jobs: map<string, Status>
    var logs: map<Id, string>

    constructor ()
      ensures Snapshot() == Table(map[], map[], map[])
    {
      runs, jobs, logs := map[], map[], map[];
    }

    ghost function Snapshot(): Table reads this { Table(runs, jobs, logs) }

    method SetJobStatusOf(job: string, s: Status)
      modifies this`jobs
      ensures Snapshot() == SetJobStatus(old(Snapshot()), job, s)
    {
      if job in jobs { jobs := jobs[job := s]; }
    }

    method SetJobStatusForRun(id: Id)
      modifies this`jobs
      ensures Snapshot() == ProjectRun(old(Snapshot()), id)
    {
      if id in runs {
        var job := runs[id].job;
        if !exists r | r in runs :: runs[r].job == job && r != id && Live(runs[r].status) {
          SetJobStatusOf(job, runs[id].status);
        }
      }
    }

    method ActiveRunsOfJob(job: string) returns (ids: set<Id>)
      ensures ids == {} <==> !ActiveRunOf(Snapshot(), job)
      ensures forall x :: x in ids <==>
                x in runs && runs[x].job == job && runs[x].status in {Starting, Syncing, Running}
    {
      ids := set x | x in runs && runs[x].job == job && Active(runs[x].status);
      if ids == {} {
        forall x | x in runs ensures !(runs[x].job == job && Active(runs[x].status)) { assert x !in ids; }
      }
    }

    method CreateQueuedRun(id: Id, job: string, worker: Option<string>, priority: int, now: int)
      modifies this
      ensures Snapshot() == CreateRun(old(Snapshot()), id, job, worker, Queued, priority, now)
    {
      if id in runs { return; }
      runs := runs[id := NewRun(job, worker, Queued, 0, now, priority)];
      var active := ActiveRunsOfJob(job);
      if active == {} { SetJobStatusOf(job, Queued); }
    }

    method AssignQueuedRun(id: Id, worker: string) returns (ok: bool)
      modifies this`runs
      ensures (Snapshot(), ok) == AssignQueued(old(Snapshot()), id, worker)
    {
      ok := id in runs && runs[id].status == Queued && runs[id].worker == None;
      if ok { runs := runs[id := runs[id].(worker := Some(worker))]; }
    }

    /** The update is written and then checked against the unique index, which rolls it back
        with `Conflict` when the job has another live row. */
    method ClaimRun(id: Id, worker: string, token: Id, now: int) returns (ok: bool)
      requires Exclusive(Snapshot())
      modifies this
      ensures (Snapshot(), ok) == Claim(old(Snapshot()), id, worker, token, now)
      ensures Exclusive(Snapshot())
    {
      if id !in runs || runs[id].status != Queued || (runs[id].worker != None && runs[id].worker != Some(worker)) {
        return false;
      }
      var job := runs[id].job;
      var active := ActiveRunsOfJob(job);
      if active != {} { return false; }
      ghost var t := Snapshot();
      var before := runs;
      runs := runs[id := Run(job, Some(worker), Syncing, runs[id].retryCount, runs[id].lostCount, Some(token),
                             Some(now + RUN_LEASE_SECS), runs[id].nextRetry, runs[id].created, Some(now),
                             runs[id].finished, runs[id].priority)];
      var conflict := exists x | x in runs :: x != id && runs[x].job == job && Live(runs[x].status);
      forall x | x in runs && x != id ensures x in t.runs && runs[x] == t.runs[x] {}
      if OtherLive(t, job, id) {
        var x :| x in t.runs && x != id && t.runs[x].job == job && Live(t.runs[x].status);
        assert x in runs && runs[x] == t.runs[x];
      }
      assert conflict <==> OtherLive(t, job, id);
      if conflict {
        runs := before;
        return false;
      }
      SetJobStatusOf(job, Syncing);
      return true;
    }

    method MarkJobsRunning(worker: string, names: seq<string>)
      modifies this
      ensures Snapshot() == MarkAll(old(Snapshot()), worker, names)
    {
      ghost var t0 := Snapshot();
      for i := 0 to |names|
        invariant Snapshot() == MarkAll(t0, worker, names[..i])
      {
        assert names[..i + 1][..i] == names[..i];
        var hit := exists x | x in runs ::
            runs[x].worker == Some(worker) && runs[x].job == names[i] && Active(runs[x].status);
        runs := map x | x in runs :: PromoteRow(runs[x], worker, names[i]);
        if hit { SetJobStatusOf(names[i], Running); }
      }
      assert names[..|names|] == names;
    }

    method RenewRunLease(id: Id, worker: string, token: Option<Id>, now: int) returns (ok: bool)
      modifies this`runs
      ensures (Snapshot(), ok) == Renew(old(Snapshot()), id, worker, token, now)
    {
      if token == None || id !in runs { return false; }
      var r := runs[id];
      ok := r.worker == Some(worker) && r.token == token && r.lease != None && r.lease.value > now && Live(r.status);
      if ok { runs := runs[id := r.(lease := Some(now + RUN_LEASE_SECS))]; }
    }

    method SetCancellingByJob(job: string)
      modifies this`runs
      ensures Snapshot() == CancelJob(old(Snapshot()), job)
    {
      var hit := set x | x in runs && runs[x].job == job && Active(runs[x].status);
      runs := map x | x in runs :: if x in hit then runs[x].(status := Cancelling) else runs[x];
    }

    method FinishActiveRunFenced(id: Id, expected: nat, s: Status, worker: string, token: Option<Id>, now: int)
      returns (ok: bool)
      modifies this
      ensures (Snapshot(), ok) == Finish(old(Snapshot()), id, expected, s, worker, token, now)
    {
      if id !in runs || !FencePasses(runs[id], worker, token, now) || runs[id].retryCount != expected { return false; }
      runs := runs[id := runs[id].(status := s, finished := Some(now), lease := None)];
      SetJobStatusForRun(id);
      return true;
    }

    method SetRetryFromActiveFenced(id: Id, expected: nat, nextAt: int, count: nat, worker: string, token: Option<Id>,
                                    now: int)
      returns (ok: bool)
      modifies this
      ensures (Snapshot(), ok) == Retry(old(Snapshot()), id, expected, nextAt, count, worker, token, now)
    {
      if id !in runs || !FencePasses(runs[id], worker, token, now) || runs[id].retryCount != expected { return false; }
      runs := runs[id := runs[id].(status := Retrying, nextRetry := Some(nextAt), retryCount := count, lease := None)];
      SetJobStatusForRun(id);
      return true;
    }

    method ExpireRun(id: Id, at: int) returns (ok: bool)
      modifies this
      ensures (Snapshot(), ok) == Expire(old(Snapshot()), id, at)
    {
      ok := id in runs && runs[id].lease != None && runs[id].lease.value <= at && Live(runs[id].status);
      if ok {
        runs := runs[id := runs[id].(status := Lost, finished := Some(at))];
        SetJobStatusForRun(id);
      }
    }

    /** Live runs of remote workers whose lease has lapsed at `at`. */
    method ExpiredRuns(at: int) returns (ids: set<Id>)
      ensures ids == Overdue(Snapshot(), at)
      ensures forall x :: x in ids <==>
                && x in runs && runs[x].status in {Starting, Syncing, Running, Cancelling}
                && runs[x].worker.Some? && runs[x].worker.value != "local"
                && runs[x].lease.Some? && runs[x].lease.value <= at
    {
      ids := set x | x in runs && runs[x].worker.Some? && runs[x].worker.value != "local" && Lapsed(runs[x], at);
    }

    method CreateLostRequeue(id: Id, newId: Id, worker: Option<string>, now: int) returns (ok: bool)
      modifies this
      ensures (Snapshot(), ok) == LostRequeue(old(Snapshot()), id, newId, worker, now)
    {
      if id !in runs || newId in runs || runs[id].status != Lost { return false; }
      var job := runs[id].job;
      if exists x | x in runs :: runs[x].job == job && InFlight(runs[x].status) { return false; }
      runs := runs[newId := NewRun(job, worker, Queued, runs[id].lostCount + 1, now, 0)];
      SetJobStatusOf(job, Queued);
      return true;
    }

    method DropSupersededRuns(now: int)
      modifies this`runs
      ensures Snapshot() == DropSuperseded(old(Snapshot()), now)
    {
      var hit := set q | q in runs && (runs[q].status.Queued? || runs[q].status.Retrying? || runs[q].status.Cancelling?)
                         && exists a | a in runs :: a != q && runs[a].job == runs[q].job && Active(runs[a].status);
      ghost var t := Snapshot();
      forall q | q in runs ensures q in hit <==> Superseded(t, q) {}
      runs := map x | x in runs :: if x in hit then runs[x].(status := Cancelled, finished := Some(now)) else runs[x];
    }

    method UnassignOfflineRuns(online: set<string>)
      modifies this`runs
      ensures Snapshot() == UnassignOffline(old(Snapshot()), online)
    {
      runs := map x | x in runs :: if runs[x].status.Queued?
          && (runs[x].worker.None? || runs[x].worker.value !in online)
                                   then runs[x].(worker := None) else runs[x];
    }

    method InsertLogFenced(id: Id, worker: string, token: Option<Id>, job: string, text: string, now: int)
      returns (ok: bool)
      modifies this`logs
      ensures (Snapshot(), ok) == WriteLog(old(Snapshot()), id, worker, token, job, text, now)
    {
      ok := id in runs && Fence(runs[id], worker, token, now) && (id !in logs || runs[id].job == job);
      if ok { logs := logs[id := text]; }
    }

    /** `LIMIT 1` over equal sort keys may return any of them. */
    method ReconcileStaleJobStatus()
      modifies this`jobs
      ensures Reconciled(old(Snapshot()), jobs)
    {
      ghost var t0 := Snapshot();
      var todo := jobs.Keys;
      while todo != {}
        invariant todo <= jobs.Keys == t0.jobs.Keys && runs == t0.runs && logs == t0.logs
        invariant forall j | j in todo :: jobs[j] == t0.jobs[j]
        invariant forall j | j in jobs && j !in todo :: Shows(EvidenceOf(runs, j), t0.jobs[j], jobs[j])
        decreases |todo|
      {
        var j :| j in todo;
        var e := EvidenceOf(runs, j);
        if e.inFlight.Some? {
          jobs := jobs[j := e.inFlight.value];
        } else if e.last != {} {
          var s :| s in e.last;
          jobs := jobs[j := s];
        }
        todo := todo - {j};
      }
    }
  }
}
