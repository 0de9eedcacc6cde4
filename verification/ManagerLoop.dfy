/** The two procedures that drive the store: `dispatch_current` and one pass of the reaper. */
module ManagerLoop {
  import opened Prelude
  import opened RunTable
  import opened RunProtocol
  import opened RunStore
  import opened RunEffects
  import opened Manager

  const WORKER_HEARTBEAT_GRACE_SECS := 90

  datatype WorkerState = Online | Offline | Draining | Maintenance | Stopping

  datatype WorkerRow = WorkerRow(state: WorkerState, lastHeartbeat: Option<int>)

  predicate Silent(w: WorkerRow, now: int) {
    w.lastHeartbeat.None? || w.lastHeartbeat.value < now - WORKER_HEARTBEAT_GRACE_SECS
  }

  /** Workers that stay ONLINE through the heartbeat timeout. */
  function OnlineAt(workers: map<string, WorkerRow>, now: int): set<string> {
    set x | x in workers && workers[x].state.Online? && !Silent(workers[x], now)
  }

  class Coordinator {
    const store: Store
    var cfg: map<string, JobSpec>
    var workers: map<string, WorkerRow>

    constructor (store: Store, cfg: map<string, JobSpec>)
      ensures this.store == store && this.cfg == cfg && workers == map[]
    {
      this.store, this.cfg, this.workers := store, cfg, map[];
    }

    /** `run_history(job, 1)`. */
    method RunHistoryFirst(job: string) returns (latest: Option<Id>)
      ensures latest.None? ==> forall x | x in store.runs :: store.runs[x].job != job
      ensures latest.Some? ==>
                latest.value in store.runs && store.runs[latest.value].job == job
                    && IsLatest(store.Snapshot(), latest.value)
    {
      latest := None;
      var todo := store.runs.Keys;
      while todo != {}
        invariant todo <= store.runs.Keys
        invariant latest.None? ==> forall x | x in store.runs && x !in todo :: store.runs[x].job != job
        invariant latest.Some? ==> latest.value in store.runs && store.runs[latest.value].job == job
        invariant latest.Some? ==> forall y | y in store.runs && y !in todo && store.runs[y].job == job ::
            || store.runs[y].created < store.runs[latest.value].created
            || (store.runs[y].created == store.runs[latest.value].created && y <= latest.value)
        decreases |todo|
      {
        var x :| x in todo;
        var r := store.runs[x];
        if r.job == job && (latest.None? || r.created > store.runs[latest.value].created
                            || (r.created == store.runs[latest.value].created && x > latest.value)) {
          latest := Some(x);
        }
        todo := todo - {x};
      }
    }

    /** Whether the newest run of the job, if it can be read, ended one of two ways. */
    method LatestHas(job: string, a: Status, b: Status, legible: bool) returns (yes: bool)
      ensures yes <==> legible && (LatestIs(store.Snapshot(), job, a) || LatestIs(store.Snapshot(), job, b))
    {
      hide IsLatest, LatestIs;
      yes := false;
      if legible {
        var latest := RunHistoryFirst(job);
        NewestDecides(store.Snapshot(), job, latest, a);
        NewestDecides(store.Snapshot(), job, latest, b);
        yes := latest.Some? && (store.runs[latest.value].status == a || store.runs[latest.value].status == b);
      }
    }

    /** Whether a dependency was seen to have succeeded last. */
    method Succeeded(job: string, legible: bool) returns (yes: bool)
      ensures yes <==> SeenSucceeded(Sight(store.Snapshot(), legible), job)
    {
      hide LatestIs;
      yes := LatestHas(job, Success, SuccessWithWarnings, legible);
    }

    /** What other statements have made of the tables meanwhile. */
    method Others(t: Table)
      modifies store
      ensures store.Snapshot() == t
    {
      store.runs, store.jobs, store.logs := t.runs, t.jobs, t.logs;
    }

    /** `dispatch_current`: only the in-flight check and the insert are under the per-job lock;
        `picked` is the planner's answer, `newId` the new run id. Before its `i`th step others have
        made the table `meanwhile(i)`; that step's read works if `reading(i)`, and the write at the end
        if `writes`. */
    method DispatchCurrent(job: string, forced: bool, newId: Id, picked: Option<string>, now: int,
                           meanwhile: nat -> Table, reading: nat -> bool, writes: bool)
      returns (o: Outcome, ghost seen: seq<Sight>)
      modifies store
      ensures Dispatches(seen, cfg, job, forced, newId, picked, now, store.Snapshot(), o)
      ensures SeenSo(seen, old(store.Snapshot()), meanwhile, reading)
      ensures Wrote(seen, job, newId, now, writes, store.Snapshot(), o)
    {
      hide LatestIs, CreateSkipped, Inserts, SeenSo, SeenSucceeded;
      seen := [Sight(store.Snapshot(), reading(0))];
      SeenFirst(store.Snapshot(), meanwhile, reading);
      if job !in cfg { return UnknownJob, seen; }
      var spec := cfg[job];
      if !spec.enabled { return DisabledJob, seen; }
      if !forced && spec.failOnLost {
        if !reading(0) { return HistoryUnread, seen; }
        var lost := LatestHas(job, Lost, Lost, true);
        if lost { return HeldJob, seen; }
      }
      ghost var first := seen[0];
      for i := 0 to |spec.dependsOn|
        invariant |seen| == i + 1 && seen[0] == first && SeenSo(seen, old(store.Snapshot()), meanwhile, reading)
        invariant forall k | 0 <= k < i :: SeenSucceeded(seen[k + 1], spec.dependsOn[k])
      {
        Others(meanwhile(i + 1));
        var done := Succeeded(spec.dependsOn[i], reading(i + 1));
        SeenMore(seen, old(store.Snapshot()), meanwhile, reading);
        seen := seen + [Sight(store.Snapshot(), reading(i + 1))];
        if !done {
          if writes { SkipRun(job, newId, now); }
          return DependencySkip, seen;
        }
      }
      var n := |spec.dependsOn| + 1;
      Others(meanwhile(n));
      SeenMore(seen, old(store.Snapshot()), meanwhile, reading);
      seen := seen + [Sight(meanwhile(n), reading(n))];
      o := LockedInsert(job, forced, newId, picked, now, reading(n), writes);
    }

    /** `dispatch`, told by the rows it saw: the hold, the dependencies, the run in flight it found or
        the one it queued. */
    method Dispatch(job: string, forced: bool, newId: Id, picked: Option<string>, now: int,
                    meanwhile: nat -> Table, reading: nat -> bool, writes: bool)
      returns (o: Outcome, ghost seen: seq<Sight>)
      modifies store
      ensures seen != [] && HoldObserved(seen, cfg, job, forced, o) && DependenciesObserved(seen, cfg, job, o)
      ensures InsertObserved(seen[|seen| - 1], job, newId, picked, forced, now, writes, store.Snapshot(), o)
      ensures SeenSo(seen, old(store.Snapshot()), meanwhile, reading)
    {
      hide Dispatches, HoldObserved, DependenciesObserved, InsertObserved;
      o, seen := DispatchCurrent(job, forced, newId, picked, now, meanwhile, reading, writes);
      DispatchObserved(seen, cfg, job, forced, newId, picked, now, writes, store.Snapshot(), o);
    }

    method LockedInsert(job: string, forced: bool, newId: Id, picked: Option<string>, now: int, legible: bool,
                        writes: bool)
      returns (o: Outcome)
      modifies store
      ensures Inserts(Sight(old(store.Snapshot()), legible), job, forced, newId, picked, now, store.Snapshot(), o)
      ensures o.InsertFailed? ==> !writes
    {
      if legible {
        var inflight := set x | x in store.runs && store.runs[x].job == job && InFlight(store.runs[x].status);
        if inflight != {} {
          var existing :| existing in inflight;
          return InFlightAlready(existing);
        }
        forall x | x in store.runs ensures !(store.runs[x].job == job && InFlight(store.runs[x].status)) {
          assert x !in inflight;
        }
      }
      if !writes { return InsertFailed; }
      store.CreateQueuedRun(newId, job, picked, if forced then 1 else 0, now);
      return QueuedNow;
    }

    method SkipRun(job: string, newId: Id, now: int)
      modifies store
      ensures store.Snapshot() == CreateSkipped(old(store.Snapshot()), newId, job, now)
    {
      if newId in store.runs { return; }
      store.runs := store.runs[newId := NewRun(job, None, Skipped, 0, now, 0)];
      store.SetJobStatusOf(job, Skipped);
      store.runs := store.runs[newId := store.runs[newId].(finished := Some(now))];
      store.SetJobStatusForRun(newId);
    }

    /** One pass of the reaper, alone on the table; `early` and `pick` are the planner before and
        after it has seen the refreshed worker list. What waits or is cancelling beside an active run
        is cancelled; each run whose remote lease is over is lost; then queued runs of workers that
        are gone go where the planner says. No other run changes, new ones are those of lost runs
        under the policy `retry`, and a job that lost no run shows what reconciling gave it. */
    method ReaperPass(now: int, early: string -> Option<string>, pick: string -> Option<string>)
      returns (ghost shown: map<string, Status>)
      requires Exclusive(store.Snapshot())
      requires forall j :: pick(j).Some? ==> pick(j).value in OnlineAt(workers, now)
      modifies this`workers, store
      ensures Beaten(old(workers), workers, now)
      ensures forall x | x in old(store.runs) ::
                x in store.runs && store.runs[x] == Passed(old(store.runs), x, now, UpAt(workers), PickFor(cfg, pick))
      ensures forall x | x in store.runs && x !in old(store.runs) ::
                exists y | y in old(store.runs) ::
                  && Overtaken(old(store.runs)[y], now) && Requeues(old(store.runs)[y].job)
                  && store.runs[x] == Homed(Again(old(store.runs)[y], early, now), UpAt(workers), PickFor(cfg, pick))
      ensures forall x | x in old(store.runs) && Overtaken(old(store.runs)[x], now)
                         && Requeues(old(store.runs)[x].job) :: InFlightRunOf(store.Snapshot(), old(store.runs)[x].job)
      ensures Reconciled(DropSuperseded(old(store.Snapshot()), now), shown)
      ensures store.jobs.Keys == old(store.jobs).Keys
      ensures forall j | j in store.jobs && (forall x | x in old(store.runs) && old(store.runs)[x].job == j ::
                !Overtaken(old(store.runs)[x], now)) :: store.jobs[j] == shown[j]
    {
      hide Reaped, Rehomed, Beaten, Reconciled;
      ghost var r0 := store.runs;
      store.DropSupersededRuns(now);
      ghost var t1 := store.Snapshot();
      store.ReconcileStaleJobStatus();
      shown := store.jobs;
      ghost var r1 := store.runs;
      ReapExpired(now, early);
      ghost var r2 := store.runs;
      Reassign(now, pick);
      PassComposes(old(store.Snapshot()), r1, r2, store.runs, now, cfg, early, UpAt(workers), PickFor(cfg, pick));
    }

    predicate Requeues(job: string) reads this { job in cfg && !cfg[job].failOnLost }

    /** Expire each run the query returned, and requeue it where the policy says so. */
    method ReapExpired(now: int, pick: string -> Option<string>)
      modifies store
      ensures Reaped(old(store.runs), store.runs, now, cfg, pick)
      ensures forall x | x in old(store.runs) && Overtaken(old(store.runs)[x], now)
                         && Requeues(old(store.runs)[x].job) :: InFlightRunOf(store.Snapshot(), old(store.runs)[x].job)
      ensures store.jobs.Keys == old(store.jobs).Keys
      ensures forall j | j in store.jobs && (forall x | x in old(store.runs) && old(store.runs)[x].job == j ::
                !Overtaken(old(store.runs)[x], now)) :: store.jobs[j] == old(store.jobs)[j]
    {
      hide HalfReaped, Reaped;
      ghost var r0, jobs0 := store.runs, store.jobs;
      var todo := store.ExpiredRuns(now);
      ghost var expired := todo;
      NothingReaped(r0, expired, now, cfg, pick);
      while todo != {}
        invariant todo <= expired && HalfReaped(r0, store.runs, expired, todo, now, cfg, pick)
        invariant forall x | x in expired && x !in todo && Requeues(r0[x].job) ::
                    InFlightRunOf(store.Snapshot(), r0[x].job)
        invariant store.jobs.Keys == jobs0.Keys
        invariant forall j | j in jobs0 && (forall x | x in expired :: r0[x].job != j) :: store.jobs[j] == jobs0[j]
        decreases |todo|
      {
        var x :| x in todo;
        assert (todo - {x}) + {x} == todo;
        todo := todo - {x};
        var newId := NewRunId();
        ghost var r := store.runs;
        StillLive(r0, r, expired, todo, now, cfg, pick, x);
        ReapOne(x, now, newId, pick);
        OneReaped(r0, r, store.runs, expired, todo, now, cfg, pick, x, newId);
      }
      AllReaped(r0, store.runs, expired, now, cfg, pick);
    }

    method NewRunId() returns (id: Id)
      ensures id !in store.runs
    {
      id := 0;
      var todo := store.runs.Keys;
      while todo != {}
        invariant todo <= store.runs.Keys
        invariant forall x | x in store.runs && x !in todo :: x < id
        decreases |todo|
      {
        var x :| x in todo;
        if id <= x { id := x + 1; }
        todo := todo - {x};
      }
    }

    method ReapOne(x: Id, now: int, newId: Id, pick: string -> Option<string>)
      requires x in store.runs && Lapsed(store.runs[x], now) && newId !in store.runs
      modifies store
      ensures store.runs.Keys <= old(store.runs).Keys + {newId}
      ensures forall y | y in old(store.runs) && y != x :: y in store.runs && store.runs[y] == old(store.runs)[y]
      ensures x in store.runs && store.runs[x] == old(store.runs)[x].(status := Lost, finished := Some(now))
      ensures newId in store.runs ==>
                Requeues(old(store.runs)[x].job) && store.runs[newId] == Again(old(store.runs)[x], pick, now)
      ensures store.jobs.Keys == old(store.jobs).Keys
      ensures forall j | j in store.jobs && j != old(store.runs)[x].job :: store.jobs[j] == old(store.jobs)[j]
      ensures Requeues(old(store.runs)[x].job) ==> InFlightRunOf(store.Snapshot(), old(store.runs)[x].job)
      ensures forall j | j != old(store.runs)[x].job && InFlightRunOf(old(store.Snapshot()), j) ::
                InFlightRunOf(store.Snapshot(), j)
    {
      var job := store.runs[x].job;
      ghost var t0 := store.Snapshot();
      var lost := store.ExpireRun(x, now);
      if Requeues(job) {
        ghost var t1 := store.Snapshot();
        var ok := store.CreateLostRequeue(x, newId, pick(job), now);
        if ok {
          assert store.runs[newId].job == job && InFlight(store.runs[newId].status);
        } else {
          assert InFlightRunOf(t1, job);
        }
      }
      forall j | j != job && InFlightRunOf(t0, j) ensures InFlightRunOf(store.Snapshot(), j) {
        var y :| y in t0.runs && t0.runs[y].job == j && InFlight(t0.runs[y].status);
        assert store.runs[y] == t0.runs[y];
      }
    }

    /** Heartbeat timeout, then the queued runs of workers that are gone go to others. */
    method Reassign(now: int, pick: string -> Option<string>)
      requires forall j :: pick(j).Some? ==> pick(j).value in OnlineAt(workers, now)
      modifies this`workers, store`runs
      ensures Beaten(old(workers), workers, now)
      ensures Rehomed(old(store.runs), store.runs, UpAt(workers), PickFor(cfg, pick))
      ensures forall j | InFlightRunOf(old(store.Snapshot()), j) :: InFlightRunOf(store.Snapshot(), j)
    {
      ghost var t0 := store.Snapshot();
      workers := map w | w in workers ::
        if Silent(workers[w], now) && !workers[w].state.Draining? && !workers[w].state.Maintenance?
        then workers[w].(state := Offline) else workers[w];
      var online := set w | w in workers && workers[w].state.Online?;
      assert online == OnlineAt(old(workers), now) == UpAt(workers);
      store.UnassignOfflineRuns(online);
      ghost var unassigned := store.runs;
      AssignUnassigned(pick);
      AllHomed(t0.runs, unassigned, store.runs, online, PickFor(cfg, pick));
      HomedInFlight(t0, store.Snapshot(), online, PickFor(cfg, pick));
    }

    /** Every queued run without a worker gets the one the planner picks, if its job is configured. */
    method AssignUnassigned(pick: string -> Option<string>)
      modifies store`runs
      ensures store.runs.Keys == old(store.runs).Keys
      ensures forall x | x in store.runs ::
                store.runs[x] == if old(store.runs)[x].status.Queued? && old(store.runs)[x].worker.None?
                                 then old(store.runs)[x].(worker := PickFor(cfg, pick)(old(store.runs)[x].job))
                                 else old(store.runs)[x]
    {
      ghost var r0 := store.runs;
      var todo := set x | x in store.runs && store.runs[x].status.Queued? && store.runs[x].worker.None?;
      ghost var free := todo;
      while todo != {}
        invariant todo <= free && store.runs.Keys == r0.Keys
        invariant forall x | x in r0 :: store.runs[x] == if x in free && x !in todo
                                                         then r0[x].(worker := PickFor(cfg, pick)(r0[x].job)) else r0[x]
        decreases |todo|
      {
        var x :| x in todo;
        todo := todo - {x};
        var job := store.runs[x].job;
        if job in cfg {
          var worker := pick(job);
          if worker.Some? {
            ghost var r := store.runs;
            var ok := store.AssignQueuedRun(x, worker.value);
            assert ok && store.runs == r[x := r[x].(worker := worker)];
          }
        }
      }
    }
  }

  /** What the planner may say of a job: nothing if it is not configured. */
  ghost function PickFor(cfg: map<string, JobSpec>, pick: string -> Option<string>): string -> Option<string> {
    j => if j in cfg then pick(j) else None
  }

  ghost function UpAt(workers: map<string, WorkerRow>): set<string> {
    set w | w in workers && workers[w].state.Online?
  }

  /** After the heartbeat check: a worker not heard of for 90 seconds is OFFLINE, unless it drains or
      is under maintenance; the others are as they were. */
  ghost predicate Beaten(before: map<string, WorkerRow>, after: map<string, WorkerRow>, now: int) {
    && after.Keys == before.Keys
    && forall w | w in before ::
         var lost := before[w].lastHeartbeat.None? || now - before[w].lastHeartbeat.value > 90;
         after[w] == if lost && before[w].state !in {Draining, Maintenance}
                     then WorkerRow(Offline, before[w].lastHeartbeat) else before[w]
  }

  /** First of the job by creation time and id, descending. */
  predicate NewestRun(t: Table, job: string, x: Id) {
    && x in t.runs && t.runs[x].job == job
    && forall y | y in t.runs && t.runs[y].job == job ::
         t.runs[y].created < t.runs[x].created || (t.runs[y].created == t.runs[x].created && y <= x)
  }

  ghost predicate NewestEnded(t: Table, job: string, ss: set<Status>) {
    exists x :: NewestRun(t, job, x) && t.runs[x].status in ss
  }

  predicate GotThrough(o: Outcome) { o.DependencySkip? || o.InFlightAlready? || o.QueuedNow? || o.InsertFailed? }

  /** The hold: a dispatch that was not forced, of a job under the policy `fail`, is refused if the
      newest run it saw was LOST, fails if it could not see, and otherwise gets through. */
  ghost predicate HoldObserved(seen: seq<Sight>, cfg: map<string, JobSpec>, job: string, forced: bool, o: Outcome) {
    && seen != []
    && (o.UnknownJob? <==> job !in cfg)
    && (job in cfg ==>
         var checked := cfg[job].enabled && !forced && cfg[job].failOnLost;
         && (o.DisabledJob? <==> !cfg[job].enabled)
         && (o.HistoryUnread? <==> checked && !seen[0].legible)
         && (o.HeldJob? <==> checked && seen[0].legible && NewestEnded(seen[0].t, job, {Lost}))
         && (GotThrough(o) <==> cfg[job].enabled
                                && !(checked && (!seen[0].legible || NewestEnded(seen[0].t, job, {Lost})))))
  }

  /** The dependencies: each one passed was seen to have succeeded last, with or without warnings, and
      the dispatch is skipped at the first that was not. */
  ghost predicate DependenciesObserved(seen: seq<Sight>, cfg: map<string, JobSpec>, job: string, o: Outcome) {
    job in cfg && GotThrough(o) ==>
      var deps := cfg[job].dependsOn;
      && 2 <= |seen| <= |deps| + 2
      && (forall i | 1 <= i < |seen| - 1 ::
            seen[i].legible && NewestEnded(seen[i].t, deps[i - 1], {Success, SuccessWithWarnings}))
      && (o.DependencySkip? <==> |seen| < |deps| + 2)
      && (o.DependencySkip? ==>
            var (last, dep) := (seen[|seen| - 1], deps[|seen| - 2]);
            !(last.legible && NewestEnded(last.t, dep, {Success, SuccessWithWarnings})))
  }

  /** The lock: a run in flight is found, or else one is queued, of priority 1 if an operator asked. A
      dispatch skipped for a dependency leaves a skipped run if that can be written, and one refused
      leaves nothing. */
  ghost predicate InsertObserved(last: Sight, job: string, newId: Id, picked: Option<string>, forced: bool, now: int,
                                 writes: bool, t2: Table, o: Outcome)
  {
    && (o.QueuedNow? && newId !in last.t.runs ==>
          && (last.legible ==> forall x | x in last.t.runs && last.t.runs[x].job == job ::
                                 last.t.runs[x].status !in IN_FLIGHT)
          && RowIs(last.t, t2, newId,
                   Run(job, picked, Queued, 0, 0, None, None, None, now, None, None, if forced then 1 else 0)))
    && (o.InFlightAlready? ==>
          && last.legible && t2 == last.t
          && o.run in t2.runs && t2.runs[o.run].job == job && t2.runs[o.run].status in IN_FLIGHT)
    && (o.InsertFailed? ==>
          && !writes && t2 == last.t
          && (last.legible ==> forall x | x in last.t.runs && last.t.runs[x].job == job ::
                                 last.t.runs[x].status !in IN_FLIGHT))
    && (o.DependencySkip? && !writes ==> t2 == last.t)
    && (o.DependencySkip? && writes && newId !in last.t.runs ==>
          RowIs(last.t, t2, newId, Run(job, None, Skipped, 0, 0, None, None, None, now, None, Some(now), 0)))
    && (!GotThrough(o) ==> t2 == last.t)
  }

  /** What a dispatch saw is what was there: the table as it found it, then what others made of it. */
  ghost predicate SeenSo(seen: seq<Sight>, first: Table, meanwhile: nat -> Table, reading: nat -> bool) {
    && seen != [] && seen[0] == Sight(first, reading(0))
    && forall i | 1 <= i < |seen| :: seen[i] == Sight(meanwhile(i), reading(i))
  }

  lemma SeenFirst(first: Table, meanwhile: nat -> Table, reading: nat -> bool)
    ensures SeenSo([Sight(first, reading(0))], first, meanwhile, reading)
  {
  }

  lemma SeenMore(seen: seq<Sight>, first: Table, meanwhile: nat -> Table, reading: nat -> bool)
    requires SeenSo(seen, first, meanwhile, reading)
    ensures SeenSo(seen + [Sight(meanwhile(|seen|), reading(|seen|))], first, meanwhile, reading)
  {
  }

  /** A write fails only where it can. */
  ghost predicate Wrote(seen: seq<Sight>, job: string, newId: Id, now: int, writes: bool, t2: Table, o: Outcome) {
    && seen != [] && (o.InsertFailed? ==> !writes)
    && (o.DependencySkip? ==>
          t2 == if writes then CreateSkipped(seen[|seen| - 1].t, newId, job, now) else seen[|seen| - 1].t)
  }

  lemma Observed(t: Table, job: string)
    ensures LatestIs(t, job, Lost) <==> NewestEnded(t, job, {Lost})
    ensures LatestSucceeded(t, job) <==> NewestEnded(t, job, {Success, SuccessWithWarnings})
  {
    forall x | x in t.runs && t.runs[x].job == job ensures IsLatest(t, x) <==> NewestRun(t, job, x) {}
  }

  lemma DispatchObserved(seen: seq<Sight>, cfg: map<string, JobSpec>, job: string, forced: bool, newId: Id,
                         picked: Option<string>, now: int, writes: bool, t2: Table, o: Outcome)
    requires Dispatches(seen, cfg, job, forced, newId, picked, now, t2, o)
             && Wrote(seen, job, newId, now, writes, t2, o)
    ensures HoldObserved(seen, cfg, job, forced, o) && DependenciesObserved(seen, cfg, job, o)
    ensures InsertObserved(seen[|seen| - 1], job, newId, picked, forced, now, writes, t2, o)
  {
    HoldSeen(seen, cfg, job, forced, newId, picked, now, t2, o);
    DependenciesSeen(seen, cfg, job, forced, newId, picked, now, t2, o);
    InsertSeen(seen, cfg, job, forced, newId, picked, now, writes, t2, o);
  }

  lemma HoldSeen(seen: seq<Sight>, cfg: map<string, JobSpec>, job: string, forced: bool, newId: Id,
                 picked: Option<string>, now: int, t2: Table, o: Outcome)
    requires Dispatches(seen, cfg, job, forced, newId, picked, now, t2, o)
    ensures HoldObserved(seen, cfg, job, forced, o)
  {
    Observed(seen[0].t, job);
    hide LatestIs, NewestEnded, LatestSucceeded, InFlightRunOf;
  }

  lemma DependenciesSeen(seen: seq<Sight>, cfg: map<string, JobSpec>, job: string, forced: bool, newId: Id,
                         picked: Option<string>, now: int, t2: Table, o: Outcome)
    requires Dispatches(seen, cfg, job, forced, newId, picked, now, t2, o)
    ensures DependenciesObserved(seen, cfg, job, o)
  {
    hide LatestIs, NewestEnded, LatestSucceeded, InFlightRunOf;
    if job in cfg && GotThrough(o) {
      var deps, k := cfg[job].dependsOn, |seen| - 2;
      forall i | 0 <= i <= k && i < |deps|
        ensures SeenSucceeded(seen[i + 1], deps[i]) <==>
                  seen[i + 1].legible && NewestEnded(seen[i + 1].t, deps[i], {Success, SuccessWithWarnings})
      {
        Observed(seen[i + 1].t, deps[i]);
      }
      forall i | 1 <= i < |seen| - 1
        ensures seen[i].legible && NewestEnded(seen[i].t, deps[i - 1], {Success, SuccessWithWarnings})
      {
        assert SeenSucceeded(seen[i - 1 + 1], deps[i - 1]);
      }
    }
  }

  lemma InsertSeen(seen: seq<Sight>, cfg: map<string, JobSpec>, job: string, forced: bool, newId: Id,
                   picked: Option<string>, now: int, writes: bool, t2: Table, o: Outcome)
    requires Dispatches(seen, cfg, job, forced, newId, picked, now, t2, o)
             && Wrote(seen, job, newId, now, writes, t2, o)
    ensures InsertObserved(seen[|seen| - 1], job, newId, picked, forced, now, writes, t2, o)
  {
    hide LatestIs, LatestSucceeded;
  }

  lemma NewestDecides(t: Table, job: string, latest: Option<Id>, s: Status)
    requires latest.None? ==> forall x | x in t.runs :: t.runs[x].job != job
    requires latest.Some? ==> latest.value in t.runs && t.runs[latest.value].job == job && IsLatest(t, latest.value)
    ensures LatestIs(t, job, s) <==> latest.Some? && t.runs[latest.value].status == s
  {
  }

  /** A live run of a remote worker whose lease is over. */
  predicate Overtaken(r: Run, now: int) {
    && r.worker.Some? && r.worker.value != "local" && r.status in {Starting, Syncing, Running, Cancelling}
    && r.lease.Some? && r.lease.value <= now
  }

  /** The run queued in place of a lost one. */
  ghost function Again(r: Run, pick: string -> Option<string>, now: int): Run {
    Run(r.job, pick(r.job), Queued, 0, r.lostCount + 1, None, None, None, now, None, None, 0)
  }

  /** A queued run stays with a worker that is up, and otherwise goes where the planner says. */
  ghost function Homed(r: Run, up: set<string>, to: string -> Option<string>): Run {
    if r.status.Queued? && !(r.worker.Some? && r.worker.value in up) then r.(worker := to(r.job)) else r
  }

  ghost predicate Leftover(runs: map<Id, Run>, x: Id) requires x in runs {
    && runs[x].status in {Queued, Retrying, Cancelling}
    && exists a | a in runs :: a != x && runs[a].job == runs[x].job && runs[a].status in {Starting, Syncing, Running}
  }

  /** What a pass makes of a run. */
  ghost function Passed(runs: map<Id, Run>, x: Id, now: int, up: set<string>, to: string -> Option<string>): Run
    requires x in runs
  {
    if Leftover(runs, x) then runs[x].(status := Cancelled, finished := Some(now))
    else if Overtaken(runs[x], now) then runs[x].(status := Lost, finished := Some(now))
    else Homed(runs[x], up, to)
  }

  ghost predicate Born(r0: map<Id, Run>, r: Run, now: int, cfg: map<string, JobSpec>, pick: string -> Option<string>) {
    exists y | y in r0 :: Overtaken(r0[y], now) && r0[y].job in cfg && !cfg[r0[y].job].failOnLost
                          && r == Again(r0[y], pick, now)
  }

  ghost predicate Reaped(r1: map<Id, Run>, r2: map<Id, Run>, now: int, cfg: map<string, JobSpec>,
                         pick: string -> Option<string>)
  {
    && (forall x | x in r1 ::
          x in r2 && r2[x] == if Overtaken(r1[x], now) then r1[x].(status := Lost, finished := Some(now)) else r1[x])
    && (forall x | x in r2 && x !in r1 :: Born(r1, r2[x], now, cfg, pick))
  }

  /** Half way through the reaping: the rows still to do are as they were. */
  ghost predicate HalfReaped(r0: map<Id, Run>, r: map<Id, Run>, expired: set<Id>, todo: set<Id>, now: int,
                             cfg: map<string, JobSpec>, pick: string -> Option<string>)
  {
    && (forall x | x in r && x !in r0 :: Born(r0, r[x], now, cfg, pick))
    && (forall x | x in r0 ::
          x in r && r[x] == if x in expired && x !in todo then r0[x].(status := Lost, finished := Some(now)) else r0[x])
  }

  lemma NothingReaped(r: map<Id, Run>, expired: set<Id>, now: int, cfg: map<string, JobSpec>,
                      pick: string -> Option<string>)
    ensures HalfReaped(r, r, expired, expired, now, cfg, pick)
  {
  }

  lemma StillLive(r0: map<Id, Run>, r: map<Id, Run>, expired: set<Id>, todo: set<Id>, now: int,
                  cfg: map<string, JobSpec>, pick: string -> Option<string>, x: Id)
    requires HalfReaped(r0, r, expired, todo + {x}, now, cfg, pick) && x in r0
    ensures x in r && r[x] == r0[x]
  {
  }

  lemma OneReaped(r0: map<Id, Run>, r: map<Id, Run>, r2: map<Id, Run>, expired: set<Id>, todo: set<Id>, now: int,
                  cfg: map<string, JobSpec>, pick: string -> Option<string>, x: Id, newId: Id)
    requires HalfReaped(r0, r, expired, todo + {x}, now, cfg, pick)
    requires x in r0 && x in expired && x !in todo && newId !in r && Overtaken(r0[x], now)
    requires r2.Keys <= r.Keys + {newId} && (forall y | y in r && y != x :: y in r2 && r2[y] == r[y])
    requires x in r2 && r2[x] == r[x].(status := Lost, finished := Some(now))
    requires newId in r2 ==> r0[x].job in cfg && !cfg[r0[x].job].failOnLost && r2[newId] == Again(r0[x], pick, now)
    ensures HalfReaped(r0, r2, expired, todo, now, cfg, pick)
  {
    hide Born;
    if newId in r2 { FromLost(r0, x, r2[newId], now, cfg, pick); }
  }

  lemma FromLost(r0: map<Id, Run>, x: Id, r: Run, now: int, cfg: map<string, JobSpec>, pick: string -> Option<string>)
    requires x in r0 && Overtaken(r0[x], now) && r0[x].job in cfg && !cfg[r0[x].job].failOnLost
    requires r == Again(r0[x], pick, now)
    ensures Born(r0, r, now, cfg, pick)
  {
  }

  lemma AllReaped(r0: map<Id, Run>, r: map<Id, Run>, expired: set<Id>, now: int, cfg: map<string, JobSpec>,
                  pick: string -> Option<string>)
    requires HalfReaped(r0, r, expired, {}, now, cfg, pick)
    requires forall x :: x in expired <==> x in r0 && Overtaken(r0[x], now)
    ensures Reaped(r0, r, now, cfg, pick)
  {
    hide Born;
  }

  ghost predicate Rehomed(r1: map<Id, Run>, r2: map<Id, Run>, up: set<string>, to: string -> Option<string>) {
    r2.Keys == r1.Keys && forall x | x in r1 :: r2[x] == Homed(r1[x], up, to)
  }

  lemma AllHomed(r0: map<Id, Run>, r1: map<Id, Run>, r2: map<Id, Run>, up: set<string>, to: string -> Option<string>)
    requires r2.Keys == r1.Keys == r0.Keys && forall x | x in r0 :: r1[x] == UnassignRow(r0[x], up)
    requires forall x | x in r1 ::
               r2[x] == if r1[x].status.Queued? && r1[x].worker.None? then r1[x].(worker := to(r1[x].job)) else r1[x]
    ensures Rehomed(r0, r2, up, to)
  {
  }

  lemma HomedInFlight(t: Table, t2: Table, up: set<string>, to: string -> Option<string>)
    requires Rehomed(t.runs, t2.runs, up, to)
    ensures forall j | InFlightRunOf(t, j) :: InFlightRunOf(t2, j)
  {
    forall j | InFlightRunOf(t, j) ensures InFlightRunOf(t2, j) {
      var x :| x in t.runs && t.runs[x].job == j && InFlight(t.runs[x].status);
      assert t2.runs[x].job == j && t2.runs[x].status == t.runs[x].status;
    }
  }

  lemma PassComposes(t0: Table, r1: map<Id, Run>, r2: map<Id, Run>, r3: map<Id, Run>, now: int,
                     cfg: map<string, JobSpec>, early: string -> Option<string>, up: set<string>,
                     to: string -> Option<string>)
    requires Exclusive(t0) && r1 == DropSuperseded(t0, now).runs
    requires Reaped(r1, r2, now, cfg, early) && Rehomed(r2, r3, up, to)
    ensures forall x | x in t0.runs :: x in r3 && r3[x] == Passed(t0.runs, x, now, up, to)
    ensures forall x | x in r3 && x !in t0.runs ::
              exists y | y in t0.runs :: Overtaken(t0.runs[y], now) && t0.runs[y].job in cfg
                && !cfg[t0.runs[y].job].failOnLost && r3[x] == Homed(Again(t0.runs[y], early, now), up, to)
    ensures forall x | x in t0.runs :: x in r1 && r1[x].job == t0.runs[x].job
                                       && (Overtaken(r1[x], now) <==> Overtaken(t0.runs[x], now))
  {
    forall x | x in t0.runs
      ensures x in r1 && r1[x] == if Leftover(t0.runs, x) then t0.runs[x].(status := Cancelled, finished := Some(now))
                                  else t0.runs[x]
      ensures Overtaken(r1[x], now) <==> Overtaken(t0.runs[x], now)
    {
      DroppedRow(t0, now, x);
    }
    hide Leftover, Overtaken, Exclusive, DropSuperseded;
    forall x | x in r3 && x !in t0.runs
      ensures exists y | y in t0.runs :: Overtaken(t0.runs[y], now) && t0.runs[y].job in cfg
                && !cfg[t0.runs[y].job].failOnLost && r3[x] == Homed(Again(t0.runs[y], early, now), up, to)
    {
      assert Born(r1, r2[x], now, cfg, early);
    }
  }

  lemma DroppedRow(t: Table, now: int, x: Id)
    requires Exclusive(t) && x in t.runs
    ensures DropSuperseded(t, now).runs.Keys == t.runs.Keys
    ensures var r := DropSuperseded(t, now).runs[x];
            && r == (if Leftover(t.runs, x) then t.runs[x].(status := Cancelled, finished := Some(now)) else t.runs[x])
            && (Overtaken(r, now) <==> Overtaken(t.runs[x], now))
            && !(Leftover(t.runs, x) && Overtaken(t.runs[x], now))
  {
  }
}
