/** Nix channels (`synora-scripts/nix-channels.py`): publishing a release once its closure is in
    the store, and the mark-and-sweep collection of what no kept release needs. */
module NixChannels {
  import opened Prelude

  /** A store path, named by the hash part its narinfo goes by. */
  type Hash = string

  datatype Release = Release(channel: string, version: string)

  /** A release directory: the listed paths, whether `.sync-complete` is there, the release time. */
  datatype Info = Info(paths: seq<Hash>, complete: bool, time: int)

  datatype File = Narinfo(hash: Hash) | Nar(url: string)

  /** What a narinfo says about its path, wherever it is read. */
  datatype Facts = Facts(refs: Hash -> set<Hash>, url: Hash -> string)

  datatype Disk = Disk(store: set<File>, releases: map<Release, Info>, published: map<string, Release>,
                       pending: map<string, Release>)

  // --- closures ----------------------------------------------------------------------------

  ghost predicate Trace(refs: Hash -> set<Hash>, t: seq<Hash>) {
    forall i | 0 <= i < |t| - 1 :: t[i + 1] in refs(t[i])
  }

  /** `p` is in the reflexive and transitive closure of `roots` under references. */
  ghost predicate Reaches(refs: Hash -> set<Hash>, roots: set<Hash>, p: Hash) {
    exists t: seq<Hash> :: t != [] && t[0] in roots && t[|t| - 1] == p && Trace(refs, t)
  }

  lemma RootReached(refs: Hash -> set<Hash>, roots: set<Hash>, p: Hash)
    requires p in roots
    ensures Reaches(refs, roots, p)
  {
    assert [p][0] in roots && Trace(refs, [p]);
  }

  lemma RefReached(refs: Hash -> set<Hash>, roots: set<Hash>, p: Hash, q: Hash)
    requires Reaches(refs, roots, p) && q in refs(p)
    ensures Reaches(refs, roots, q)
  {
    var t :| t != [] && t[0] in roots && t[|t| - 1] == p && Trace(refs, t);
    var t2 := t + [q];
    assert t2[0] in roots && t2[|t2| - 1] == q && Trace(refs, t2);
  }

  lemma {:induction false} ReachedInClosed(refs: Hash -> set<Hash>, roots: set<Hash>, closed: set<Hash>, t: seq<Hash>)
    requires roots <= closed && forall p | p in closed :: refs(p) <= closed
    requires t != [] && t[0] in roots && Trace(refs, t)
    ensures t[|t| - 1] in closed
    decreases |t|
  {
    if |t| > 1 {
      ReachedInClosed(refs, roots, closed, t[..|t| - 1]);
      assert t[|t| - 1] in refs(t[|t| - 2]);
    }
  }

  lemma InClosed(refs: Hash -> set<Hash>, roots: set<Hash>, closed: set<Hash>, p: Hash)
    requires roots <= closed && (forall q | q in closed :: refs(q) <= closed) && Reaches(refs, roots, p)
    ensures p in closed
  {
    var t :| t != [] && t[0] in roots && t[|t| - 1] == p && Trace(refs, t);
    ReachedInClosed(refs, roots, closed, t);
  }

  /** `nix path-info --recursive` against the narinfos of some store: the closure, or an error if
      part of it is missing. */
  method PathInfo(facts: Facts, available: set<Hash>, roots: set<Hash>) returns (r: Option<set<Hash>>)
    ensures r.Some? ==> r.value <= available && forall p :: p in r.value <==> Reaches(facts.refs, roots, p)
    ensures r.None? ==> exists p :: Reaches(facts.refs, roots, p) && p !in available
  {
    hide Reaches, Walk;
    var done: set<Hash>, todo := {}, roots;
    WalkBegins(facts.refs, available, roots);
    while todo != {}
      invariant Walk(facts.refs, available, roots, done, todo)
      decreases |available - done|
    {
      var p :| p in todo;
      WalkAt(facts.refs, available, roots, done, todo, p);
      if p !in available { return None; }
      WalkStep(facts.refs, available, roots, done, todo, p);
      done, todo := done + {p}, todo + facts.refs(p) - (done + {p});
    }
    WalkEnds(facts.refs, available, roots, done);
    return Some(done);
  }

  ghost predicate Walk(refs: Hash -> set<Hash>, available: set<Hash>, roots: set<Hash>, done: set<Hash>,
                       todo: set<Hash>)
  {
    && done <= available && roots <= done + todo && (forall p | p in todo :: p !in done)
    && (forall p | p in done || p in todo :: Reaches(refs, roots, p))
    && (forall p | p in done :: refs(p) <= done + todo)
  }

  lemma WalkBegins(refs: Hash -> set<Hash>, available: set<Hash>, roots: set<Hash>)
    ensures Walk(refs, available, roots, {}, roots)
  {
    forall p | p in roots ensures Reaches(refs, roots, p) { RootReached(refs, roots, p); }
  }

  lemma WalkAt(refs: Hash -> set<Hash>, available: set<Hash>, roots: set<Hash>, done: set<Hash>, todo: set<Hash>,
               p: Hash)
    requires Walk(refs, available, roots, done, todo) && p in todo
    ensures Reaches(refs, roots, p) && p !in done
  {
  }

  lemma WalkStep(refs: Hash -> set<Hash>, available: set<Hash>, roots: set<Hash>, done: set<Hash>, todo: set<Hash>,
                 p: Hash)
    requires Walk(refs, available, roots, done, todo) && p in todo && p in available
    ensures Walk(refs, available, roots, done + {p}, todo + refs(p) - (done + {p}))
    ensures |available - (done + {p})| < |available - done|
  {
    hide Reaches;
    forall q | q in refs(p) ensures Reaches(refs, roots, q) { RefReached(refs, roots, p, q); }
    assert available - (done + {p}) == (available - done) - {p};
    assert (done + {p}) + (todo + refs(p) - (done + {p})) == done + todo + refs(p);
  }

  lemma WalkEnds(refs: Hash -> set<Hash>, available: set<Hash>, roots: set<Hash>, done: set<Hash>)
    requires Walk(refs, available, roots, done, {})
    ensures done <= available && forall p :: p in done <==> Reaches(refs, roots, p)
  {
    hide Reaches;
    assert done + {} == done;
    forall p | Reaches(refs, roots, p) ensures p in done { InClosed(refs, roots, done, p); }
  }

  // --- what is published ----------------------------------------------------------------------

  /** Paths left out by name, on update and on collection alike. */
  function Wanted(skip: Hash -> bool, paths: seq<Hash>): (r: seq<Hash>)
    ensures forall h :: h in r <==> h in paths && !skip(h)
  {
    if paths == [] then []
    else if skip(paths[0]) then Wanted(skip, paths[1..]) else [paths[0]] + Wanted(skip, paths[1..])
  }

  function Roots(paths: seq<Hash>): set<Hash> { set p | p in paths }

  /** Narinfo and nar of the whole closure are there. */
  ghost predicate Whole(facts: Facts, store: set<File>, roots: set<Hash>) {
    forall p | Reaches(facts.refs, roots, p) :: Narinfo(p) in store && Nar(facts.url(p)) in store
  }

  ghost predicate Sound(facts: Facts, skip: Hash -> bool, d: Disk) {
    && (forall c | c in d.published :: PublishedWhole(facts, skip, d, c))
    && (forall c | c in d.pending :: d.pending[c].channel == c && d.pending[c] in d.releases)
  }

  ghost predicate PublishedWhole(facts: Facts, skip: Hash -> bool, d: Disk, c: string)
    requires c in d.published
  {
    var r := d.published[c];
    r.channel == c && r in d.releases && Whole(facts, d.store, Roots(Wanted(skip, d.releases[r].paths)))
  }

  /** What one path listed by the release, and not left out by name, refers to, itself included. */
  ghost predicate Asked(facts: Facts, skip: Hash -> bool, info: Info, p: Hash) {
    exists root | root in info.paths && !skip(root) :: Reaches(facts.refs, {root}, p)
  }

  lemma AskedIff(facts: Facts, skip: Hash -> bool, info: Info, p: Hash)
    ensures Asked(facts, skip, info, p) <==> Reaches(facts.refs, Roots(Wanted(skip, info.paths)), p)
  {
    hide Reaches;
    var wanted := Wanted(skip, info.paths);
    if Reaches(facts.refs, Roots(wanted), p) { var root := BatchReaches(facts.refs, wanted, p); }
    if Asked(facts, skip, info, p) {
      var root :| root in info.paths && !skip(root) && Reaches(facts.refs, {root}, p);
      MoreRoots(facts.refs, {root}, Roots(wanted), p);
    }
  }

  /** A published channel can be installed from: the narinfo and the nar of every path its release
      lists and does not leave out, and of all they refer to, are in the store. */
  lemma PublishedServes(facts: Facts, skip: Hash -> bool, d: Disk, c: string, p: Hash)
    requires Sound(facts, skip, d) && c in d.published
    ensures d.published[c].channel == c && d.published[c] in d.releases
    ensures Asked(facts, skip, d.releases[d.published[c]], p) ==>
              Narinfo(p) in d.store && Nar(facts.url(p)) in d.store
  {
    hide Reaches, Asked;
    assert PublishedWhole(facts, skip, d, c);
    AskedIff(facts, skip, d.releases[d.published[c]], p);
  }

  lemma {:induction false} BatchReaches(refs: Hash -> set<Hash>, paths: seq<Hash>, p: Hash) returns (root: Hash)
    requires Reaches(refs, Roots(paths), p)
    ensures root in paths && Reaches(refs, {root}, p)
  {
    var t :| t != [] && t[0] in Roots(paths) && t[|t| - 1] == p && Trace(refs, t);
    root := t[0];
    assert t[0] in {root};
  }

  lemma MoreRoots(refs: Hash -> set<Hash>, a: set<Hash>, b: set<Hash>, p: Hash)
    requires a <= b && Reaches(refs, a, p)
    ensures Reaches(refs, b, p)
  {
    var t :| t != [] && t[0] in a && t[|t| - 1] == p && Trace(refs, t);
    assert t[0] in b;
  }

  /** What is known of a batch upstream: the paths it has, and whether the official cache confirms that
      one it has not is gone for good; or that one is; or nothing. */
  datatype Upstream = Known(available: set<Hash>, confirms: bool) | Removed | Error

  datatype Update = PublishedNow | Unavailable | Kept | Crashed

  class Mirror {
    const facts: Facts
    const skip: Hash -> bool
    const pathBatch: nat
    /** Whether downloads and unlinks may fail. */
    const faults: bool
    var disk: Disk
    var failure: bool
    ghost var history: seq<Disk>

    /** On what an earlier run left; with nothing published and nothing pending any store will do. */
    constructor (facts: Facts, skip: Hash -> bool, pathBatch: nat, faults: bool, disk: Disk)
      requires pathBatch > 0 && (Sound(facts, skip, disk) || (disk.published == map[] && disk.pending == map[]))
      ensures Valid() && this.facts == facts && this.skip == skip && this.pathBatch == pathBatch
              && this.faults == faults
      ensures this.disk == disk && !failure && history == [disk]
    {
      this.facts, this.skip, this.pathBatch, this.faults := facts, skip, pathBatch, faults;
      this.disk, failure, history := disk, false, [disk];
    }

    ghost predicate Valid()
      reads this
    {
      && pathBatch > 0 && history != [] && history[|history| - 1] == disk
      && forall i | 0 <= i < |history| :: Sound(facts, skip, history[i])
    }

    /** One atomic change on disk. */
    method Commit(d: Disk)
      requires Valid() && Sound(facts, skip, d)
      modifies this`disk, this`history
      ensures Valid() && disk == d && old(history) <= history
    {
      disk, history := d, history + [d];
    }

    /** `clone_channels` for one channel: the release directory is filled, then named as the one
        to update to. A published release is never written to. */
    method Stage(r: Release, info: Info, hashFails: bool)
      requires Valid()
      modifies this`disk, this`failure, this`history
      ensures Valid() && old(history) <= history
      ensures disk.published == old(disk).published && disk.store == old(disk).store
      ensures disk.pending == if r in old(disk).published.Values || hashFails then old(disk).pending
                              else old(disk).pending[r.channel := r]
      ensures var fills := r !in old(disk).published.Values
                           && !(r.channel in old(disk).pending && old(disk).pending[r.channel] == r);
              && failure == (old(failure) || (fills && hashFails))
              && disk.releases.Keys == old(disk).releases.Keys + (if fills then {r} else {})
              && (forall x | x in old(disk).releases && !(x == r && fills) :: disk.releases[x] == old(disk).releases[x])
              && (fills ==>
                    disk.releases[r].paths == info.paths && disk.releases[r].time == info.time
                    && (disk.releases[r].complete <==> r in old(disk).releases && old(disk).releases[r].complete))
    {
      hide Sound;
      if r.channel in disk.published && disk.published[r.channel] == r {
        assert disk.published[r.channel] in disk.published.Values;
        return;
      }
      if r.channel in disk.pending && disk.pending[r.channel] == r { NotPublished(r); return; }
      NotPublished(r);
      var complete := r in disk.releases && disk.releases[r].complete;
      Filled(facts, skip, disk, r, info.(complete := complete));
      Commit(disk.(releases := disk.releases[r := info.(complete := complete)]));
      if hashFails { failure := true; return; }
      Commit(disk.(pending := disk.pending[r.channel := r]));
    }

    lemma NotPublished(r: Release)
      requires Valid() && !(r.channel in disk.published && disk.published[r.channel] == r)
      ensures forall c | c in disk.published :: disk.published[c] != r
    {
      assert forall c | c in disk.published :: PublishedWhole(facts, skip, disk, c);
    }

    /** One channel of `update_channels`. Its pending release is published only if the closure of
        every batch was read and every file of it is in the store. */
    method UpdateChannel(c: string, upstream: nat -> Upstream) returns (u: Update)
      requires Valid() && c in disk.pending
      modifies this`disk, this`failure, this`history
      ensures Valid() && old(history) <= history && disk.releases.Keys == old(disk).releases.Keys
      ensures disk.published == if u.PublishedNow? then old(disk).published[c := old(disk).pending[c]]
                                else old(disk).published
      ensures disk.pending == if u.PublishedNow? || u.Unavailable? then old(disk).pending - {c} else old(disk).pending
      ensures failure == (old(failure) || u.Kept?) || u.Crashed?
      ensures old(disk).store <= disk.store
      ensures forall x | x in disk.releases ::
                var done := u.PublishedNow? && x == old(disk).pending[c];
                disk.releases[x] == old(disk).releases[x].(complete := old(disk).releases[x].complete || done)
      ensures var info := old(disk).releases[old(disk).pending[c]];
              && (u.Unavailable? <==> exists k :: FirstBroken(facts, Wanted(skip, info.paths), pathBatch, upstream, k)
                                                  && GivenUp(upstream(k)))
              && (u.PublishedNow? ==> forall k :: !Broken(facts, Wanted(skip, info.paths), pathBatch, upstream, k))
              && (!faults ==> !u.Crashed? && (u.Kept? ==>
                    exists k :: FirstBroken(facts, Wanted(skip, info.paths), pathBatch, upstream, k)))
              && (u.PublishedNow? ==> forall p | Asked(facts, skip, info, p) ::
                    Narinfo(p) in disk.store && Nar(facts.url(p)) in disk.store)
              && (forall f | f in disk.store && f !in old(disk).store ::
                    exists p :: Asked(facts, skip, info, p) && (f == Narinfo(p) || f == Nar(facts.url(p))))
    {
      hide Whole, PublishedWhole, Covers, InJobs, NoneTwice, NarsFirst, Needed, Flat, Broken, FirstBroken, Asked,
          Wanted;
      var release := disk.pending[c];
      PendingFact(c);
      var paths := Wanted(skip, disk.releases[release].paths);
      var plan := Closures(paths, upstream);
      if plan.Gone? {
        Abandoned(facts, skip, disk, c);
        Commit(disk.(pending := disk.pending - {c}));
        return Unavailable;
      }
      if plan.Unread? { failure := true; return Kept; }
      var ok, crashed;
      ghost var failed;
      ok, crashed, failed := Fetch(plan.jobs);
      NewAsked(facts, skip, old(disk).releases[release], plan.jobs, old(disk).store, disk.store);
      if crashed { return Crashed; }
      if !ok { failure := true; return Kept; }
      ToPublish(facts, skip, disk, c, plan.jobs);
      AskedStored(facts, skip, disk.releases[release], plan.jobs, disk.store);
      Commit(disk.(releases := disk.releases[release := disk.releases[release].(complete := true)]));
      Commit(disk.(published := disk.published[c := release], pending := disk.pending - {c}));
      return PublishedNow;
    }

    lemma PendingFact(c: string)
      requires Valid() && c in disk.pending
      ensures disk.pending[c].channel == c && disk.pending[c] in disk.releases
    {
    }

    /** The closure of the paths, batch by batch, as download jobs: all of it, nothing else and
        nothing twice, a nar before its narinfo. */
    method Closures(paths: seq<Hash>, upstream: nat -> Upstream) returns (plan: Todo)
      requires pathBatch > 0
      ensures plan.Jobs? ==>
                Covers(facts, plan.jobs, Roots(paths)) && NoneTwice(Flat(plan.jobs))
                && NarsFirst(plan.jobs)
      ensures plan.Jobs? ==> forall f | f in Flat(plan.jobs) :: Needed(facts, Roots(paths), f)
      ensures plan.Jobs? <==> forall k :: !Broken(facts, paths, pathBatch, upstream, k)
      ensures plan.Gone? <==> exists k :: FirstBroken(facts, paths, pathBatch, upstream, k) && GivenUp(upstream(k))
      ensures plan.Unread? <==> exists k :: FirstBroken(facts, paths, pathBatch, upstream, k) && !GivenUp(upstream(k))
    {
      hide Covers, InJobs, Needed, NoneTwice, NarsFirst, Reaches, Broken, FirstBroken, Reached;
      var jobs: seq<seq<File>>, seen: set<File>, lo, k: nat := [], {}, 0, 0;
      NothingCovered(facts);
      NoneReached(|paths|, pathBatch);
      while lo < |paths|
        invariant lo <= |paths| && Covers(facts, jobs, Roots(paths[..lo]))
        invariant Reached(|paths|, pathBatch, lo, k)
        invariant forall i | 0 <= i < k :: !Broken(facts, paths, pathBatch, upstream, i)
        invariant (forall f | f in seen :: InJobs(jobs, f)) && Tidy(jobs, seen)
        invariant forall f | f in seen :: Needed(facts, Roots(paths[..lo]), f)
        decreases |paths| - lo
      {
        var hi := if lo + pathBatch < |paths| then lo + pathBatch else |paths|;
        NextBatch(facts, paths, pathBatch, upstream, lo, k);
        OnlyFirst(facts, paths, pathBatch, upstream, k);
        match upstream(k) {
          case Removed => return Gone;
          case Error => return Unread;
          case Known(available, confirms) =>
            var closure := PathInfo(facts, available, Roots(paths[lo..hi]));
            if closure.None? { return if confirms then Gone else Unread; }
            ghost var before, known := jobs, seen;
            jobs, seen := AddJobs(closure.value, jobs, seen);
            StillNeeded(facts, paths, lo, hi, closure.value, known, seen);
            BatchCovered(facts, paths, lo, hi, closure.value, before, jobs);
        }
        lo, k := hi, k + 1;
      }
      assert paths[..lo] == paths;
      NoMore(facts, paths, pathBatch, upstream, lo, k);
      NoneFirst(facts, paths, pathBatch, upstream);
      return Jobs(jobs);
    }

    method AddJobs(closure: set<Hash>, jobs: seq<seq<File>>, seen: set<File>)
      returns (jobs2: seq<seq<File>>, seen2: set<File>)
      requires (forall f | f in seen :: InJobs(jobs, f)) && Tidy(jobs, seen)
      ensures (forall f | f in seen2 :: InJobs(jobs2, f)) && Tidy(jobs2, seen2)
      ensures jobs <= jobs2 && forall f | f in seen2 :: f in seen || FileOf(facts, closure, f)
      ensures forall p | p in closure :: InJobs(jobs2, Narinfo(p)) && InJobs(jobs2, Nar(facts.url(p)))
    {
      hide InJobs, Tidy;
      jobs2, seen2 := jobs, seen;
      var infos := closure;
      while infos != {}
        invariant infos <= closure && jobs <= jobs2 && Tidy(jobs2, seen2)
        invariant forall f | f in seen2 :: InJobs(jobs2, f)
        invariant forall f | f in seen2 :: f in seen || FileOf(facts, closure, f)
        invariant forall p | p in closure && p !in infos :: Narinfo(p) in seen2 && Nar(facts.url(p)) in seen2
        decreases |infos|
      {
        var p :| p in infos;
        infos := infos - {p};
        var one := OneJob(seen2, Nar(facts.url(p)), Narinfo(p));
        JobAdded(jobs2, one, seen2);
        StaysTidy(jobs2, seen2, Nar(facts.url(p)), Narinfo(p));
        if one != [] { jobs2 := jobs2 + [one]; }
        seen2 := seen2 + {Nar(facts.url(p)), Narinfo(p)};
      }
    }

    /** The thread pool: jobs advance in any order, a file already there is skipped, a failed
        download ends its job, any other error ends the run. */
    method Fetch(jobs: seq<seq<File>>) returns (ok: bool, crashed: bool, ghost failed: set<File>)
      requires Valid()
      modifies this`disk, this`failure, this`history
      ensures Valid() && old(history) <= history && old(disk).store <= disk.store
              && disk == old(disk).(store := disk.store)
      ensures ok ==> forall f | InJobs(jobs, f) :: f in disk.store
      ensures forall f | f in disk.store && f !in old(disk).store :: InJobs(jobs, f)
      ensures forall f | f in failed :: InJobs(jobs, f) && f !in old(disk).store
      ensures !faults ==> ok && !crashed
      ensures !crashed ==>
                && (ok <==> failed == {}) && (failure <==> old(failure) || !ok)
                && forall j, f | 0 <= j < |jobs| && f in jobs[j] && f !in disk.store ::
                     exists g :: g in failed && g in jobs[j]
    {
      hide Whole, PublishedWhole, Sound;
      var left := jobs;
      ok, crashed, failed := true, false, {};
      while exists k :: 0 <= k < |left| && left[k] != []
        invariant Valid() && old(history) <= history && old(disk).store <= disk.store
                  && disk == old(disk).(store := disk.store)
        invariant |left| == |jobs| && !crashed
        invariant forall f | f in disk.store && f !in old(disk).store :: InJobs(jobs, f)
        invariant forall f | f in failed :: InJobs(jobs, f) && f !in old(disk).store
        invariant (ok <==> failed == {}) && (failure <==> old(failure) || !ok) && (!faults ==> ok)
        invariant forall j, f | 0 <= j < |jobs| && f in left[j] :: f in jobs[j]
        invariant forall j, f | 0 <= j < |jobs| && f in jobs[j] && f !in left[j] && f !in disk.store ::
                    exists g :: g in failed && g in jobs[j]
        decreases Total(left)
      {
        var k :| 0 <= k < |left| && left[k] != [];
        var f, fatal: bool, works: bool := left[k][0], *, *;
        if faults && fatal && f !in disk.store { return false, true, failed; }
        Shorter(left, k, []);
        Shorter(left, k, left[k][1..]);
        assert left[k] == [f] + left[k][1..];
        if f in disk.store || works || !faults {
          Stored(facts, skip, disk, f);
          if f !in disk.store { Commit(disk.(store := disk.store + {f})); }
          left := left[k := left[k][1..]];
        } else {
          failure, ok, failed := true, false, failed + {f};
          left := left[k := []];
        }
      }
    }

    /** Mark: the releases to keep, which are the finished ones that are published, recent, or the
        newest of their channel. */
    method Alive(threshold: int) returns (alive: set<Release>, latest: map<string, Release>)
      ensures alive <= Finished(disk) && disk.published.Values * disk.releases.Keys <= alive
      ensures forall r | r in Finished(disk) && r !in alive :: Superseded(disk, alive, threshold, r)
      ensures NewestOf(disk, latest)
      ensures forall r :: r in alive <==> Keeps(disk, latest, threshold, r)
    {
      var completed := Finished(disk);
      var recent := set r | r in completed && disk.releases[r].time >= threshold;
      var todo := completed;
      latest := map[];
      while todo != {}
        invariant todo <= completed
        invariant forall c | c in latest :: latest[c] in completed && latest[c].channel == c
        invariant forall r | r in completed && r !in todo ::
                    r.channel in latest && disk.releases[latest[r.channel]].time >= disk.releases[r].time
        decreases |todo|
      {
        var r :| r in todo;
        todo := todo - {r};
        if r.channel !in latest || disk.releases[latest[r.channel]].time < disk.releases[r].time {
          latest := latest[r.channel := r];
        }
      }
      alive := disk.published.Values * completed + recent + latest.Values;
      forall r | r in completed && r !in alive ensures Superseded(disk, alive, threshold, r) {
        assert latest[r.channel] in latest.Values;
      }
    }

    /** The closure of every kept release in the local store; a gap anywhere refuses collection. */
    method LocalClosure(alive: set<Release>) returns (r: Option<set<Hash>>)
      requires pathBatch > 0 && alive <= disk.releases.Keys
      ensures r.Some? ==> forall p :: p in r.value <==> Live(facts, skip, disk, alive, p)
      ensures r.None? <==> exists a, p ::
                a in alive && Asked(facts, skip, disk.releases[a], p) && Narinfo(p) !in disk.store
    {
      hide Reaches, Live, Asked;
      var available := set f | f in disk.store && f.Narinfo? :: f.hash;
      assert forall p | p in available :: Narinfo(p) in disk.store;
      var todo, closure := alive, {};
      NothingLive(facts, skip, disk);
      assert alive - todo == {};
      while todo != {}
        invariant todo <= alive
        invariant forall p :: p in closure <==> Live(facts, skip, disk, alive - todo, p)
        invariant closure <= available
        decreases |todo|
      {
        var a :| a in todo;
        var one := ReleaseClosure(available, Wanted(skip, disk.releases[a].paths));
        if one.None? {
          GapAsked(facts, skip, disk, a);
          return None;
        }
        OneLive(facts, skip, disk, alive - todo, a, one.value, closure);
        assert alive - (todo - {a}) == alive - todo + {a};
        todo, closure := todo - {a}, closure + one.value;
      }
      assert alive - todo == alive;
      NoGap(facts, skip, disk, alive, closure);
      return Some(closure);
    }

    method ReleaseClosure(available: set<Hash>, paths: seq<Hash>) returns (r: Option<set<Hash>>)
      requires pathBatch > 0
      ensures r.Some? ==> r.value <= available && forall p :: p in r.value <==> Reaches(facts.refs, Roots(paths), p)
      ensures r.None? ==> exists p :: Reaches(facts.refs, Roots(paths), p) && p !in available
    {
      hide Reaches;
      var lo, closure: set<Hash> := 0, {};
      NoRoots(facts.refs);
      while lo < |paths|
        invariant lo <= |paths| && closure <= available
        invariant forall p :: p in closure <==> Reaches(facts.refs, Roots(paths[..lo]), p)
        decreases |paths| - lo
      {
        var hi := if lo + pathBatch < |paths| then lo + pathBatch else |paths|;
        var one := PathInfo(facts, available, Roots(paths[lo..hi]));
        BatchParts(facts.refs, paths, lo, hi);
        if one.None? || one.value == {} { return None; }
        BatchUnion(facts.refs, paths, lo, hi);
        lo, closure := hi, closure + one.value;
      }
      assert paths[..lo] == paths;
      return Some(closure);
    }

    /** `garbage_collect`. */
    method CollectGarbage(threshold: int, deleteOld: bool) returns (r: Collected, latest: map<string, Release>)
      requires Valid()
      modifies this`disk, this`history
      ensures Valid() && old(history) <= history
      ensures r.Suspended? <==> old(disk).pending != map[]
      ensures !r.Swept? || !deleteOld ==> disk == old(disk)
      ensures disk.published == old(disk).published && disk.store <= old(disk).store
              && disk.releases.Keys <= old(disk).releases.Keys
      ensures forall x | x in disk.releases :: disk.releases[x] == old(disk).releases[x]
      ensures forall x | x in old(disk).releases && x !in disk.releases ::
                Superseded(old(disk), disk.releases.Keys, threshold, x)
      ensures !r.Suspended? ==>
                && NewestOf(old(disk), latest)
                && (r.Refused? <==> exists x, p :: Keeps(old(disk), latest, threshold, x)
                                                   && Asked(facts, skip, old(disk).releases[x], p)
                                                   && Narinfo(p) !in old(disk).store)
      ensures !faults && r.Swept? ==> r.clean
      ensures r.Swept? && deleteOld ==> Retained(facts, skip, old(disk), disk, latest, threshold)
      ensures r.Swept? && deleteOld && r.clean ==> OnlyKept(facts, skip, old(disk), disk, latest, threshold)
    {
      hide Reaches, Sound, Live, OnlyKept, Retained, Asked, Wanted, Keeps, NewestOf;
      latest := map[];
      if disk.pending != map[] { return Suspended, latest; }
      var alive;
      alive, latest := Alive(threshold);
      var closure := LocalClosure(alive);
      if closure.None? { return Refused, latest; }
      if !deleteOld { return Swept(true), latest; }
      NothingNeeded(facts, skip, disk, alive, closure.value);
      ghost var before := disk;
      var clean := Sweep(closure.value);
      ClosureKept(facts, skip, before, disk, alive, closure.value);
      var obsolete := Finished(disk) - alive;
      ReleasesDropped(facts, skip, disk, obsolete);
      if obsolete != {} { Commit(disk.(releases := disk.releases - obsolete)); }
      assert disk.releases == before.releases - obsolete;
      KeptRetained(facts, skip, before, disk, alive, closure.value, latest, threshold);
      if clean { SweptClean(facts, skip, before, disk, alive, closure.value, latest, threshold); }
      return Swept(clean), latest;
    }

    /** Unlink narinfos, then nars, outside the closure; a failed unlink is passed over. */
    method Sweep(closure: set<Hash>) returns (clean: bool)
      requires Valid() && Spared(facts, skip, disk, closure)
      modifies this`disk, this`history
      ensures Valid() && old(history) <= history && disk == old(disk).(store := disk.store)
              && disk.store <= old(disk).store
      ensures Spared(facts, skip, disk, closure)
      ensures (clean ==> forall f | f in disk.store :: !Garbage(facts, closure, f)) && (!faults ==> clean)
      ensures forall p | p in closure ::
                && (Narinfo(p) in old(disk).store ==> Narinfo(p) in disk.store)
                && (Nar(facts.url(p)) in old(disk).store ==> Nar(facts.url(p)) in disk.store)
    {
      hide Sound, Spared, Garbage;
      var todo := set f | f in disk.store && Garbage(facts, closure, f);
      clean := true;
      while todo != {}
        invariant Valid() && old(history) <= history && disk == old(disk).(store := disk.store)
                  && disk.store <= old(disk).store
        invariant Spared(facts, skip, disk, closure) && todo <= disk.store
        invariant forall f | f in old(disk).store && f !in disk.store :: Garbage(facts, closure, f)
        invariant forall f | f in todo :: Garbage(facts, closure, f)
        invariant clean ==> forall f | f in disk.store && f !in todo :: !Garbage(facts, closure, f)
        invariant !faults ==> clean
        decreases |todo|
      {
        var f :| f in todo && (f.Narinfo? || forall g | g in todo :: !g.Narinfo?);
        todo := todo - {f};
        var unlinkFails: bool := *;
        if faults && unlinkFails {
          clean := false;
        } else {
          Unlinked(facts, skip, disk, closure, f);
          Commit(disk.(store := disk.store - {f}));
        }
      }
      NeededStays(facts, closure, old(disk).store, disk.store);
    }
  }

  datatype Todo = Gone | Unread | Jobs(jobs: seq<seq<File>>)

  /** The `k`th batch of paths. */
  function Batch(paths: seq<Hash>, size: nat, k: nat): seq<Hash>
    requires k * size < |paths|
  {
    paths[k * size..if k * size + size < |paths| then k * size + size else |paths|]
  }

  /** The closure of the `k`th batch cannot be had: the call fails, or part of it is missing. */
  ghost predicate Broken(facts: Facts, paths: seq<Hash>, size: nat, upstream: nat -> Upstream, k: nat) {
    && k * size < |paths|
    && match upstream(k)
       case Known(available, _) => exists p :: Reaches(facts.refs, Roots(Batch(paths, size, k)), p) && p !in available
       case _ => true
  }

  /** The update stops here. */
  ghost predicate FirstBroken(facts: Facts, paths: seq<Hash>, size: nat, upstream: nat -> Upstream, k: nat) {
    && Broken(facts, paths, size, upstream, k)
    && forall i | 0 <= i < k :: !Broken(facts, paths, size, upstream, i)
  }

  /** Upstream has dropped what is missing. */
  predicate GivenUp(u: Upstream) { u.Removed? || (u.Known? && u.confirms) }

  lemma OnlyFirst(facts: Facts, paths: seq<Hash>, size: nat, upstream: nat -> Upstream, k: nat)
    requires forall i | 0 <= i < k :: !Broken(facts, paths, size, upstream, i)
    ensures FirstBroken(facts, paths, size, upstream, k) <==> Broken(facts, paths, size, upstream, k)
    ensures Broken(facts, paths, size, upstream, k) ==>
              forall i: nat :: FirstBroken(facts, paths, size, upstream, i) ==> i == k
  {
    hide Broken;
  }

  lemma NoneFirst(facts: Facts, paths: seq<Hash>, size: nat, upstream: nat -> Upstream)
    requires forall i: nat :: !Broken(facts, paths, size, upstream, i)
    ensures forall i: nat :: !FirstBroken(facts, paths, size, upstream, i)
  {
    hide Broken;
  }

  ghost predicate Reached(n: nat, size: nat, lo: nat, k: nat) {
    if lo < n then lo == k * size else n <= k * size
  }

  lemma NoneReached(n: nat, size: nat)
    ensures Reached(n, size, 0, 0)
  {
  }

  lemma NextBatch(facts: Facts, paths: seq<Hash>, size: nat, upstream: nat -> Upstream, lo: nat, k: nat)
    requires size > 0 && lo < |paths| && Reached(|paths|, size, lo, k)
    ensures var hi := if lo + size < |paths| then lo + size else |paths|;
            && Reached(|paths|, size, hi, k + 1)
            && (!upstream(k).Known? ==> Broken(facts, paths, size, upstream, k))
            && (upstream(k).Known? ==>
                  (Broken(facts, paths, size, upstream, k) <==>
                   exists p :: Reaches(facts.refs, Roots(paths[lo..hi]), p) && p !in upstream(k).available))
  {
    hide Reaches;
    var hi := if lo + size < |paths| then lo + size else |paths|;
    assert (k + 1) * size == k * size + size && Batch(paths, size, k) == paths[lo..hi];
  }

  lemma NoMore(facts: Facts, paths: seq<Hash>, size: nat, upstream: nat -> Upstream, lo: nat, k: nat)
    requires Reached(|paths|, size, lo, k) && lo >= |paths|
    requires forall i | 0 <= i < k :: !Broken(facts, paths, size, upstream, i)
    ensures forall i: nat :: !Broken(facts, paths, size, upstream, i)
  {
    forall i: nat ensures !Broken(facts, paths, size, upstream, i) {
      if i >= k { assert i * size == k * size + (i - k) * size; }
    }
  }

  ghost predicate InJobs(jobs: seq<seq<File>>, f: File) { exists j :: 0 <= j < |jobs| && f in jobs[j] }

  /** Narinfo and nar of the whole closure are among the jobs. */
  ghost predicate Covers(facts: Facts, jobs: seq<seq<File>>, roots: set<Hash>) {
    forall p | Reaches(facts.refs, roots, p) :: InJobs(jobs, Narinfo(p)) && InJobs(jobs, Nar(facts.url(p)))
  }

  function Flat(jobs: seq<seq<File>>): seq<File> {
    if jobs == [] then [] else Flat(jobs[..|jobs| - 1]) + jobs[|jobs| - 1]
  }

  ghost predicate NoneTwice(files: seq<File>) { forall i, j | 0 <= i < j < |files| :: files[i] != files[j] }

  ghost predicate NarsFirst(jobs: seq<seq<File>>) {
    forall job: seq<File> | job in jobs :: 0 < |job| <= 2 && (|job| == 2 ==> job[0].Nar? && job[1].Narinfo?)
  }

  /** The jobs hold each file seen exactly once. */
  ghost predicate Tidy(jobs: seq<seq<File>>, seen: set<File>) {
    NoneTwice(Flat(jobs)) && NarsFirst(jobs) && forall f :: f in Flat(jobs) <==> f in seen
  }

  predicate FileOf(facts: Facts, closure: set<Hash>, f: File) {
    exists p | p in closure :: f == Narinfo(p) || f == Nar(facts.url(p))
  }

  ghost predicate Needed(facts: Facts, roots: set<Hash>, f: File) {
    exists p :: Reaches(facts.refs, roots, p) && (f == Narinfo(p) || f == Nar(facts.url(p)))
  }

  lemma BothOnce(a: seq<File>, b: seq<File>)
    requires NoneTwice(a) && NoneTwice(b) && forall f | f in b :: f !in a
    ensures NoneTwice(a + b)
  {
    forall i, j | 0 <= i < j < |a + b| ensures (a + b)[i] != (a + b)[j] {
      if i < |a| <= j { assert b[j - |a|] in b && a[i] in a; }
    }
  }

  /** The job for one path: what of it has not been seen. */
  function OneJob(seen: set<File>, nar: File, info: File): seq<File> {
    (if nar in seen then [] else [nar]) + (if info in seen then [] else [info])
  }

  lemma JobUnseen(seen: set<File>, nar: File, info: File)
    requires nar.Nar? && info.Narinfo?
    ensures var one := OneJob(seen, nar, info);
            && NoneTwice(one) && |one| <= 2 && (|one| == 2 ==> one == [nar, info])
            && forall f :: f in one <==> f in {nar, info} && f !in seen
  {
  }

  lemma JobFlat(jobs: seq<seq<File>>, one: seq<File>)
    ensures Flat(jobs + [one]) == Flat(jobs) + one
  {
    assert (jobs + [one])[..|jobs|] == jobs;
  }

  lemma StaysTidy(jobs: seq<seq<File>>, seen: set<File>, nar: File, info: File)
    requires Tidy(jobs, seen) && nar.Nar? && info.Narinfo?
    ensures var one := OneJob(seen, nar, info); Tidy(if one == [] then jobs else jobs + [one], seen + {nar, info})
  {
    hide OneJob, NoneTwice, Flat;
    var one := OneJob(seen, nar, info);
    JobUnseen(seen, nar, info);
    if one != [] {
      JobFlat(jobs, one);
      BothOnce(Flat(jobs), one);
    } else {
      assert nar !in one && info !in one;
    }
  }

  lemma StillNeeded(facts: Facts, paths: seq<Hash>, lo: nat, hi: nat, closure: set<Hash>, seen: set<File>,
                    seen2: set<File>)
    requires lo <= hi <= |paths| && forall p :: p in closure <==> Reaches(facts.refs, Roots(paths[lo..hi]), p)
    requires forall f | f in seen :: Needed(facts, Roots(paths[..lo]), f)
    requires forall f | f in seen2 :: f in seen || FileOf(facts, closure, f)
    ensures forall f | f in seen2 :: Needed(facts, Roots(paths[..hi]), f)
  {
    hide Reaches;
    forall f | f in seen2 ensures Needed(facts, Roots(paths[..hi]), f) {
      assert paths[..hi] == paths[..lo] + paths[lo..hi];
      if f in seen {
        var p :| Reaches(facts.refs, Roots(paths[..lo]), p) && (f == Narinfo(p) || f == Nar(facts.url(p)));
        MoreRoots(facts.refs, Roots(paths[..lo]), Roots(paths[..hi]), p);
      } else {
        var p :| p in closure && (f == Narinfo(p) || f == Nar(facts.url(p)));
        MoreRoots(facts.refs, Roots(paths[lo..hi]), Roots(paths[..hi]), p);
      }
    }
  }

  function Total(jobs: seq<seq<File>>): nat { if jobs == [] then 0 else |jobs[0]| + Total(jobs[1..]) }

  lemma {:induction false} Shorter(jobs: seq<seq<File>>, k: nat, job: seq<File>)
    requires k < |jobs| && |job| < |jobs[k]|
    ensures Total(jobs[k := job]) < Total(jobs)
  {
    if k == 0 {
      assert jobs[k := job][1..] == jobs[1..];
    } else {
      Shorter(jobs[1..], k - 1, job);
      assert jobs[k := job][1..] == jobs[1..][k - 1 := job];
    }
  }

  lemma NothingCovered(facts: Facts)
    ensures Covers(facts, [], Roots([])) && Tidy([], {})
  {
  }

  lemma JobAdded(jobs: seq<seq<File>>, one: seq<File>, seen: set<File>)
    requires forall f | f in seen :: InJobs(jobs, f)
    ensures forall f | f in seen || f in one :: InJobs(jobs + [one], f)
  {
    forall f | f in seen || f in one ensures InJobs(jobs + [one], f) {
      if f in one {
        assert (jobs + [one])[|jobs|] == one;
      } else {
        var j :| 0 <= j < |jobs| && f in jobs[j];
        assert (jobs + [one])[j] == jobs[j];
      }
    }
  }

  lemma BatchCovered(facts: Facts, paths: seq<Hash>, lo: nat, hi: nat, closure: set<Hash>, jobs: seq<seq<File>>,
                     jobs2: seq<seq<File>>)
    requires lo <= hi <= |paths| && jobs <= jobs2 && Covers(facts, jobs, Roots(paths[..lo]))
    requires forall p :: p in closure <==> Reaches(facts.refs, Roots(paths[lo..hi]), p)
    requires forall p | p in closure :: InJobs(jobs2, Narinfo(p)) && InJobs(jobs2, Nar(facts.url(p)))
    ensures Covers(facts, jobs2, Roots(paths[..hi]))
  {
    hide Reaches;
    forall p | Reaches(facts.refs, Roots(paths[..hi]), p)
      ensures InJobs(jobs2, Narinfo(p)) && InJobs(jobs2, Nar(facts.url(p))) {
      var root := BatchReaches(facts.refs, paths[..hi], p);
      assert paths[..hi] == paths[..lo] + paths[lo..hi];
      if root in paths[..lo] {
        MoreRoots(facts.refs, {root}, Roots(paths[..lo]), p);
        assert forall f | InJobs(jobs, f) :: InJobs(jobs2, f);
      } else {
        MoreRoots(facts.refs, {root}, Roots(paths[lo..hi]), p);
      }
    }
  }

  lemma Stored(facts: Facts, skip: Hash -> bool, d: Disk, f: File)
    requires Sound(facts, skip, d)
    ensures Sound(facts, skip, d.(store := d.store + {f}))
  {
    hide Reaches;
    forall c | c in d.published ensures PublishedWhole(facts, skip, d.(store := d.store + {f}), c) {
      assert PublishedWhole(facts, skip, d, c);
    }
  }

  /** Filling the directory of a release nothing is published from, and pointing its channel's update
      at it, takes nothing from any channel. */
  lemma Filled(facts: Facts, skip: Hash -> bool, d: Disk, r: Release, info: Info)
    requires Sound(facts, skip, d) && forall c | c in d.published :: d.published[c] != r
    ensures var d2 := d.(releases := d.releases[r := info]);
            Sound(facts, skip, d2) && Sound(facts, skip, d2.(pending := d2.pending[r.channel := r]))
  {
    hide Whole;
    var d2 := d.(releases := d.releases[r := info]);
    var d3 := d2.(pending := d2.pending[r.channel := r]);
    forall c | c in d.published ensures PublishedWhole(facts, skip, d2, c) && PublishedWhole(facts, skip, d3, c) {
      assert PublishedWhole(facts, skip, d, c);
    }
  }

  lemma Abandoned(facts: Facts, skip: Hash -> bool, d: Disk, c: string)
    requires Sound(facts, skip, d)
    ensures Sound(facts, skip, d.(pending := d.pending - {c}))
  {
    hide Whole;
    forall x | x in d.published ensures PublishedWhole(facts, skip, d.(pending := d.pending - {c}), x) {
      assert PublishedWhole(facts, skip, d, x);
    }
  }

  lemma ToPublish(facts: Facts, skip: Hash -> bool, d: Disk, c: string, jobs: seq<seq<File>>)
    requires Sound(facts, skip, d) && c in d.pending
    requires d.pending[c] in d.releases && Covers(facts, jobs, Roots(Wanted(skip, d.releases[d.pending[c]].paths)))
    requires forall f | InJobs(jobs, f) :: f in d.store
    ensures var r := d.pending[c];
            var d1 := d.(releases := d.releases[r := d.releases[r].(complete := true)]);
            Sound(facts, skip, d1) && Sound(facts, skip,
                                            d1.(published := d1.published[c := r], pending := d1.pending - {c}))
  {
    hide Reaches, InJobs;
    var r := d.pending[c];
    var d1 := d.(releases := d.releases[r := d.releases[r].(complete := true)]);
    var d2 := d1.(published := d1.published[c := r], pending := d1.pending - {c});
    forall x | x in d.published ensures PublishedWhole(facts, skip, d1, x) { assert PublishedWhole(facts, skip, d, x); }
    forall x | x in d2.published ensures PublishedWhole(facts, skip, d2, x) {
      if x != c { assert PublishedWhole(facts, skip, d1, x); }
    }
  }

  lemma {:induction false} InFlat(jobs: seq<seq<File>>, f: File)
    ensures InJobs(jobs, f) <==> f in Flat(jobs)
  {
    if jobs != [] {
      var n := |jobs| - 1;
      InFlat(jobs[..n], f);
      if InJobs(jobs, f) {
        var j :| 0 <= j < |jobs| && f in jobs[j];
        if j < n { assert f in jobs[..n][j]; }
      } else {
        assert f !in jobs[n];
        assert forall j | 0 <= j < n :: jobs[..n][j] == jobs[j];
      }
    }
  }

  /** What is fetched is asked for. */
  lemma NewAsked(facts: Facts, skip: Hash -> bool, info: Info, jobs: seq<seq<File>>, store: set<File>,
                 store2: set<File>)
    requires forall f | f in Flat(jobs) :: Needed(facts, Roots(Wanted(skip, info.paths)), f)
    requires forall f | f in store2 && f !in store :: InJobs(jobs, f)
    ensures forall f | f in store2 && f !in store ::
              exists p :: Asked(facts, skip, info, p) && (f == Narinfo(p) || f == Nar(facts.url(p)))
  {
    hide Reaches, Asked, InJobs, Flat;
    forall f | f in store2 && f !in store
      ensures exists p :: Asked(facts, skip, info, p) && (f == Narinfo(p) || f == Nar(facts.url(p))) {
      InFlat(jobs, f);
      var p :| Reaches(facts.refs, Roots(Wanted(skip, info.paths)), p) && (f == Narinfo(p) || f == Nar(facts.url(p)));
      AskedIff(facts, skip, info, p);
    }
  }

  lemma AskedStored(facts: Facts, skip: Hash -> bool, info: Info, jobs: seq<seq<File>>, store: set<File>)
    requires Covers(facts, jobs, Roots(Wanted(skip, info.paths))) && forall f | InJobs(jobs, f) :: f in store
    ensures forall p | Asked(facts, skip, info, p) :: Narinfo(p) in store && Nar(facts.url(p)) in store
  {
    hide Reaches, Asked, InJobs;
    forall p | Asked(facts, skip, info, p) ensures Narinfo(p) in store && Nar(facts.url(p)) in store {
      AskedIff(facts, skip, info, p);
    }
  }

  // --- collection ----------------------------------------------------------------------------------

  datatype Collected = Suspended | Refused | Swept(clean: bool)

  /** Releases that finished downloading, or are published. */
  function Finished(d: Disk): set<Release> {
    set r | r in d.releases && (d.releases[r].complete || r in d.published.Values)
  }

  /** The newest finished release of each channel that has one. */
  ghost predicate NewestOf(d: Disk, latest: map<string, Release>) {
    && (forall r | r in d.releases && (d.releases[r].complete || r in d.published.Values) ::
          && r.channel in latest && latest[r.channel] in d.releases
          && d.releases[latest[r.channel]].time >= d.releases[r].time)
    && (forall c | c in latest ::
          && latest[c].channel == c && latest[c] in d.releases
          && (d.releases[latest[c]].complete || latest[c] in d.published.Values))
  }

  /** The release finished downloading or is published, and is published, recent, or the newest of
      its channel. */
  ghost predicate Keeps(d: Disk, latest: map<string, Release>, threshold: int, r: Release) {
    && r in d.releases && (d.releases[r].complete || r in d.published.Values)
    && (r in d.published.Values || d.releases[r].time >= threshold || (r.channel in latest && latest[r.channel] == r))
  }

  /** Old, not published, and no newer than another kept release of its channel. */
  ghost predicate Superseded(d: Disk, kept: set<Release>, threshold: int, r: Release)
    requires r in d.releases
  {
    && r !in d.published.Values && d.releases[r].time < threshold
    && exists n | n in kept && n in d.releases :: n.channel == r.channel && d.releases[n].time >= d.releases[r].time
  }

  /** Some kept release needs `p`. */
  ghost predicate Live(facts: Facts, skip: Hash -> bool, d: Disk, kept: set<Release>, p: Hash) {
    exists r | r in kept && r in d.releases :: Reaches(facts.refs, Roots(Wanted(skip, d.releases[r].paths)), p)
  }

  /** What a collection leaves: the kept releases and those that never finished, and all the kept
      ones ask for. */
  ghost predicate Retained(facts: Facts, skip: Hash -> bool, d: Disk, d2: Disk, latest: map<string, Release>,
                           threshold: int)
  {
    && (forall r :: r in d2.releases <==>
          r in d.releases
          && (Keeps(d, latest, threshold, r) || (!d.releases[r].complete && r !in d.published.Values)))
    && (forall r, p | Keeps(d, latest, threshold, r) && Asked(facts, skip, d.releases[r], p) ::
          Narinfo(p) in d2.store && (Nar(facts.url(p)) in d.store ==> Nar(facts.url(p)) in d2.store))
  }

  /** Every narinfo and nar in the store is asked for by a kept release. */
  ghost predicate OnlyKept(facts: Facts, skip: Hash -> bool, d: Disk, d2: Disk, latest: map<string, Release>,
                           threshold: int)
  {
    forall f | f in d2.store ::
      exists r, p ::
        && Keeps(d, latest, threshold, r) && Asked(facts, skip, d.releases[r], p)
        && (f == Narinfo(p) || f == Nar(facts.url(p)))
  }

  predicate Garbage(facts: Facts, closure: set<Hash>, f: File) {
    match f
    case Narinfo(p) => p !in closure
    case Nar(u) => forall p | p in closure :: facts.url(p) != u
  }

  /** The closure holds all that published releases need. */
  ghost predicate Spared(facts: Facts, skip: Hash -> bool, d: Disk, closure: set<Hash>) {
    forall c, p | c in d.published && d.published[c] in d.releases
                  && Reaches(facts.refs, Roots(Wanted(skip, d.releases[d.published[c]].paths)), p) :: p in closure
  }

  lemma NothingLive(facts: Facts, skip: Hash -> bool, d: Disk)
    ensures forall p :: !Live(facts, skip, d, {}, p)
  {
  }

  lemma OneLive(facts: Facts, skip: Hash -> bool, d: Disk, kept: set<Release>, r: Release, one: set<Hash>,
                closure: set<Hash>)
    requires r in d.releases && forall p ::
               p in one <==> Reaches(facts.refs, Roots(Wanted(skip, d.releases[r].paths)), p)
    requires forall p :: p in closure <==> Live(facts, skip, d, kept, p)
    ensures forall p :: p in closure + one <==> Live(facts, skip, d, kept + {r}, p)
  {
    hide Reaches;
  }

  lemma GapAsked(facts: Facts, skip: Hash -> bool, d: Disk, a: Release)
    requires a in d.releases
    requires exists p :: Reaches(facts.refs, Roots(Wanted(skip, d.releases[a].paths)), p) && Narinfo(p) !in d.store
    ensures exists p :: Asked(facts, skip, d.releases[a], p) && Narinfo(p) !in d.store
  {
    hide Reaches, Asked;
    var p :| Reaches(facts.refs, Roots(Wanted(skip, d.releases[a].paths)), p) && Narinfo(p) !in d.store;
    AskedIff(facts, skip, d.releases[a], p);
  }

  lemma NoGap(facts: Facts, skip: Hash -> bool, d: Disk, kept: set<Release>, closure: set<Hash>)
    requires kept <= d.releases.Keys && forall p :: p in closure <==> Live(facts, skip, d, kept, p)
    ensures forall a, p | a in kept && Asked(facts, skip, d.releases[a], p) :: p in closure
    ensures forall p | p in closure :: exists a :: a in kept && Asked(facts, skip, d.releases[a], p)
  {
    hide Reaches, Asked;
    forall a, p | a in kept && Asked(facts, skip, d.releases[a], p) ensures p in closure {
      AskedIff(facts, skip, d.releases[a], p);
    }
    forall p | p in closure ensures exists a :: a in kept && Asked(facts, skip, d.releases[a], p) {
      var a :| a in kept && a in d.releases && Reaches(facts.refs, Roots(Wanted(skip, d.releases[a].paths)), p);
      AskedIff(facts, skip, d.releases[a], p);
    }
  }

  /** A batch is not empty, and what it reaches all the paths reach. */
  lemma BatchParts(refs: Hash -> set<Hash>, paths: seq<Hash>, lo: nat, hi: nat)
    requires lo < hi <= |paths|
    ensures Reaches(refs, Roots(paths[lo..hi]), paths[lo])
    ensures forall p | Reaches(refs, Roots(paths[lo..hi]), p) :: Reaches(refs, Roots(paths), p)
  {
    hide Reaches;
    assert paths[lo..hi][0] == paths[lo];
    RootReached(refs, Roots(paths[lo..hi]), paths[lo]);
    forall p | Reaches(refs, Roots(paths[lo..hi]), p) ensures Reaches(refs, Roots(paths), p) {
      MoreRoots(refs, Roots(paths[lo..hi]), Roots(paths), p);
    }
  }

  lemma NoRoots(refs: Hash -> set<Hash>)
    ensures forall p :: !Reaches(refs, Roots([]), p)
  {
  }

  lemma BatchUnion(refs: Hash -> set<Hash>, paths: seq<Hash>, lo: nat, hi: nat)
    requires lo <= hi <= |paths|
    ensures forall p :: Reaches(refs, Roots(paths[..hi]), p) <==>
              Reaches(refs, Roots(paths[..lo]), p) || Reaches(refs, Roots(paths[lo..hi]), p)
  {
    hide Reaches;
    assert paths[..hi] == paths[..lo] + paths[lo..hi];
    forall p
      ensures Reaches(refs, Roots(paths[..hi]), p) <==>
                Reaches(refs, Roots(paths[..lo]), p) || Reaches(refs, Roots(paths[lo..hi]), p) {
      if Reaches(refs, Roots(paths[..hi]), p) {
        var root := BatchReaches(refs, paths[..hi], p);
        MoreRoots(refs, {root}, if root in paths[..lo] then Roots(paths[..lo]) else Roots(paths[lo..hi]), p);
      }
      if Reaches(refs, Roots(paths[..lo]), p) { MoreRoots(refs, Roots(paths[..lo]), Roots(paths[..hi]), p); }
      if Reaches(refs, Roots(paths[lo..hi]), p) { MoreRoots(refs, Roots(paths[lo..hi]), Roots(paths[..hi]), p); }
    }
  }

  lemma NothingNeeded(facts: Facts, skip: Hash -> bool, d: Disk, alive: set<Release>, closure: set<Hash>)
    requires d.published.Values * d.releases.Keys <= alive
    requires forall p :: p in closure <==> Live(facts, skip, d, alive, p)
    ensures Spared(facts, skip, d, closure)
  {
    hide Reaches;
    forall c, p | c in d.published && d.published[c] in d.releases
                  && Reaches(facts.refs, Roots(Wanted(skip, d.releases[d.published[c]].paths)), p)
                       ensures p in closure {
      assert d.published[c] in d.published.Values * d.releases.Keys;
      assert Live(facts, skip, d, alive, p);
    }
  }

  lemma Unlinked(facts: Facts, skip: Hash -> bool, d: Disk, closure: set<Hash>, f: File)
    requires Sound(facts, skip, d) && Spared(facts, skip, d, closure) && Garbage(facts, closure, f)
    ensures var d2 := d.(store := d.store - {f}); Sound(facts, skip, d2) && Spared(facts, skip, d2, closure)
  {
    hide Reaches;
    var d2 := d.(store := d.store - {f});
    forall c | c in d.published ensures PublishedWhole(facts, skip, d2, c) {
      assert PublishedWhole(facts, skip, d, c);
    }
  }

  lemma ClosureKept(facts: Facts, skip: Hash -> bool, d: Disk, d2: Disk, alive: set<Release>, closure: set<Hash>)
    requires d2 == d.(store := d2.store)
    requires forall p :: p in closure <==> Live(facts, skip, d, alive, p)
    ensures forall p :: p in closure <==> Live(facts, skip, d2, alive, p)
  {
    hide Reaches;
  }

  lemma ReleasesDropped(facts: Facts, skip: Hash -> bool, d: Disk, obsolete: set<Release>)
    requires Sound(facts, skip, d) && d.pending == map[] && obsolete !! d.published.Values
    ensures Sound(facts, skip, d.(releases := d.releases - obsolete))
  {
    hide Whole;
    forall c | c in d.published ensures PublishedWhole(facts, skip, d.(releases := d.releases - obsolete), c) {
      assert PublishedWhole(facts, skip, d, c) && d.published[c] in d.published.Values;
    }
  }

  lemma NeededStays(facts: Facts, closure: set<Hash>, store: set<File>, store2: set<File>)
    requires forall f | f in store && f !in store2 :: Garbage(facts, closure, f)
    ensures forall p | p in closure ::
              && (Narinfo(p) in store ==> Narinfo(p) in store2)
              && (Nar(facts.url(p)) in store ==> Nar(facts.url(p)) in store2)
  {
  }

  lemma KeptRetained(facts: Facts, skip: Hash -> bool, d: Disk, d2: Disk, alive: set<Release>, closure: set<Hash>,
                     latest: map<string, Release>, threshold: int)
    requires alive <= Finished(d) && forall r :: r in alive <==> Keeps(d, latest, threshold, r)
    requires forall p :: p in closure <==> Live(facts, skip, d, alive, p)
    requires d2.releases == d.releases - (Finished(d) - alive)
    requires forall a, p | a in alive && Asked(facts, skip, d.releases[a], p) :: Narinfo(p) in d.store
    requires forall p | p in closure ::
               && (Narinfo(p) in d.store ==> Narinfo(p) in d2.store)
               && (Nar(facts.url(p)) in d.store ==> Nar(facts.url(p)) in d2.store)
    ensures Retained(facts, skip, d, d2, latest, threshold)
  {
    hide Reaches, Live, Asked, Keeps;
    NoGap(facts, skip, d, alive, closure);
  }

  lemma SweptClean(facts: Facts, skip: Hash -> bool, d: Disk, d2: Disk, alive: set<Release>, closure: set<Hash>,
                   latest: map<string, Release>, threshold: int)
    requires alive <= Finished(d) && forall r :: r in alive <==> Keeps(d, latest, threshold, r)
    requires forall p :: p in closure <==> Live(facts, skip, d, alive, p)
    requires forall f | f in d2.store :: !Garbage(facts, closure, f)
    ensures OnlyKept(facts, skip, d, d2, latest, threshold)
  {
    hide Reaches, Live, Asked, Keeps;
    NoGap(facts, skip, d, alive, closure);
    forall f | f in d2.store
      ensures exists r, p ::
          && Keeps(d, latest, threshold, r) && Asked(facts, skip, d.releases[r], p)
          && (f == Narinfo(p) || f == Nar(facts.url(p))) {
      var p :| p in closure && (f == Narinfo(p) || f == Nar(facts.url(p)));
      var r :| r in alive && Asked(facts, skip, d.releases[r], p);
    }
  }
}
