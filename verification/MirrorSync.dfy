/** A whole synchronisation (`Fetcher::sync`): crawl, plan, delete decision, execution. */
module MirrorSync {
  import opened Prelude
  import opened MirrorPlan
  import opened MirrorTree
  import opened MirrorApply
  import opened MirrorFacts
  import opened MirrorOffers
  import opened MirrorCrawl

  // --- from findings to a plan ----------------------------------------------------------

  datatype Planned = PlanError | Ready(plan: Plan, found: Found)

  /** The plan holds exactly what the crawl found, and deletes only on a complete listing. */
  ghost predicate PlanFor(env: Env, delete: bool, raw: Body -> nat, plan: Plan, found: Found) {
    && (forall p :: multiset(plan.downloads)[p] == found.finds[Download(p)])
    && (forall m :: m in plan.manifests <==> Publish(m.at, m.body) in found.finds && m.bytes == raw(m.body))
    && (forall l :: l in plan.links <==> MakeLink(l.at, l.target) in found.finds)
    && (plan.incomplete <==> Truncated in found.finds || ListingFailed in found.finds)
    && plan.totalSize == (if UnknownSize in found.finds then None else Some(found.sizeSum))
    && Extras(env, delete && !plan.incomplete, plan, found)
  }

  ghost predicate Extras(env: Env, delete: bool, plan: Plan, found: Found) {
    && (forall p :: p in plan.deletes <==> delete && p in env.fs && !env.fs[p].DirNode? && Obsolete(env, found, p))
    && (forall p :: p in plan.deleteDirs <==>
        delete && p in env.fs && env.fs[p].DirNode? && p != [] && Obsolete(env, found, p))
    && (forall i, j | 0 <= i < j < |plan.deleteDirs| :: |plan.deleteDirs[i]| >= |plan.deleteDirs[j]|)
  }

  /** Neither listed nor excluded. */
  ghost predicate Obsolete(env: Env, found: Found, p: Path) { !Excluded(env.hit, p) && Name(p) !in found.finds }

  method Downloads(found: Found) returns (downloads: seq<Path>)
    ensures forall p :: multiset(downloads)[p] == found.finds[Download(p)]
  {
    downloads := [];
    var todo := found.finds;
    while todo != multiset{}
      invariant forall p :: multiset(downloads)[p] + todo[Download(p)] == found.finds[Download(p)]
      decreases |todo|
    {
      var x :| x in todo;
      todo := todo - multiset{x};
      if x.Download? { downloads := downloads + [x.dest]; }
    }
  }

  method Manifests(found: Found, raw: Body -> nat) returns (manifests: seq<Manifest>)
    ensures forall m :: m in manifests <==> Publish(m.at, m.body) in found.finds && m.bytes == raw(m.body)
  {
    manifests := [];
    var todo := found.finds;
    while todo != multiset{}
      invariant todo <= found.finds
      invariant forall m | m in manifests :: Publish(m.at, m.body) in found.finds && m.bytes == raw(m.body)
      invariant forall m, b | Publish(m, b) in found.finds ::
                  Publish(m, b) in todo || Manifest(m, b, raw(b)) in manifests
      decreases |todo|
    {
      var x :| x in todo;
      todo := todo - multiset{x};
      if x.Publish? { manifests := manifests + [Manifest(x.manifest, x.body, raw(x.body))]; }
    }
  }

  method Links(found: Found) returns (links: seq<Link>)
    ensures forall l :: l in links <==> MakeLink(l.at, l.target) in found.finds
  {
    links := [];
    var todo := found.finds;
    while todo != multiset{}
      invariant todo <= found.finds
      invariant forall l | l in links :: MakeLink(l.at, l.target) in found.finds
      invariant forall p, t | MakeLink(p, t) in found.finds :: MakeLink(p, t) in todo || Link(p, t) in links
      decreases |todo|
    {
      var x :| x in todo;
      todo := todo - multiset{x};
      if x.MakeLink? { links := links + [Link(x.link, x.target)]; }
    }
  }

  method RemoteNames(found: Found) returns (remote: set<Path>)
    ensures forall p :: p in remote <==> Name(p) in found.finds
  {
    remote := {};
    var todo := found.finds;
    while todo != multiset{}
      invariant todo <= found.finds
      invariant forall p | p in remote :: Name(p) in found.finds
      invariant forall p | Name(p) in found.finds :: Name(p) in todo || p in remote
      decreases |todo|
    {
      var x :| x in todo;
      todo := todo - multiset{x};
      if x.Name? { remote := remote + {x.key}; }
    }
  }

  lemma NoneTwice(downloads: seq<Path>, found: Found)
    requires Once(found) && forall p :: multiset(downloads)[p] == found.finds[Download(p)]
    ensures forall i, j | 0 <= i < j < |downloads| :: downloads[i] != downloads[j]
    ensures AtMostOnce(downloads)
  {
    forall i, j | 0 <= i < j < |downloads| ensures downloads[i] != downloads[j] {
      assert downloads == downloads[..i] + [downloads[i]] + downloads[i + 1..j] + [downloads[j]] + downloads[j + 1..];
      assert multiset(downloads)[downloads[i]] <= 1;
    }
  }

  /** `Fetcher::plan`: an unreachable root, a bad manifest, or a delete asked for although some
      directory could not be listed, is an error. */
  method MakePlan(env: Env, depth: nat, threads: nat, delete: bool, raw: Body -> nat)
    returns (r: Planned, ghost listed: seq<Work>)
    requires WellFormed(env.fs)
    ensures r.PlanError? <==> Fetch(env, []).Unreachable? || Meets(env, listed, Invalid)
                              || (delete && Meets(env, listed, Unreachable))
    ensures r.Ready? && !r.found.Incomplete() ==>
              [] in Rels(listed) && Exhausts(env, r.found, Rels(listed), Rels(listed))
    ensures Fetch(env, []).Unreachable? ==> r.PlanError?
    ensures r.Ready? ==> PlanFor(env, delete, raw, r.plan, r.found)
    ensures r.Ready? ==> forall i, j | 0 <= i < j < |r.plan.downloads| :: r.plan.downloads[i] != r.plan.downloads[j]
    ensures r.Ready? ==> AtMostOnce(r.plan.downloads)
    ensures r.Ready? && delete ==> ListingFailed !in r.found.finds
    ensures r.Ready? ==> Grounded(env, r.found)
    ensures r.Ready? && SingleNames(env) ==> PartOf(r.found, Crawl(env, [], Least(depth, MAX_DEPTH)))
  {
    hide Crawl, Bounded, Stepwise, Once, AtMostOnce, Grounded, SingleNames, Exhausts, Meets, Rels;
    var crawl;
    ghost var peak;
    crawl, listed, peak := CrawlIndex(env, depth, threads);
    if !crawl.Crawled? { return PlanError, listed; }
    var found := crawl.found;
    var downloads := Downloads(found);
    NoneTwice(downloads, found);
    var manifests := Manifests(found, raw);
    var links := Links(found);
    var remote := RemoteNames(found);
    if delete && ListingFailed in found.finds { return PlanError, listed; }
    var deletes: set<Path>, dirs: seq<Path> := {}, [];
    if delete && !found.Incomplete() {
      deletes, dirs := LocalExtras(env.fs, remote, env.hit);
    }
    var total := if UnknownSize in found.finds then None else Some(found.sizeSum);
    r := Ready(Plan(downloads, manifests, deletes, dirs, links, found.Incomplete(), total), found);
  }

  // --- exclusions -------------------------------------------------------------------------------

  /** A plan has no business with a path that an exclusion hits, or that is in a directory it hits;
      it publishes manifests all the same. */
  lemma ExcludedIsLeft(env: Env, delete: bool, raw: Body -> nat, plan: Plan, found: Found, p: Path, k: nat)
    requires PlanFor(env, delete, raw, plan, found) && AllJustified(env, found)
    requires 1 <= k <= |p| && env.hit(p[..k])
    ensures p !in plan.downloads && p !in plan.deletes && p !in plan.deleteDirs
    ensures forall l | l in plan.links :: l.at != p
  {
    assert !Unhit(env.hit, p);
    UnhitIff(env.hit, p);
    hide Excluded, Unhit;
    if p in plan.downloads { NotDownloaded(env, raw, plan, found, p); }
    if l :| l in plan.links && l.at == p { LinkFact(env, found, l.at, l.target); }
  }

  lemma NotDownloaded(env: Env, raw: Body -> nat, plan: Plan, found: Found, p: Path)
    requires (forall q :: multiset(plan.downloads)[q] == found.finds[Download(q)]) && AllJustified(env, found)
    requires p in plan.downloads
    ensures Unhit(env.hit, p)
  {
    hide Unhit;
    assert multiset(plan.downloads)[p] > 0;
    DownloadFact(env, found, p);
  }

  /** What a plan deletes, by the exclusions alone: when asked to and having seen everything, each
      local file that no exclusion hits and that is not among the findings. */
  lemma DeletesAre(env: Env, delete: bool, raw: Body -> nat, plan: Plan, found: Found, p: Path)
    requires PlanFor(env, delete, raw, plan, found) && WellFormed(env.fs)
    ensures p in plan.deletes || p in plan.deleteDirs <==>
              && delete && Truncated !in found.finds && ListingFailed !in found.finds
              && p in env.fs && p != [] && Name(p) !in found.finds
              && forall k | 1 <= k <= |p| :: !env.hit(p[..k])
    ensures p in plan.deletes ==> Present(env.fs, p)
    ensures p in plan.deleteDirs ==> !Present(env.fs, p)
  {
    UnhitIff(env.hit, p);
  }

  /** In each of these trees a path that an exclusion hits, or that is in a directory it hits, is as it
      was, unless it is the name of a partial file of the run or of a manifest published. */
  ghost predicate LeavesExcluded(env: Env, job: Job, ts: seq<Tree>) {
    forall i, p | 0 <= i < |ts| && p in env.fs && !Unhit(env.hit, p) && !Scratch(job, p) && p !in ManifestPaths(job) ::
      p in ts[i] && ts[i][p] == env.fs[p]
  }

  lemma ExcludedStays(env: Env, delete: bool, raw: Body -> nat, found: Found, job: Job, ts: seq<Tree>)
    requires PlanFor(env, delete, raw, job.plan, found) && AllJustified(env, found) && job.start == env.fs
    requires AllSpared(job, ts)
    ensures LeavesExcluded(env, job, ts)
  {
    hide PlanFor, AllJustified, Scratch;
    forall i, p | 0 <= i < |ts| && p in env.fs && !Unhit(env.hit, p) && !Scratch(job, p) && p !in ManifestPaths(job)
      ensures p in ts[i] && ts[i][p] == env.fs[p]
    {
      var k :| 1 <= k <= |p| && env.hit(p[..k]);
      ExcludedIsLeft(env, delete, raw, job.plan, found, p, k);
      assert !Touched(job, p) && Spares(job, ts[i]);
    }
  }

  /** Upstream has been seen to the end: all that is offered on any way down from its root is known. */
  ghost predicate SeenAll(env: Env, found: Found) {
    forall chain, e | WayDown(env, chain) && Offers(env, chain[|chain| - 1], e) ::
      Name(chain[|chain| - 1] + e.path) in found.finds
  }

  lemma AllSeen(env: Env, found: Found, listed: set<Path>)
    requires AllJustified(env, found) && !found.Incomplete() && [] in listed && Exhausts(env, found, listed, listed)
    ensures SeenAll(env, found)
  {
    hide AllJustified, Exhausts, Offers;
    forall chain, e | WayDown(env, chain) && Offers(env, chain[|chain| - 1], e)
      ensures Name(chain[|chain| - 1] + e.path) in found.finds
    {
      EverythingTaken(env, found, listed, chain);
    }
  }

  /** All the crawl could find, or a part of it marked as truncated. */
  ghost predicate PartOf(found: Found, whole: Found) {
    found == whole || (found.finds <= whole.finds + multiset{Truncated} && found.Incomplete())
  }

  // --- what a synchronisation takes for granted -----------------------------------------------

  /** Listings that keep out of metadata directories; metadata directories whose files are neither
      excluded, nor named like partial files, nor in the place of a local directory;
      content-addressed paths that always serve their content; and a local mirror whose manifests
      are complete. */
  ghost predicate Ordinary(env: Env, served: Path -> Served, content: map<Path, Data>) {
    && MetadataApart(env)
    && (forall m, b | ManifestPath(env, m) && env.repomd(Parent(m)) == Some(b) && GoodManifest(b) ::
        PlainNames(env, m, b))
    && (forall m, b | ManifestPath(env, m) && Current(env.fs, m, b) :: NamesPresent(env.fs, m, b))
    && (forall p | p in content :: Addressed(env, served, content, p))
  }

  ghost predicate PlainNames(env: Env, m: Path, b: Body)
    requires m != [] && GoodManifest(b)
  {
    forall n | n in Named(b) ::
      && !ScratchName(n) && !Excluded(env.hit, Parent(m) + [n])
      && (Parent(m) + [n] in env.fs ==> Present(env.fs, Parent(m) + [n]))
  }

  ghost predicate Addressed(env: Env, served: Path -> Served, content: map<Path, Data>, p: Path)
    requires p in content
  {
    && p != [] && !ScratchName(Leaf(p)) && !ManifestPath(env, p)
    && (served(p).Got? ==> served(p).data == content[p])
    && (p in env.fs && env.fs[p].FileNode? ==> env.fs[p].data == content[p])
  }

  // --- the plan is a proper job -------------------------------------------------------------------

  lemma TargetFinds(env: Env, delete: bool, raw: Body -> nat, found: Found, job: Job, p: Path)
    requires PlanFor(env, delete, raw, job.plan, found) && AllJustified(env, found) && p in Targets(job)
    ensures p != [] && Name(p) in found.finds && (p in ManifestPaths(job) ==> ManifestPath(env, p))
  {
    hide AllJustified, ManifestPath, Extras;
    if p in job.plan.downloads {
      assert multiset(job.plan.downloads)[p] > 0;
      DownloadFact(env, found, p);
    }
    if p in ManifestPaths(job) {
      var m :| m in job.plan.manifests && m.at == p;
      PublishFact(env, found, p, m.body);
    }
    if p in LinkPaths(job) {
      var l :| l in job.plan.links && l.at == p;
      LinkFact(env, found, p, l.target);
    }
  }

  lemma DownloadFact(env: Env, f: Found, p: Path)
    requires AllJustified(env, f) && Download(p) in f.finds
    ensures p != [] && Name(p) in f.finds && Unhit(env.hit, p)
    ensures exists size :: FileAt(p, size) in f.finds && (size.Some? ==> !InPlace(env.fs, p, size))
  {
    assert Justified(env, f, Download(p));
    var size :| FileAt(p, size) in f.finds && (size.Some? ==> !InPlace(env.fs, p, size));
    FileFact(env, f, p, size);
  }

  lemma LinkFact(env: Env, f: Found, p: Path, target: Path)
    requires AllJustified(env, f) && MakeLink(p, target) in f.finds
    ensures p != [] && Name(p) in f.finds && Unhit(env.hit, p)
  {
    assert Justified(env, f, MakeLink(p, target)) && Justified(env, f, Name(p));
  }

  lemma PublishFact(env: Env, f: Found, m: Path, b: Body)
    requires AllJustified(env, f) && Publish(m, b) in f.finds
    ensures ManifestPath(env, m) && env.repomd(Parent(m)) == Some(b) && GoodManifest(b) && Name(m) in f.finds
  {
    assert Justified(env, f, Publish(m, b));
  }

  lemma FileFact(env: Env, f: Found, p: Path, size: Option<nat>)
    requires AllJustified(env, f) && FileAt(p, size) in f.finds
    ensures p != [] && Name(p) in f.finds && Unhit(env.hit, p) && (Download(p) in f.finds || InPlace(env.fs, p, size))
    ensures size.None? ==> UnknownSize in f.finds
  {
    assert Justified(env, f, FileAt(p, size)) && Justified(env, f, Name(p));
  }

  /** Whatever the server lists, the plan is one the run can carry out. */
  lemma PlanProper(env: Env, delete: bool, raw: Body -> nat, found: Found, job: Job)
    requires PlanFor(env, delete, raw, job.plan, found) && AllJustified(env, found)
    requires job.start == env.fs && WellFormed(env.fs)
    ensures Proper(job)
  {
    hide AllJustified, ManifestPath, GoodManifest;
    forall p | p in Targets(job)
      ensures p != [] && Name(p) in found.finds { TargetFinds(env, delete, raw, found, job, p); }
    forall m | m in job.plan.manifests ensures m.at != [] && Leaf(m.at) == "repomd.xml" && GoodManifest(m.body) {
      PublishFact(env, found, m.at, m.body);
      ManifestLeaf(env, m.at);
    }
    assert [] !in Targets(job);
    hide Targets;
    assert forall p | p in job.plan.deletes || p in job.plan.deleteDirs :: p != [] && p !in Targets(job);
    assert forall p | p in job.plan.deletes :: Present(job.start, p);
  }

  lemma ManifestLeaf(env: Env, m: Path)
    ensures ManifestPath(env, m) ==> m != [] && Leaf(m) == "repomd.xml"
  {
  }

  lemma ManifestProper(env: Env, delete: bool, raw: Body -> nat, found: Found, job: Job, m: Manifest,
                       content: map<Path, Data>)
    requires PlanFor(env, delete, raw, job.plan, found) && Grounded(env, found)
    requires Ordinary(env, job.served, content) && job.start == env.fs && m in job.plan.manifests
    ensures ProperManifest(job, m)
  {
    hide AllJustified, MetadataApart, Addressed, ManifestPath, GoodManifest;
    PublishFact(env, found, m.at, m.body);
    if m.at in job.plan.downloads {
      assert multiset(job.plan.downloads)[m.at] > 0;
      DownloadFact(env, found, m.at);
    }
    assert PlainNames(env, m.at, m.body);
    forall n | n in Named(m.body)
      ensures var p := Parent(m.at) + [n];
              !ScratchName(n) && p !in job.plan.deletes
                  && (job.plan.incomplete || p in job.plan.downloads || Present(job.start, p))
    {
      var p := Parent(m.at) + [n];
      if !job.plan.incomplete {
        assert Listed(env, found, p);
        var size :| FileAt(p, size) in found.finds;
        FileFact(env, found, p, size);
        if Download(p) in found.finds { assert multiset(job.plan.downloads)[p] > 0; }
      }
    }
    assert forall p | p in NamedAt(m.at, m.body) :: Parent(m.at) + [Leaf(p)] == p && Leaf(p) in Named(m.body);
  }

  /** Where listings keep out of metadata directories, the plan is one that never shows an incomplete
      manifest. */
  lemma PlanOrderly(env: Env, delete: bool, raw: Body -> nat, found: Found, job: Job)
    requires PlanFor(env, delete, raw, job.plan, found) && Grounded(env, found)
    requires Ordinary(env, job.served, job.content) && job.start == env.fs
    ensures Orderly(job)
  {
    hide AllJustified, Covered, ProperManifest, MetadataApart, PlainNames, ManifestPath, Extras, Grounded;
    assert AllJustified(env, found) by { GroundedJustified(env, found); }
    forall m | m in job.plan.manifests ensures ProperManifest(job, m) {
      ManifestProper(env, delete, raw, found, job, m, job.content);
    }
    forall m | m in ManifestPaths(job) ensures ManifestPath(env, m) {
      assert m in Targets(job);
      TargetFinds(env, delete, raw, found, job, m);
    }
    forall p | p in job.content
      ensures p != [] && !ScratchName(Leaf(p)) && p !in ManifestPaths(job)
              && (job.served(p).Got? ==> job.served(p).data == job.content[p])
    {
      assert Addressed(env, job.served, job.content, p);
    }
    assert Sound(job, job.start) by {
      assert forall m, b | m in ManifestPaths(job) && m != [] && Current(env.fs, m, b) :: NamesPresent(env.fs, m, b);
      assert forall p | p in job.content :: Addressed(env, job.served, job.content, p);
    }
  }

  lemma GroundedJustified(env: Env, f: Found)
    requires Grounded(env, f)
    ensures AllJustified(env, f)
  {
  }

  // --- convergence ------------------------------------------------------------------------------------

  /** A run of a complete plan that ended without failures and warnings, its downloads having
      landed in this order. */
  ghost predicate Completed(env: Env, delete: bool, raw: Body -> nat, found: Found, job: Job, t: Tree,
                            removed: set<Path>, out: set<Path>, order: seq<Path>)
  {
    && PlanFor(env, delete, raw, job.plan, found) && AllJustified(env, found) && job.start == env.fs && Proper(job)
    && Tracked(job, t, {}, removed, Settled(order, out)) && Finished(job, t, removed, out, order)
    && Ranked(job, t, {}, out, order, {})
  }

  lemma TargetListed(env: Env, delete: bool, raw: Body -> nat, found: Found, job: Job, t: Tree, removed: set<Path>,
                     out: set<Path>, order: seq<Path>, p: Path)
    requires Completed(env, delete, raw, found, job, t, removed, out, order) && p in Targets(job)
    ensures p != [] && Name(p) in found.finds
  {
    hide Extras, AllJustified, Proper, Tracked, Finished, Ranked;
    TargetFinds(env, delete, raw, found, job, p);
  }

  lemma TargetOccupied(env: Env, delete: bool, raw: Body -> nat, found: Found, job: Job, t: Tree, removed: set<Path>,
                       out: set<Path>, order: seq<Path>, p: Path)
    requires Completed(env, delete, raw, found, job, t, removed, out, order) && p in Targets(job)
    ensures p in LinkPaths(job) || !Scratch(job, p) ==> p in t
    ensures (p in job.plan.downloads || p in ManifestPaths(job)) && !Scratch(job, p) ==> p in t && Written(job, p, t[p])
  {
    hide Extras, AllJustified, Proper, WellFormed, Kept, NewOnly, Gone, Cleared, Written, Scratch, Ranked;
    if p in LinkPaths(job) { var l :| l in job.plan.links && l.at == p; }
  }

  /** At a name the run has used for a partial file there is a file at the end exactly if the file
      of that name landed later. */
  lemma ScratchKeptIff(env: Env, delete: bool, raw: Body -> nat, found: Found, job: Job, t: Tree, removed: set<Path>,
                       out: set<Path>, order: seq<Path>, p: Path)
    requires Completed(env, delete, raw, found, job, t, removed, out, order) && Scratch(job, p)
    ensures HasFile(t, p) <==> LandsLater(job, order, p)
  {
    hide PlanFor, AllJustified, Tracked, Gone, Cleared, Owns, LandsAfter;
    var x :| (x in job.plan.downloads || x in ManifestPaths(job)) && x != [] && p == Partial(x);
    assert x in order || x in out;
    assert Leftover(job, t, Partial(x), x !in out && LandsAfter(order, Partial(x), x));
    forall y | y != [] && Partial(y) == p ensures y == x { PartialInjective(x, y); }
  }

  /** Nothing listed or excluded is lost, but for a name the run has used for a partial file, where
      there is a file exactly if the file of that name landed later. */
  lemma NothingLost(env: Env, delete: bool, raw: Body -> nat, found: Found, job: Job, t: Tree, removed: set<Path>,
                    out: set<Path>, order: seq<Path>, p: Path)
    requires Completed(env, delete, raw, found, job, t, removed, out, order)
    requires p in env.fs && (Name(p) in found.finds || Excluded(env.hit, p))
    ensures if Scratch(job, p) then HasFile(t, p) <==> LandsLater(job, order, p)
            else p in t && (t[p] == env.fs[p] || Written(job, p, t[p]))
  {
    hide AllJustified, Proper, WellFormed, NewOnly, Placed, Gone, Cleared, Written, Excluded, Scratch, Ranked, HasFile,
        LandsLater;
    if Scratch(job, p) { ScratchKeptIff(env, delete, raw, found, job, t, removed, out, order, p); }
  }

  /** No file or link is left that is neither listed nor excluded. */
  lemma NothingObsolete(env: Env, raw: Body -> nat, found: Found, job: Job, t: Tree, removed: set<Path>, out: set<Path>,
                        order: seq<Path>, p: Path)
    requires Completed(env, true, raw, found, job, t, removed, out, order) && Present(t, p) && !Excluded(env.hit, p)
    ensures Name(p) in found.finds
  {
    hide AllJustified, Proper, WellFormed, Kept, Placed, Cleared, Written, Excluded, Scratch, Leads, Ranked;
    if Written(job, p, t[p]) {
      WrittenTarget(job, p, t[p]);
      TargetListed(env, true, raw, found, job, t, removed, out, order, p);
    }
  }

  lemma WrittenTarget(job: Job, p: Path, n: Node)
    requires Written(job, p, n)
    ensures p in Targets(job) && !n.DirNode?
  {
  }

  lemma {:induction false} Deepest(t: Tree) returns (n: nat)
    ensures forall p | p in t :: |p| <= n
  {
    n := 0;
    var todo := t.Keys;
    while todo != {}
      invariant forall p | p in t && p !in todo :: |p| <= n
      decreases |todo|
    {
      var p :| p in todo;
      todo := todo - {p};
      n := if n < |p| then |p| else n;
    }
  }

  ghost predicate Needed(env: Env, found: Found, p: Path) { Name(p) in found.finds || Excluded(env.hit, p) }

  /** Where there is a target below a directory there is one that is no other's partial file. */
  lemma {:induction false} Lasting(env: Env, delete: bool, raw: Body -> nat, found: Found, job: Job, t: Tree,
                                   removed: set<Path>, out: set<Path>, order: seq<Path>, p: Path, some: Path)
    returns (q: Path)
    requires Completed(env, delete, raw, found, job, t, removed, out, order) && some in Targets(job) && Above(p, some)
    ensures q in Targets(job) && Above(p, q) && q in t
    decreases if some == [] then 0 else |Leaf(some)|
  {
    hide Completed;
    TargetListed(env, delete, raw, found, job, t, removed, out, order, some);
    if Scratch(job, some) {
      var x :| (x in job.plan.downloads || x in ManifestPaths(job)) && x != [] && some == Partial(x);
      assert Above(p, x) by { assert Parent(x) == Parent(some) && |x| == |some|; AboveSibling(p, some, x); }
      assert Leaf(some) == Leaf(x) + ".partial";
      q := Lasting(env, delete, raw, found, job, t, removed, out, order, p, x);
    } else {
      TargetOccupied(env, delete, raw, found, job, t, removed, out, order, some);
      q := some;
    }
  }

  lemma AboveSibling(p: Path, a: Path, b: Path)
    requires a != [] && b != [] && Parent(a) == Parent(b) && Above(p, a)
    ensures Above(p, b)
  {
    assert p == a[..|p|] && a[..|p|] == Parent(a)[..|p|] && b[..|p|] == Parent(b)[..|p|];
  }

  /** A directory that is left is listed, excluded, or leads to something that is. */
  lemma {:induction false} DirsNeeded(env: Env, raw: Body -> nat, found: Found, job: Job, t: Tree, removed: set<Path>,
                                      out: set<Path>, order: seq<Path>, p: Path, deepest: nat)
    requires Completed(env, true, raw, found, job, t, removed, out, order) && p in t && p != []
    requires forall q | q in t :: |q| <= deepest
    ensures Needed(env, found, p) || exists q | q in t :: Above(p, q) && Needed(env, found, q)
    decreases deepest - |p|
  {
    hide AllJustified, Proper, PlanFor, WellFormed, Kept, Placed, Gone, Written, Excluded, Scratch;
    if !Needed(env, found, p) {
      if !t[p].DirNode? {
        NothingObsolete(env, raw, found, job, t, removed, out, order, p);
      } else if Written(job, p, t[p]) {
        WrittenTarget(job, p, t[p]);
      } else if Leads(job, p) {
        var some :| some in Targets(job) && Above(p, some);
        var q := Lasting(env, true, raw, found, job, t, removed, out, order, p, some);
        TargetListed(env, true, raw, found, job, t, removed, out, order, q);
        assert Needed(env, found, q);
      } else {
        ObsoleteDir(env, raw, found, job, p);
        var c :| c in t && ChildOf(p, c);
        DirsNeeded(env, raw, found, job, t, removed, out, order, c, deepest);
        if !Needed(env, found, c) {
          var q :| q in t && Above(c, q) && Needed(env, found, q);
          AboveTrans(p, c, q);
        }
      }
    }
  }

  lemma ObsoleteDir(env: Env, raw: Body -> nat, found: Found, job: Job, p: Path)
    requires PlanFor(env, true, raw, job.plan, found) && !job.plan.incomplete
    requires p in env.fs && env.fs[p].DirNode? && p != [] && !Needed(env, found, p)
    ensures p in job.plan.deleteDirs
  {
    hide Excluded;
  }

  lemma NotBothWays(job: Job, order: seq<Path>, p: Path, q: Path)
    requires Order(job, order) && LandsAfter(order, p, q)
    ensures !LandsAfter(order, q, p)
  {
  }

  /** Every listed file has its listed size, or is a link or directory left alone, if it landed
      after the file whose partial name it has, and so did the file with its own partial name. */
  lemma FileCurrent(env: Env, delete: bool, raw: Body -> nat, found: Found, job: Job, t: Tree, removed: set<Path>,
                    out: set<Path>, order: seq<Path>, p: Path, size: Option<nat>)
    requires Completed(env, delete, raw, found, job, t, removed, out, order) && FileAt(p, size) in found.finds
    requires job.served(p).Got? && size.Some? ==> job.served(p).data.bytes == size.value
    requires LandsLater(job, order, p)
             && (p != [] && Partial(p) in job.plan.downloads ==> LandsLater(job, order, Partial(p)))
    requires !ManifestPath(env, p)
    ensures p in t && InPlace(t, p, size)
  {
    hide AllJustified, Proper, WellFormed, NewOnly, Gone, Cleared, Kept, Placed, Excluded, Extras, ManifestPath,
        LandsAfter;
    FileFact(env, found, p, size);
    NotManifest(env, delete, raw, found, job, p);
    if Download(p) in found.finds {
      assert multiset(job.plan.downloads)[p] > 0;
      if LandsAfter(order, p, Partial(p)) {
        NeverAfter(order, p, Partial(p));
        NotBothWays(job, order, p, Partial(p));
      }
      assert Steady(job, order, p);
    } else {
      assert multiset(job.plan.downloads)[p] == 0;
      if Scratch(job, p) { ScratchLanded(job, order, p); }
      NothingLost(env, delete, raw, found, job, t, removed, out, order, p);
    }
  }

  lemma ScratchLanded(job: Job, order: seq<Path>, p: Path)
    requires Order(job, order) && Scratch(job, p) && LandsLater(job, order, p)
    ensures p in job.plan.downloads
  {
    var x :| (x in job.plan.downloads || x in ManifestPaths(job)) && x != [] && p == Partial(x);
    assert LandsAfter(order, p, x);
  }

  lemma NotManifest(env: Env, delete: bool, raw: Body -> nat, found: Found, job: Job, p: Path)
    requires PlanFor(env, delete, raw, job.plan, found) && AllJustified(env, found) && !ManifestPath(env, p)
    ensures forall m | m in job.plan.manifests :: m.at != p
  {
    hide AllJustified, ManifestPath, Extras;
    forall m | m in job.plan.manifests ensures m.at != p {
      PublishFact(env, found, m.at, m.body);
    }
  }

  /** Everything listed is in place, and nothing listed or excluded was lost. A listed file whose
      name the run has used for a partial file is there exactly if it landed later. */
  ghost predicate Mirrored(env: Env, found: Found, job: Job, t: Tree, order: seq<Path>) {
    && (forall p, size | FileAt(p, size) in found.finds ::
        if Scratch(job, p) then HasFile(t, p) <==> LandsLater(job, order, p) else p in t)
    && (forall p, target | MakeLink(p, target) in found.finds :: p in t)
    && (forall p | p in env.fs && !Scratch(job, p) && Needed(env, found, p) :: p in t)
  }

  /** Nothing else is left: no obsolete file, and no obsolete directory but for what it holds. */
  ghost predicate Pruned(env: Env, found: Found, t: Tree) {
    && (forall p | Present(t, p) :: Needed(env, found, p))
    && (forall p | p in t && p != [] ::
        Needed(env, found, p) || exists q | q in t :: Above(p, q) && Needed(env, found, q))
  }

  ghost predicate ExactSizes(found: Found, served: Path -> Served) {
    forall p, size | FileAt(p, size) in found.finds ::
      size.Some? && (served(p).Got? ==> served(p).data.bytes == size.value)
  }

  /** Planning once more over the same listings finds nothing to download and no file to delete. */
  ghost predicate NothingToDo(env: Env, depth: nat, delete: bool, t: Tree) {
    var again := Crawl(env.(fs := t), [], depth);
    && (forall p :: Download(p) !in again.finds)
    && (delete ==> forall p | Present(t, p) :: !Obsolete(env, again, p))
  }

  /** No listed file was lost to a partial file: each landed after the file whose partial name it
      has, if there is one. */
  ghost predicate NoneLost(found: Found, job: Job, order: seq<Path>) {
    forall p, size | FileAt(p, size) in found.finds :: LandsLater(job, order, p)
  }

  /** No link or directory has taken the place of a listed file lost that way. */
  ghost predicate Unmixed(found: Found, job: Job, t: Tree) {
    forall p, size | FileAt(p, size) in found.finds && Scratch(job, p) && p in t :: t[p].FileNode?
  }

  lemma Converges(env: Env, depth: nat, delete: bool, raw: Body -> nat, found: Found, job: Job, t: Tree,
                  removed: set<Path>, out: set<Path>, order: seq<Path>)
    requires Completed(env, delete, raw, found, job, t, removed, out, order)
    ensures Mirrored(env, found, job, t, order)
    ensures delete ==> Pruned(env, found, t)
  {
    hide Completed, Excluded, Scratch, Above, Present, HasFile, LandsLater;
    forall p, size | FileAt(p, size) in found.finds
      ensures if Scratch(job, p) then HasFile(t, p) <==> LandsLater(job, order, p) else p in t
    {
      if Scratch(job, p) {
        ScratchKeptIff(env, delete, raw, found, job, t, removed, out, order, p);
      } else {
        FileOccupied(env, delete, raw, found, job, t, removed, out, order, p, size);
      }
    }
    forall p, target | MakeLink(p, target) in found.finds ensures p in t {
      LinkOccupied(env, delete, raw, found, job, t, removed, out, order, p, target);
    }
    forall p | p in env.fs && !Scratch(job, p) && Needed(env, found, p) ensures p in t {
      NothingLost(env, delete, raw, found, job, t, removed, out, order, p);
    }
    if delete {
      forall p | Present(t, p) ensures Needed(env, found, p) {
        if !Excluded(env.hit, p) { NothingObsolete(env, raw, found, job, t, removed, out, order, p); }
      }
      var n := Deepest(t);
      forall p | p in t && p != []
        ensures Needed(env, found, p) || exists q | q in t :: Above(p, q) && Needed(env, found, q) {
        DirsNeeded(env, raw, found, job, t, removed, out, order, p, n);
      }
    }
  }

  lemma FileOccupied(env: Env, delete: bool, raw: Body -> nat, found: Found, job: Job, t: Tree, removed: set<Path>,
                     out: set<Path>, order: seq<Path>, p: Path, size: Option<nat>)
    requires Completed(env, delete, raw, found, job, t, removed, out, order) && FileAt(p, size) in found.finds
             && !Scratch(job, p)
    ensures p in t
  {
    hide AllJustified, Proper, Tracked, Finished, Scratch, Excluded, Extras, ManifestPath;
    FileFact(env, found, p, size);
    if Download(p) in found.finds {
      assert multiset(job.plan.downloads)[p] > 0;
      assert p in Targets(job);
      TargetOccupied(env, delete, raw, found, job, t, removed, out, order, p);
    } else {
      NothingLost(env, delete, raw, found, job, t, removed, out, order, p);
    }
  }

  lemma LinkOccupied(env: Env, delete: bool, raw: Body -> nat, found: Found, job: Job, t: Tree, removed: set<Path>,
                     out: set<Path>, order: seq<Path>, p: Path, target: Path)
    requires Completed(env, delete, raw, found, job, t, removed, out, order) && MakeLink(p, target) in found.finds
    ensures p in t
  {
    hide AllJustified, Proper, Tracked, Finished, Scratch, Excluded, Extras, ManifestPath;
    assert Link(p, target) in job.plan.links;
    assert p in Targets(job);
    TargetOccupied(env, delete, raw, found, job, t, removed, out, order, p);
  }

  lemma NothingDownloaded(env: Env, depth: nat, delete: bool, raw: Body -> nat, found: Found, job: Job, t: Tree,
                          removed: set<Path>, out: set<Path>, order: seq<Path>, p: Path)
    requires Completed(env, delete, raw, found, job, t, removed, out, order) && SingleNames(env)
    requires found == Crawl(env, [], depth) && ExactSizes(found, job.served) && NoneLost(found, job, order)
    requires Unlisted(env, found)
    ensures Download(p) !in Crawl(env.(fs := t), [], depth).finds
  {
    hide Completed, Excluded, Scratch, Crawl, InPlace, Justified, LandsLater;
    var env2 := env.(fs := t);
    var again := Crawl(env2, [], depth);
    CrawlAlike(env, env2, [], depth);
    CrawlJustified(env2, [], depth);
    if Download(p) in again.finds {
      DownloadFact(env2, again, p);
      var size :| FileAt(p, size) in again.finds && (size.Some? ==> !InPlace(t, p, size));
      assert again.finds[FileAt(p, size)] == found.finds[FileAt(p, size)];
      if Partial(p) in job.plan.downloads {
        DownloadListed(env, delete, raw, found, job, t, removed, out, order, Partial(p));
      }
      FileCurrent(env, delete, raw, found, job, t, removed, out, order, p, size);
      assert false;
    }
  }

  lemma DownloadListed(env: Env, delete: bool, raw: Body -> nat, found: Found, job: Job, t: Tree, removed: set<Path>,
                       out: set<Path>, order: seq<Path>, p: Path)
    requires Completed(env, delete, raw, found, job, t, removed, out, order) && p in job.plan.downloads
    ensures exists size :: FileAt(p, size) in found.finds
  {
    hide AllJustified, Proper, Tracked, Finished, Ranked, Extras;
    assert multiset(job.plan.downloads)[p] > 0;
    DownloadFact(env, found, p);
  }

  /** With exact sizes a second plan over the same listings finds nothing to do exactly if no listed
      file was lost to a partial file. */
  lemma Stable(env: Env, depth: nat, delete: bool, raw: Body -> nat, found: Found, job: Job, t: Tree,
               removed: set<Path>, out: set<Path>, order: seq<Path>)
    requires Completed(env, delete, raw, found, job, t, removed, out, order) && SingleNames(env)
    requires found == Crawl(env, [], depth) && ExactSizes(found, job.served) && Unlisted(env, found)
    ensures NoneLost(found, job, order) ==> NothingToDo(env, depth, delete, t)
    ensures NothingToDo(env, depth, delete, t) ==> forall p, size | FileAt(p, size) in found.finds :: p in t
    ensures Unmixed(found, job, t) ==> (NothingToDo(env, depth, delete, t) <==> NoneLost(found, job, order))
  {
    hide Completed, Excluded, Scratch, Crawl, Justified, LandsLater;
    var env2 := env.(fs := t);
    var again := Crawl(env2, [], depth);
    CrawlAlike(env, env2, [], depth);
    if NoneLost(found, job, order) {
      forall p ensures Download(p) !in again.finds {
        NothingDownloaded(env, depth, delete, raw, found, job, t, removed, out, order, p);
      }
    }
    if delete {
      forall p | Present(t, p) ensures !Obsolete(env, again, p) {
        assert again.finds[Name(p)] == found.finds[Name(p)];
        if !Excluded(env.hit, p) { NothingObsolete(env, raw, found, job, t, removed, out, order, p); }
      }
    }
    if NothingToDo(env, depth, delete, t) {
      CrawlJustified(env2, [], depth);
      forall p, size | FileAt(p, size) in found.finds ensures p in t {
        assert again.finds[FileAt(p, size)] == found.finds[FileAt(p, size)];
        FileFact(env2, again, p, size);
      }
      if Unmixed(found, job, t) {
        forall p, size | FileAt(p, size) in found.finds ensures LandsLater(job, order, p) {
          if Scratch(job, p) {
            ScratchKeptIff(env, delete, raw, found, job, t, removed, out, order, p);
          } else {
            NoScratch(job, order, p);
          }
        }
      }
    }
  }

  lemma NoScratch(job: Job, order: seq<Path>, p: Path)
    requires !Scratch(job, p)
    ensures LandsLater(job, order, p)
  {
  }

  /** A file or link at the name of the partial file of something to fetch, although upstream neither
      lists it nor is it excluded: what an interrupted run leaves behind. */
  ghost predicate LeftBehind(env: Env, found: Found, p: Path) {
    && p != [] && (Download(p) in found.finds || exists b :: Publish(p, b) in found.finds)
    && Present(env.fs, Partial(p)) && Obsolete(env, found, Partial(p))
  }

  /** Which mirrors make a run fail that way: those with such a file, if deletes are on and the listing
      is complete. */
  lemma StalePlannedIff(env: Env, delete: bool, raw: Body -> nat, found: Found, job: Job)
    requires PlanFor(env, delete, raw, job.plan, found)
    ensures Stale(job) != {} <==> delete && !found.Incomplete() && exists p :: LeftBehind(env, found, p)
  {
    hide PlanFor, LeftBehind, Stale;
    if q :| q in Stale(job) { var p := StaleLeft(env, delete, raw, found, job, q); }
    if delete && !found.Incomplete() {
      if p :| LeftBehind(env, found, p) { LeftStale(env, delete, raw, found, job, p); }
    }
  }

  lemma StaleLeft(env: Env, delete: bool, raw: Body -> nat, found: Found, job: Job, q: Path) returns (p: Path)
    requires PlanFor(env, delete, raw, job.plan, found) && q in Stale(job)
    ensures delete && !found.Incomplete() && LeftBehind(env, found, p)
  {
    hide Obsolete;
    p :| (p in job.plan.downloads || p in ManifestPaths(job)) && p != [] && q == Partial(p);
    PlannedPut(env, delete, raw, found, job, p);
  }

  lemma LeftStale(env: Env, delete: bool, raw: Body -> nat, found: Found, job: Job, p: Path)
    requires PlanFor(env, delete, raw, job.plan, found) && LeftBehind(env, found, p) && delete && !found.Incomplete()
    ensures p != [] && Partial(p) in Stale(job)
  {
    hide Obsolete;
    PlannedPut(env, delete, raw, found, job, p);
    assert Scratch(job, Partial(p));
  }

  lemma PlannedPut(env: Env, delete: bool, raw: Body -> nat, found: Found, job: Job, p: Path)
    requires PlanFor(env, delete, raw, job.plan, found)
    ensures p in job.plan.downloads || p in ManifestPaths(job) <==>
              Download(p) in found.finds || exists b :: Publish(p, b) in found.finds
  {
    hide Extras;
    assert p in job.plan.downloads <==> multiset(job.plan.downloads)[p] > 0;
    if b :| Publish(p, b) in found.finds { assert Manifest(p, b, raw(b)) in job.plan.manifests; }
  }

  // --- the whole run ---------------------------------------------------------------------------------------

  datatype SyncResult = NotPlanned | Ran(result: Result)

  /** `Fetcher::sync`, for any server and any local tree. What exclusions hit is left alone. A run
      without failures and warnings leaves the mirror in step with upstream, and none ends so on a
      mirror with a partial file left behind that deletes would have to remove. If the plan is
      orderly (`PlanOrderly` says where), at every moment each published manifest is complete and its
      files intact. With single names and exact sizes a second run finds nothing to do exactly if no
      name was lost. If nothing is in the way, no listing was cut short, the server has every file
      and nothing fails, the run does end without failures and warnings. */
  method Sync(mirror: Mirror, env: Env, depth: nat, threads: nat, delete: bool, forbidden: bool, root: Path,
              raw: Body -> nat, served: Path -> Served, ghost content: map<Path, Data>)
    returns (r: SyncResult, ghost found: Found, ghost job: Job, ghost order: seq<Path>)
    requires mirror.fs == env.fs && mirror.history == [env.fs] && WellFormed(env.fs)
    modifies mirror
    ensures r.NotPlanned? ==> mirror.fs == env.fs && mirror.history == [env.fs]
    ensures r.Ran? ==> PlanFor(env, delete, raw, job.plan, found) && Grounded(env, found)
    ensures r.Ran? && SingleNames(env) ==> PartOf(found, Crawl(env, [], Least(depth, MAX_DEPTH)))
    ensures r.Ran? ==> job == Job(env.fs, job.plan, served, content)
    ensures r.Ran? ==> mirror.history != [] && mirror.history[|mirror.history| - 1] == mirror.fs
    ensures r.Ran? ==> LeavesExcluded(env, job, mirror.history)
    ensures r.Ran? && !found.Incomplete() ==> SeenAll(env, found)
    ensures r.Ran? && Orderly(job) ==> AllSound(job, mirror.history)
    ensures r.Ran? && Ordinary(env, served, content) ==> Orderly(job)
    ensures r.Ran? && !mirror.troubled && Free(job) ==> r.result.Done?
    ensures r.Ran? && !mirror.troubled && Free(job) && !found.Incomplete()
            && (forall p | p in job.plan.downloads :: served(p).Got?) && (forall p :: !LeftBehind(env, found, p)) ==>
              r.result.stats.Clean()
    ensures r.Ran? && r.result.Done? && r.result.stats.Clean() ==>
              && !found.Incomplete() && Mirrored(env, found, job, mirror.fs, order)
              && (delete ==> Pruned(env, found, mirror.fs) && forall p :: !LeftBehind(env, found, p))
    ensures r.Ran? && r.result.Done? && r.result.stats.Clean() && ExactSizes(found, served) && SingleNames(env) ==>
              var idle := NothingToDo(env, Least(depth, MAX_DEPTH), delete, mirror.fs);
              && (NoneLost(found, job, order) ==> idle)
              && (Unmixed(found, job, mirror.fs) ==> (idle <==> NoneLost(found, job, order)))
  {
    hide Ordinary, PlanFor, AllJustified, Crawl, Proper, Orderly, AllSound, AllSpared, Mirrored, Pruned, ExactSizes,
        NothingToDo, Finished, Tracked, Ranked, Scratch, NoneLost, Unmixed, SingleNames, Grounded, Unlisted, Stale,
        LeftBehind, LeavesExcluded, Free, Passable, SeenAll, Exhausts, Rels, Meets;
    found, job, order := Nothing, Job(map[], Plan([], [], {}, [], [], false, None), served, content), [];
    var planned;
    ghost var listed;
    planned, listed := MakePlan(env, depth, threads, delete, raw);
    if planned.PlanError? { return NotPlanned, found, job, order; }
    var plan, top := planned.plan, Least(depth, MAX_DEPTH);
    found, job := planned.found, Job(env.fs, plan, served, content);
    ghost var whole := Crawl(env, [], top);
    GroundedJustified(env, found);
    PlanProper(env, delete, raw, found, job);
    if !found.Incomplete() { AllSeen(env, found, Rels(listed)); }
    if Ordinary(env, served, content) { PlanOrderly(env, delete, raw, found, job); }
    PlanOrder(env, delete, raw, plan, found);
    var result;
    ghost var open, removed, out;
    ghost var ends;
    result, open, removed, out, order, ends := mirror.Execute(plan, served, root, threads, forbidden, job);
    r := Ran(result);
    ExcludedStays(env, delete, raw, found, job, mirror.history);
    StalePlannedIff(env, delete, raw, found, job);
    if result.Done? && result.stats.Clean() {
      RunCompleted(env, delete, raw, found, job, mirror.fs, removed, out, order);
      Converges(env, top, delete, raw, found, job, mirror.fs, removed, out, order);
      if ExactSizes(found, served) && SingleNames(env) {
        WholeFound(env, found, whole);
        Stable(env, top, delete, raw, found, job, mirror.fs, removed, out, order);
      }
    }
  }

  lemma WholeFound(env: Env, found: Found, whole: Found)
    requires SingleNames(env) && PartOf(found, whole) && !found.Incomplete() && Grounded(env, found)
    ensures found == whole && Unlisted(env, found)
  {
    SingleNamesApart(env);
  }

  lemma PlanOrder(env: Env, delete: bool, raw: Body -> nat, plan: Plan, found: Found)
    requires PlanFor(env, delete, raw, plan, found)
    ensures forall i, j | 0 <= i < j < |plan.deleteDirs| :: |plan.deleteDirs[i]| >= |plan.deleteDirs[j]|
    ensures plan.incomplete == found.Incomplete()
  {
  }

  lemma RunCompleted(env: Env, delete: bool, raw: Body -> nat, found: Found, job: Job, t: Tree, removed: set<Path>,
                     out: set<Path>, order: seq<Path>)
    requires PlanFor(env, delete, raw, job.plan, found) && AllJustified(env, found)
    requires job.start == env.fs && Proper(job) && Tracked(job, t, {}, removed, Settled(order, out))
    requires Finished(job, t, removed, out, order) && Ranked(job, t, {}, out, order, {})
    ensures !found.Incomplete() && Completed(env, delete, raw, found, job, t, removed, out, order)
  {
    hide AllJustified, Proper, Tracked, Extras, Ranked;
  }
}
