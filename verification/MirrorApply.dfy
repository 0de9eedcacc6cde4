/** Carrying out a plan (`Fetcher::execute`): downloads, manifests, file deletes, directory
    deletes, symbolic links, in that order, each as the atomic changes it makes to the tree. */
module MirrorApply {
  import opened Prelude
  import opened MirrorPlan
  import opened MirrorTree

  /** What the server answers for one file: its bytes, a status, no answer, or a cut-off body. */
  datatype Served = Got(data: Data) | Status(code: nat) | Broken | Cut

  datatype Manifest = Manifest(at: Path, body: Body, bytes: nat)
  datatype Link = Link(at: Path, target: Path)

  datatype Plan = Plan(downloads: seq<Path>, manifests: seq<Manifest>, deletes: set<Path>, deleteDirs: seq<Path>,
                       links: seq<Link>, incomplete: bool, totalSize: Option<nat>)

  datatype Stats = Stats(downloaded: nat, bytes: nat, deleted: nat, linked: nat, skipped: nat, failed: nat,
                         warned: nat) {
    predicate Clean() { failed == 0 && warned == 0 }
  }

  // --- names ------------------------------------------------------------------------

  function Leaf(p: Path): string requires p != [] { p[|p| - 1] }

  predicate ScratchName(n: string) { |n| >= 8 && n[|n| - 8..] == ".partial" }

  function Partial(p: Path): (q: Path)
    requires p != []
    ensures |q| == |p| && Parent(q) == Parent(p) && ScratchName(Leaf(q)) && q != p
  {
    assert (Leaf(p) + ".partial")[|Leaf(p)|..] == ".partial";
    Parent(p) + [Leaf(p) + ".partial"]
  }

  lemma PartialInjective(p: Path, q: Path)
    requires p != [] && q != [] && Partial(p) == Partial(q)
    ensures p == q
  {
    assert Partial(p)[|p| - 1] == Leaf(p) + ".partial" && Partial(q)[|p| - 1] == Leaf(q) + ".partial";
    assert (Leaf(p) + ".partial")[..|Leaf(p)|] == Leaf(p) && (Leaf(q) + ".partial")[..|Leaf(q)|] == Leaf(q);
    assert p == Parent(p) + [Leaf(p)] && q == Parent(q) + [Leaf(q)];
  }

  function FirstPart(n: string): string {
    if n == "" || n[0] == '.' then "" else [n[0]] + FirstPart(n[1..])
  }

  /** Files whose absence is never only a warning. */
  predicate Critical(root: Path, p: Path)
    requires p != []
  {
    || "repodata" in root + p
    || Leaf(p) in {"Release", "Release.gpg", "InRelease", "repomd.xml", "index.html"}
    || FirstPart(Leaf(p)) in {"Packages", "Sources"}
  }

  // --- what a run may do to the tree --------------------------------------------------

  /** A run: the tree it starts from, the plan, the server's answers, and the content that
      content-addressed paths stand for. */
  datatype Job = Job(start: Tree, plan: Plan, served: Path -> Served, content: map<Path, Data>)

  function ManifestPaths(job: Job): set<Path> { set m | m in job.plan.manifests :: m.at }

  function LinkPaths(job: Job): set<Path> { set l | l in job.plan.links :: l.at }

  function Targets(job: Job): set<Path> {
    (set p | p in job.plan.downloads) + ManifestPaths(job) + LinkPaths(job)
  }

  ghost predicate Scratch(job: Job, q: Path) {
    exists p | p in job.plan.downloads || p in ManifestPaths(job) :: p != [] && q == Partial(p)
  }

  /** The content the server gave for `q`. */
  predicate Own(job: Job, q: Path, node: Node) {
    job.served(q).Got? && node.FileNode? && node.data == job.served(q).data
  }

  /** `q` was put in place by the run. If upstream also lists the name of its partial file, another
      file may have landed there meanwhile and been moved to `q`. */
  predicate Written(job: Job, q: Path, node: Node) {
    || (q in job.plan.downloads && node.FileNode?
        && (Own(job, q, node) || (q != [] && Partial(q) in job.plan.downloads)))
    || (node.FileNode? && node.data.Repomd? && Manifest(q, node.data.body, node.data.bytes) in job.plan.manifests)
    || (node.LinkNode? && Link(q, node.target) in job.plan.links)
  }

  ghost predicate Leads(job: Job, q: Path) { exists p | p in Targets(job) :: Above(q, p) }

  /** What was there and not removed is there, unless the run replaced it. */
  ghost predicate Kept(job: Job, t: Tree, removed: set<Path>) {
    forall q | q in job.start && q !in removed && !Scratch(job, q) ::
      q in t && (t[q] == job.start[q] || Written(job, q, t[q]))
  }

  /** What is new is a target, a directory leading to one, or a partial file. */
  ghost predicate NewOnly(job: Job, t: Tree, open: set<Path>) {
    forall q | q in t ::
      || (q in job.start && t[q] == job.start[q])
      || q in open || Written(job, q, t[q]) || (t[q].DirNode? && Leads(job, q))
  }

  ghost predicate Placed(job: Job, t: Tree, placed: set<Path>) {
    forall p | p in placed && !Scratch(job, p) ::
      p in t && (p in job.plan.downloads || p in ManifestPaths(job) ==> Written(job, p, t[p]))
  }

  ghost predicate Tracked(job: Job, t: Tree, open: set<Path>, removed: set<Path>, placed: set<Path>) {
    WellFormed(t) && Kept(job, t, removed) && NewOnly(job, t, open) && Placed(job, t, placed)
  }

  // --- published metadata ------------------------------------------------------------------

  predicate Present(t: Tree, p: Path) { p in t && !t[p].DirNode? }

  /** The manifest readers see at `m`. */
  predicate Current(t: Tree, m: Path, b: Body) {
    m in t && t[m].FileNode? && t[m].data.Repomd? && t[m].data.body == b && GoodManifest(b)
  }

  predicate NamesPresent(t: Tree, m: Path, b: Body)
    requires m != [] && GoodManifest(b)
  {
    forall n | n in Named(b) :: !ScratchName(n) && Present(t, Parent(m) + [n])
  }

  /** Every file named by a manifest readers can see is there. */
  ghost predicate Complete(job: Job, t: Tree) {
    forall m, b | m in ManifestPaths(job) && m != [] && Current(t, m, b) :: NamesPresent(t, m, b)
  }

  /** Files at content-addressed paths hold what their path stands for, unless upstream also lists
      the name of their partial file. */
  ghost predicate Intact(job: Job, t: Tree) {
    forall p | p in t && p in job.content && t[p].FileNode? && p != [] && Partial(p) !in job.plan.downloads ::
        t[p].data == job.content[p]
  }

  ghost predicate Sound(job: Job, t: Tree) { Complete(job, t) && Intact(job, t) }

  ghost predicate AllSound(job: Job, ts: seq<Tree>) { forall i | 0 <= i < |ts| :: Sound(job, ts[i]) }

  // --- one change at a time ------------------------------------------------------------------

  predicate NoBlock(t: Tree, p: Path) { forall k | 0 <= k < |p| && p[..k] in t :: t[p[..k]].DirNode? }

  lemma DirsAt(t: Tree, p: Path, q: Path)
    ensures q in MakeDirs(t, p) <==> q in t || Above(q, p)
    ensures q in MakeDirs(t, p) ==> MakeDirs(t, p)[q] == if q in t then t[q] else DirNode
  {
    if Above(q, p) { assert q == p[..|q|]; }
  }

  lemma DirsMade(job: Job, t: Tree, open: set<Path>, removed: set<Path>, placed: set<Path>, p: Path)
    requires Tracked(job, t, open, removed, placed) && p in Targets(job) && p != [] && NoBlock(t, p)
    ensures Tracked(job, MakeDirs(t, p), open, removed, placed)
    ensures Parent(p) in MakeDirs(t, p) && MakeDirs(t, p)[Parent(p)].DirNode?
    ensures NoBlock(MakeDirs(t, p), p)
  {
    var t2 := MakeDirs(t, p);
    forall q ensures (q in t2 <==> q in t || Above(q, p)) && (q in t2 ==> t2[q] == if q in t then t[q] else DirNode) {
      DirsAt(t, p, q);
    }
    forall q | q in t2 && q != [] ensures Parent(q) in t2 && t2[Parent(q)].DirNode? {
      if Above(q, p) { assert Parent(q) == p[..|q| - 1] && Above(Parent(q), p); }
    }
    forall q | q in t2 && q !in t ensures Leads(job, q) { assert Above(q, p); }
    assert Above(Parent(p), p) && Parent(p) == p[..|p| - 1];
  }

  lemma DirsSound(job: Job, t: Tree, p: Path)
    requires Upholds(job, t) && p in Targets(job)
    ensures Upholds(job, MakeDirs(t, p))
  {
    hide Orderly, Sound, Spares, Passable;
    SparesDirs(job, t, p);
    PassableDirs(job, t, p);
    if Orderly(job) { DirsKeepSound(job, t, p); }
  }

  lemma DirsKeepSound(job: Job, t: Tree, p: Path)
    requires Sound(job, t)
    ensures Sound(job, MakeDirs(t, p))
  {
    var t2 := MakeDirs(t, p);
    forall q ensures (q in t2 <==> q in t || Above(q, p)) && (q in t2 ==> t2[q] == if q in t then t[q] else DirNode) {
      DirsAt(t, p, q);
    }
    forall m, b | m in ManifestPaths(job) && m != [] && Current(t2, m, b) ensures NamesPresent(t2, m, b) {
      assert Current(t, m, b);
    }
  }

  /** Something new at `p`, or in the place of a file or link. */
  predicate Settable(t: Tree, p: Path) {
    p != [] && Parent(p) in t && t[Parent(p)].DirNode? && (p in t ==> !t[p].DirNode?)
  }

  lemma SetWellFormed(t: Tree, p: Path, n: Node)
    requires WellFormed(t) && Settable(t, p)
    ensures WellFormed(t[p := n])
  {
    forall q | q in t[p := n] && q != [] ensures Parent(q) in t && t[Parent(q)].DirNode? && Parent(q) != p {
      assert |Parent(q)| < |q|;
    }
  }

  lemma TargetSet(job: Job, t: Tree, open: set<Path>, removed: set<Path>, placed: set<Path>, p: Path, n: Node)
    requires Tracked(job, t, open, removed, placed) && Settable(t, p) && Written(job, p, n)
    ensures Tracked(job, t[p := n], open, removed, placed)
    ensures Tracked(job, t[p := n], open, removed, placed + {p})
  {
    SetWellFormed(t, p, n);
  }

  lemma ScratchSet(job: Job, t: Tree, open: set<Path>, removed: set<Path>, placed: set<Path>, q: Path, n: Node)
    requires Tracked(job, t, open, removed, placed) && Settable(t, q) && Scratch(job, q)
    ensures Tracked(job, t[q := n], open + {q}, removed, placed)
  {
    SetWellFormed(t, q, n);
  }

  lemma Dropped(job: Job, t: Tree, open: set<Path>, removed: set<Path>, placed: set<Path>, p: Path)
    requires Tracked(job, t, open, removed, placed) && p in t && p != [] && (!t[p].DirNode? || EmptyDir(t, p))
    requires p in placed ==> Scratch(job, p)
    ensures Tracked(job, Without(t, p), open - {p}, removed + {p}, placed)
    ensures Scratch(job, p) ==> Tracked(job, Without(t, p), open - {p}, removed, placed)
  {
    WithoutWellFormed(t, p);
  }

  /** A change to one file that is no manifest readers can see, and no file they need. */
  lemma SetSound(job: Job, t: Tree, p: Path, n: Node)
    requires Sound(job, t) && !n.DirNode? && (p in ManifestPaths(job) ==> !n.FileNode?)
    requires p in job.content && n.FileNode? && p != [] && Partial(p) !in job.plan.downloads ==>
               n.data == job.content[p]
    ensures Sound(job, t[p := n])
  {
    var t2 := t[p := n];
    forall m, b | m in ManifestPaths(job) && m != [] && Current(t2, m, b) ensures NamesPresent(t2, m, b) {
      assert Current(t, m, b);
    }
  }

  lemma PublishSound(job: Job, t: Tree, m: Manifest)
    requires Sound(job, t) && m.at != [] && m.at !in job.content
    requires GoodManifest(m.body) ==> NamesPresent(t, m.at, m.body)
    ensures forall mtime :: Sound(job, t[m.at := FileNode(Repomd(m.body, m.bytes), mtime)])
  {
    forall mtime ensures Sound(job, t[m.at := FileNode(Repomd(m.body, m.bytes), mtime)]) {
      var t2 := t[m.at := FileNode(Repomd(m.body, m.bytes), mtime)];
      forall p, b | p in ManifestPaths(job) && p != [] && Current(t2, p, b) ensures NamesPresent(t2, p, b) {
        if p != m.at { assert Current(t, p, b); }
      }
    }
  }

  lemma DropSound(job: Job, t: Tree, p: Path)
    requires Sound(job, t) && p != []
    requires ScratchName(Leaf(p)) || (p in t && t[p].DirNode?)
             || forall m, b | m in ManifestPaths(job) && m != [] && Current(t, m, b) :: p !in NamedAt(m, b)
    ensures Sound(job, Without(t, p))
  {
    var t2 := Without(t, p);
    forall m, b | m in ManifestPaths(job) && m != [] && Current(t2, m, b) ensures NamesPresent(t2, m, b) {
      assert Current(t, m, b);
      forall n | n in Named(b) ensures Present(t2, Parent(m) + [n]) {
        assert Present(t, Parent(m) + [n]) && !ScratchName(n) && Parent(m) + [n] in NamedAt(m, b);
        assert Leaf(Parent(m) + [n]) == n;
      }
    }
  }

  function NamedAt(m: Path, b: Body): set<Path>
    requires m != [] && GoodManifest(b)
  {
    set n | n in Named(b) :: Parent(m) + [n]
  }

  // --- the order of landings -------------------------------------------------------------------

  predicate HasFile(t: Tree, p: Path) { p in t && t[p].FileNode? }

  /** `q` landed after `p`. */
  ghost predicate LandsAfter(order: seq<Path>, q: Path, p: Path) {
    exists i, j | 0 <= i < j < |order| :: order[i] == p && order[j] == q
  }

  /** If `q` is the name of a planned file's partial file, it landed after that file; manifests go
      out after everything has landed. */
  ghost predicate LandsLater(job: Job, order: seq<Path>, q: Path) {
    forall p | p != [] && (p in job.plan.downloads || p in ManifestPaths(job)) && Partial(p) == q ::
      p !in ManifestPaths(job) && LandsAfter(order, q, p)
  }

  /** `q` landed, and nothing else happened at its name or at that of its partial file. */
  ghost predicate Steady(job: Job, order: seq<Path>, q: Path) {
    q in order && q != [] && LandsLater(job, order, q) && !LandsAfter(order, q, Partial(q))
  }

  /** `order` lists the downloads that have landed, each once. */
  ghost predicate Order(job: Job, order: seq<Path>) {
    && (forall p | p in order :: p in job.plan.downloads && p != [])
    && (forall i, j | 0 <= i < j < |order| :: order[i] != order[j])
  }

  /** What is in place: the downloads that have landed and the manifests that are out. */
  ghost function Settled(order: seq<Path>, out: set<Path>): set<Path> { (set p | p in order) + out }

  /** What is at a name the run has used for a partial file: the file of that name if it landed
      afterwards, or a link the plan has there. */
  ghost predicate Leftover(job: Job, t: Tree, q: Path, landed: bool) {
    && (HasFile(t, q) <==> landed)
    && (q in t && t[q].LinkNode? ==> q in LinkPaths(job))
  }

  /** The same for every partial name used so far, but for those of the files in `busy`. */
  ghost predicate Partials(job: Job, t: Tree, out: set<Path>, order: seq<Path>, busy: set<Path>) {
    forall p {:trigger Partial(p)} | (p in order || p in out) && p !in busy && p != [] ::
      Leftover(job, t, Partial(p), p !in out && LandsAfter(order, Partial(p), p))
  }

  ghost predicate Owns(job: Job, t: Tree, out: set<Path>, order: seq<Path>) {
    forall p | Steady(job, order, p) && p !in out :: p in t && Own(job, p, t[p])
  }

  /** A partial file being written is still the empty file its download created, unless a file of
      that name has landed. */
  ghost predicate Opens(t: Tree, open: set<Path>, order: seq<Path>) {
    forall q | q in open && HasFile(t, q) :: t[q] == EMPTY_FILE || q in order
  }

  ghost predicate Ranked(job: Job, t: Tree, open: set<Path>, out: set<Path>, order: seq<Path>, busy: set<Path>) {
    && Order(job, order) && out <= ManifestPaths(job)
    && Partials(job, t, out, order, busy) && Owns(job, t, out, order) && Opens(t, open, order)
  }

  /** A planned file that has not landed, or a manifest on its way out: its partial name is free. */
  ghost predicate Unused(job: Job, out: set<Path>, order: seq<Path>, busy: set<Path>, p: Path) {
    && p != []
    && ((p in job.plan.downloads && p !in order && p !in out) || (p in ManifestPaths(job) && p in busy))
  }

  /** `t2` has the files and links of `t`, and more directories. */
  ghost predicate DirsOnly(t: Tree, t2: Tree) {
    && (forall q | q in t :: q in t2 && t2[q] == t[q])
    && (forall q | q in t2 && q !in t :: t2[q].DirNode?)
  }

  lemma MakesDirsOnly(t: Tree, p: Path)
    ensures DirsOnly(t, MakeDirs(t, p))
  {
    var t2 := MakeDirs(t, p);
    forall q ensures (q in t2 <==> q in t || Above(q, p)) && (q in t2 ==> t2[q] == if q in t then t[q] else DirNode) {
      DirsAt(t, p, q);
    }
  }

  lemma RankedDirs(job: Job, t: Tree, open: set<Path>, out: set<Path>, order: seq<Path>, p: Path)
    requires Ranked(job, t, open, out, order, {})
    ensures Ranked(job, MakeDirs(t, p), open, out, order, {})
  {
    hide Steady, LandsAfter, Own, MakeDirs, Order, Partials, ManifestPaths;
    var t2 := MakeDirs(t, p);
    MakesDirsOnly(t, p);
    PartialsDirs(job, t, t2, out, order);
  }

  lemma PartialsDirs(job: Job, t: Tree, t2: Tree, out: set<Path>, order: seq<Path>)
    requires Partials(job, t, out, order, {}) && DirsOnly(t, t2)
    ensures Partials(job, t2, out, order, {})
  {
    hide LandsAfter, LinkPaths;
    forall q, landed | Leftover(job, t, q, landed) ensures Leftover(job, t2, q, landed) {}
  }

  /** A partial name in use belongs to no file that has landed for good. */
  lemma NotLanded(job: Job, out: set<Path>, order: seq<Path>, busy: set<Path>, p: Path)
    requires Order(job, order) && Unused(job, out, order, busy, p)
    ensures forall x | (x in order || x in out) && x !in busy && x != [] :: Partial(x) != Partial(p)
    ensures !Steady(job, order, Partial(p))
  {
    forall x | (x in order || x in out) && x !in busy && x != [] ensures Partial(x) != Partial(p) {
      if Partial(x) == Partial(p) { PartialInjective(x, p); }
    }
    if p !in ManifestPaths(job) && LandsAfter(order, Partial(p), p) { NeverAfter(order, Partial(p), p); }
  }

  lemma PartialsElsewhere(job: Job, t: Tree, t2: Tree, out: set<Path>, order: seq<Path>, busy: set<Path>, q: Path)
    requires Partials(job, t, out, order, busy) && Same(t, t2, q)
    requires forall x | (x in order || x in out) && x !in busy && x != [] :: Partial(x) != q
    ensures Partials(job, t2, out, order, busy)
  {
    hide LandsAfter, LinkPaths;
    forall x | (x in order || x in out) && x !in busy && x != []
      ensures Leftover(job, t2, Partial(x), x !in out && LandsAfter(order, Partial(x), x))
    {
      assert Leftover(job, t, Partial(x), x !in out && LandsAfter(order, Partial(x), x));
    }
  }

  lemma OwnsElsewhere(job: Job, t: Tree, t2: Tree, out: set<Path>, order: seq<Path>, q: Path)
    requires Owns(job, t, out, order) && Same(t, t2, q)
    ensures !Steady(job, order, q) ==> Owns(job, t2, out, order)
    ensures Owns(job, t2, out + {q}, order)
  {
    hide Steady, Own;
  }

  /** The partial file of a file yet to land is created, or unlinked. */
  lemma RankedScratch(job: Job, t: Tree, t2: Tree, open: set<Path>, out: set<Path>, order: seq<Path>, busy: set<Path>,
                      p: Path)
    requires Ranked(job, t, open, out, order, busy) && Unused(job, out, order, busy, p)
    requires Same(t, t2, Partial(p)) && (Partial(p) in t2 ==> t2[Partial(p)] == EMPTY_FILE)
    ensures Ranked(job, t2, open + {Partial(p)}, out, order, busy)
    ensures Partial(p) !in t2 ==> Ranked(job, t2, open - {Partial(p)}, out, order, busy)
  {
    hide Steady, LandsAfter, Order, Own, Partials, Owns;
    NotLanded(job, out, order, busy, p);
    PartialsElsewhere(job, t, t2, out, order, busy, Partial(p));
    OwnsElsewhere(job, t, t2, out, order, Partial(p));
  }

  lemma RankedGone(job: Job, t: Tree, open: set<Path>, out: set<Path>, order: seq<Path>, p: Path)
    requires Ranked(job, t, open, out, order, {}) && Unused(job, out, order, {}, p)
    ensures Ranked(job, Without(t, Partial(p)), open, out, order, {})
  {
    hide Order, Partials, Owns, Unused;
    assert p != [] by { UnusedName(job, out, order, {}, p); }
    RankedScratch(job, t, Without(t, Partial(p)), open, out, order, {}, p);
  }

  lemma UnusedName(job: Job, out: set<Path>, order: seq<Path>, busy: set<Path>, p: Path)
    requires Unused(job, out, order, busy, p)
    ensures p != [] && (p in job.plan.downloads || p in ManifestPaths(job))
  {
  }

  /** Nothing lands after the last landing, and earlier ones keep their order. */
  lemma OrderGrows(order: seq<Path>, last: Path, q: Path, p: Path)
    requires last !in order
    ensures LandsAfter(order + [last], q, p) <==> LandsAfter(order, q, p) || (q == last && p in order)
  {
    var more := order + [last];
    if LandsAfter(more, q, p) {
      var i, j :| 0 <= i < j < |more| && more[i] == p && more[j] == q;
      if j < |order| { assert order[i] == p && order[j] == q; } else { assert order[i] == p; }
    }
    if LandsAfter(order, q, p) {
      var i, j :| 0 <= i < j < |order| && order[i] == p && order[j] == q;
      assert more[i] == p && more[j] == q;
    }
    if q == last && p in order {
      var i :| 0 <= i < |order| && order[i] == p;
      assert more[i] == p && more[|order|] == q;
    }
  }

  lemma NeverAfter(order: seq<Path>, q: Path, p: Path)
    requires LandsAfter(order, q, p)
    ensures q in order && p in order
  {
  }

  lemma OrderLast(job: Job, order: seq<Path>, p: Path)
    requires Order(job, order) && p in job.plan.downloads && p != [] && p !in order
    ensures Order(job, order + [p])
  {
  }

  /** Who is steady after one more landing. */
  lemma SteadyGrows(job: Job, order: seq<Path>, p: Path, x: Path)
    requires Order(job, order) && p in job.plan.downloads && p != [] && p !in order
    requires Steady(job, order + [p], x)
    ensures x != Partial(p) && (x == p || Steady(job, order, x)) && (x == p ==> Partial(p) !in order)
  {
    var more := order + [p];
    if x == Partial(p) {
      OrderGrows(order, p, x, p);
      if LandsAfter(order, x, p) { NeverAfter(order, x, p); }
      assert false;
    }
    OrderGrows(order, p, x, Partial(x));
    forall y | y != [] && (y in job.plan.downloads || y in ManifestPaths(job)) && Partial(y) == x
      ensures x != p ==> LandsAfter(order, x, y)
    {
      OrderGrows(order, p, x, y);
    }
  }

  lemma PartialsLand(job: Job, t: Tree, t2: Tree, order: seq<Path>, p: Path, n: Node)
    requires Order(job, order) && Partials(job, t, {}, order, {}) && p in job.plan.downloads && p != [] && p !in order
    requires n.FileNode? && t2 == Without(t, Partial(p))[p := n]
    ensures Partials(job, t2, {}, order + [p], {})
  {
    hide LandsAfter, Steady;
    var more := order + [p];
    forall x | x in more && x != [] ensures Leftover(job, t2, Partial(x), LandsAfter(more, Partial(x), x)) {
      OrderGrows(order, p, Partial(x), x);
      if x == p {
        if LandsAfter(order, Partial(p), p) { NeverAfter(order, Partial(p), p); }
      } else {
        NotLanded(job, {}, order, {}, p);
        assert Leftover(job, t, Partial(x), LandsAfter(order, Partial(x), x));
      }
    }
  }

  lemma OwnsLand(job: Job, t: Tree, t2: Tree, order: seq<Path>, p: Path, n: Node)
    requires Order(job, order) && Owns(job, t, {}, order) && p in job.plan.downloads && p != [] && p !in order
    requires t2 == Without(t, Partial(p))[p := n] && (Partial(p) !in order ==> Own(job, p, n))
    ensures Owns(job, t2, {}, order + [p])
  {
    hide Steady, LandsAfter, Own, Order;
    forall x | Steady(job, order + [p], x) ensures x in t2 && Own(job, x, t2[x]) {
      SteadyGrows(job, order, p, x);
    }
  }

  /** A download lands: with its own content, unless another file had landed at its partial name. */
  lemma RankedLand(job: Job, t: Tree, open: set<Path>, order: seq<Path>, p: Path, n: Node)
    requires Ranked(job, t, open, {}, order, {}) && p in job.plan.downloads && p != [] && p !in order && n.FileNode?
    requires Partial(p) !in order ==> Own(job, p, n)
    ensures Ranked(job, Without(t, Partial(p))[p := n], open - {Partial(p)}, {}, order + [p], {})
  {
    hide Own, Order, Partials, Owns;
    var t2 := Without(t, Partial(p))[p := n];
    OrderLast(job, order, p);
    PartialsLand(job, t, t2, order, p, n);
    OwnsLand(job, t, t2, order, p, n);
  }

  /** A manifest is put in place, once its partial file is there. */
  lemma RankedPublish(job: Job, t: Tree, out: set<Path>, order: seq<Path>, m: Path, n: Node)
    requires Proper(job) && m in ManifestPaths(job) && m != [] && n.FileNode?
    requires Ranked(job, t, {Partial(m)}, out, order, {m})
    ensures Ranked(job, Without(t, Partial(m))[m := n], {}, out + {m}, order, {})
  {
    hide Steady, LandsAfter, Proper, Own, Order, Partials, Owns;
    var t1 := Without(t, Partial(m));
    var t2 := t1[m := n];
    RankedScratch(job, t, t1, {Partial(m)}, out, order, {m}, m);
    NoPartialName(job, m);
    PartialsElsewhere(job, t1, t2, out, order, {m}, m);
    PartialGone(job, t2, out, order, m);
    OwnsElsewhere(job, t1, t2, out, order, m);
  }

  lemma NoPartialName(job: Job, m: Path)
    requires Proper(job) && m in ManifestPaths(job)
    ensures forall x | x != [] :: Partial(x) != m
  {
    ManifestNames(job);
    forall x | x != [] ensures Partial(x) != m { assert ScratchName(Leaf(Partial(x))); }
  }

  lemma PartialGone(job: Job, t: Tree, out: set<Path>, order: seq<Path>, m: Path)
    requires Partials(job, t, out, order, {m}) && m != [] && Partial(m) !in t
    ensures Partials(job, t, out + {m}, order, {})
  {
    hide LandsAfter, LinkPaths;
    forall x | (x in order || x in out + {m}) && x != []
      ensures Leftover(job, t, Partial(x), x !in out + {m} && LandsAfter(order, Partial(x), x))
    {
      if x != m { assert Leftover(job, t, Partial(x), x !in out && LandsAfter(order, Partial(x), x)); }
    }
  }

  lemma SteadyDownload(job: Job, order: seq<Path>, x: Path)
    requires Order(job, order) && Steady(job, order, x)
    ensures x in job.plan.downloads
  {
  }

  /** Something that is no target is removed. */
  lemma RankedRemove(job: Job, t: Tree, out: set<Path>, order: seq<Path>, p: Path)
    requires Ranked(job, t, {}, out, order, {}) && p !in Targets(job)
    ensures Ranked(job, Without(t, p), {}, out, order, {})
  {
    hide Steady, Order, Own, LandsAfter, ManifestPaths;
    var t2 := Without(t, p);
    forall x | (x in order || x in out) && x != []
      ensures Leftover(job, t2, Partial(x), x !in out && LandsAfter(order, Partial(x), x))
    {
      assert Leftover(job, t, Partial(x), x !in out && LandsAfter(order, Partial(x), x));
      if LandsAfter(order, Partial(x), x) {
        NeverAfter(order, Partial(x), x);
        Landed(job, order, Partial(x));
      }
    }
    forall x | Steady(job, order, x) && x !in out
      ensures x in t2 && Own(job, x, t2[x]) { SteadyDownload(job, order, x); }
  }

  lemma Landed(job: Job, order: seq<Path>, x: Path)
    requires Order(job, order) && x in order
    ensures x in Targets(job)
  {
  }

  /** A planned link is made where nothing is. */
  lemma RankedLink(job: Job, t: Tree, open: set<Path>, out: set<Path>, order: seq<Path>, l: Link)
    requires Ranked(job, t, open, out, order, {}) && l in job.plan.links && l.at !in t
    ensures Ranked(job, t[l.at := LinkNode(l.target)], open, out, order, {})
  {
    hide Steady, LandsAfter, Order, Own, ManifestPaths;
    assert l.at in LinkPaths(job);
  }

  // --- a proper job ------------------------------------------------------------------------------

  /** What planning guarantees on any server. */
  ghost predicate Proper(job: Job) {
    && WellFormed(job.start) && [] !in Targets(job)
    && (forall m | m in job.plan.manifests :: m.at != [] && Leaf(m.at) == "repomd.xml" && GoodManifest(m.body))
    && (forall p | p in job.plan.deletes || p in job.plan.deleteDirs :: p != [] && p !in Targets(job))
    && (forall p | p in job.plan.deletes :: Present(job.start, p))
  }

  /** What crash consistency needs besides: metadata names stand for one content and are not names of
      partial files, no manifest is an ordinary download, what manifests name is planned or there
      already, and the start is sound. */
  ghost predicate Orderly(job: Job) {
    && Sound(job, job.start) && (forall m | m in job.plan.manifests :: ProperManifest(job, m))
    && (forall p | p in job.content ::
          p != [] && !ScratchName(Leaf(p)) && p !in ManifestPaths(job)
          && (job.served(p).Got? ==> job.served(p).data == job.content[p]))
  }

  ghost predicate ProperManifest(job: Job, m: Manifest) {
    && m.at != [] && GoodManifest(m.body) && m.at !in job.plan.downloads
    && forall p | p in NamedAt(m.at, m.body) ::
      && !ScratchName(Leaf(p)) && p !in job.plan.deletes
      && (job.plan.incomplete || p in job.plan.downloads || Present(job.start, p))
  }

  /** What a run may change: what it fetches or links, their partial names, what it deletes. */
  ghost predicate Touched(job: Job, q: Path) {
    q in Targets(job) || Scratch(job, q) || q in job.plan.deletes || q in job.plan.deleteDirs
  }

  /** All else that was there is there as it was. */
  ghost predicate Spares(job: Job, t: Tree) {
    forall q {:trigger Touched(job, q)} | q in job.start && !Touched(job, q) :: q in t && t[q] == job.start[q]
  }

  ghost predicate AllSpared(job: Job, ts: seq<Tree>) { forall i | 0 <= i < |ts| :: Spares(job, ts[i]) }

  lemma SparesSet(job: Job, t: Tree, q: Path, n: Node)
    requires Spares(job, t) && Touched(job, q)
    ensures Spares(job, t[q := n]) && Spares(job, Without(t, q))
  {
    hide Touched;
  }

  lemma SparesDirs(job: Job, t: Tree, p: Path)
    requires Spares(job, t)
    ensures Spares(job, MakeDirs(t, p))
  {
    hide Touched;
    forall q | q in t ensures q in MakeDirs(t, p) && MakeDirs(t, p)[q] == t[q] { DirsAt(t, p, q); }
  }

  ghost predicate Puts(job: Job, p: Path) { p in job.plan.downloads || p in ManifestPaths(job) }

  /** Nothing local and nothing else planned is in the way of what the plan puts in place. */
  ghost predicate Free(job: Job) {
    && (forall q, p | Above(q, p) && p in Targets(job) :: !Present(job.start, q) && q !in Targets(job))
    && (forall p | Puts(job, p) && p in job.start :: !job.start[p].DirNode?)
    && (forall q | Scratch(job, q) && q in job.start :: !job.start[q].DirNode?)
    && (forall q, r | Scratch(job, q) && r in Targets(job) :: !Above(q, r))
    && (forall p | p in job.plan.deleteDirs :: p in job.start && job.start[p].DirNode?)
  }

  ghost predicate Unbarred(job: Job, t: Tree) {
    && (forall q, p | Above(q, p) && p in Targets(job) :: !Present(t, q))
    && (forall p | Puts(job, p) && p in t :: !t[p].DirNode?)
    && (forall q | Scratch(job, q) && q in t :: !t[q].DirNode?)
    && (forall p | p in job.plan.deleteDirs :: !Present(t, p))
  }

  /** Of a job that nothing is in the way of, nothing ever is. */
  ghost predicate Passable(job: Job, t: Tree) { Free(job) ==> Unbarred(job, t) }

  lemma PassableStart(job: Job)
    ensures Passable(job, job.start)
  {
    hide Scratch;
  }

  lemma PassableSet(job: Job, t: Tree, q: Path, n: Node)
    requires Proper(job) && Passable(job, t) && !n.DirNode? && (q in Targets(job) || Scratch(job, q))
    ensures Passable(job, t[q := n])
  {
    hide Scratch, Targets, Puts;
    if Free(job) {
      var t2 := t[q := n];
      forall x, p | Above(x, p) && p in Targets(job) ensures !Present(t2, x) { assert !Present(t, x); }
    }
  }

  lemma PassableDirs(job: Job, t: Tree, p: Path)
    requires Passable(job, t) && p in Targets(job)
    ensures Passable(job, MakeDirs(t, p))
  {
    hide Scratch, Targets;
    if Free(job) {
      var t2 := MakeDirs(t, p);
      forall q ensures (q in t2 <==> q in t || Above(q, p)) && (q in t2 ==> t2[q] == if q in t then t[q] else DirNode) {
        DirsAt(t, p, q);
      }
      forall r | Puts(job, r) ensures r in Targets(job) { PutsTarget(job, r); }
    }
  }

  lemma PutsTarget(job: Job, p: Path)
    requires Puts(job, p)
    ensures p in Targets(job)
  {
  }

  lemma PassableDrop(job: Job, t: Tree, q: Path)
    requires Passable(job, t)
    ensures Passable(job, Without(t, q))
  {
    hide Scratch, Targets, Puts;
  }

  /** Nothing spoilt, nothing in the way of a job that nothing was in the way of, and sound if the job
      is orderly. */
  ghost predicate Upholds(job: Job, t: Tree) {
    Spares(job, t) && Passable(job, t) && (Orderly(job) ==> Sound(job, t))
  }

  lemma ManifestNames(job: Job)
    requires Proper(job)
    ensures forall p | p in ManifestPaths(job) :: p != [] && !ScratchName(Leaf(p)) && !Scratch(job, p)
  {
    assert "repomd.xml"[2..] == "pomd.xml" != ".partial";
  }

  lemma ManifestsApart(job: Job)
    requires Orderly(job)
    ensures forall p | p in ManifestPaths(job) :: p !in job.plan.downloads
  {
    forall p | p in ManifestPaths(job) ensures p !in job.plan.downloads {
      var m :| m in job.plan.manifests && m.at == p;
      assert ProperManifest(job, m);
    }
  }

  /** Once every download has landed, a planned manifest may be published. */
  lemma ReadyToPublish(job: Job, t: Tree, open: set<Path>, placed: set<Path>, m: Manifest)
    requires Proper(job) && Orderly(job) && Tracked(job, t, open, {}, placed) && m in job.plan.manifests
    requires !job.plan.incomplete && forall p | p in job.plan.downloads :: p in placed
    ensures NamesPresent(t, m.at, m.body)
  {
    hide NewOnly, WellFormed, GoodManifest, Named, Intact, Own;
    assert ProperManifest(job, m);
    forall n | n in Named(m.body) ensures !ScratchName(n) && Present(t, Parent(m.at) + [n]) {
      var p := Parent(m.at) + [n];
      assert p in NamedAt(m.at, m.body) && Leaf(p) == n;
      assert !Scratch(job, p);
    }
  }

  /** Once every planned manifest is out, no planned delete is named by a manifest. */
  lemma ReadyToDelete(job: Job, t: Tree, open: set<Path>, removed: set<Path>, placed: set<Path>, p: Path)
    requires Proper(job) && Orderly(job) && Tracked(job, t, open, removed, placed) && p in job.plan.deletes
    requires forall m | m in ManifestPaths(job) :: m in placed
    ensures forall m, b | m in ManifestPaths(job) && m != [] && Current(t, m, b) :: p !in NamedAt(m, b)
  {
    ManifestNames(job);
    ManifestsApart(job);
    forall m, b | m in ManifestPaths(job) && m != [] && Current(t, m, b) ensures p !in NamedAt(m, b) {
      assert Written(job, m, t[m]);
      assert Manifest(m, b, t[m].data.bytes) in job.plan.manifests;
      assert ProperManifest(job, Manifest(m, b, t[m].data.bytes));
    }
  }

  // --- planned deletes that are gone before their turn -------------------------------------------

  /** Once everything has landed and is out, a planned delete is still there exactly if the run has
      not used its name for a partial file. */
  lemma StaleGone(job: Job, t: Tree, out: set<Path>, order: seq<Path>, q: Path)
    requires Proper(job) && Tracked(job, t, {}, {}, Settled(order, out)) && Ranked(job, t, {}, out, order, {})
    requires AllLanded(job, order) && AllOut(job, out) && q in job.plan.deletes
    ensures !Present(t, q) <==> Scratch(job, q)
  {
    hide Tracked, Ranked, AllLanded, AllOut, Present, Settled;
    if Scratch(job, q) {
      var p :| (p in job.plan.downloads || p in ManifestPaths(job)) && p != [] && q == Partial(p);
      UsedUp(job, t, out, order, p);
    } else {
      StillThere(job, t, Settled(order, out), q);
    }
  }

  lemma UsedUp(job: Job, t: Tree, out: set<Path>, order: seq<Path>, p: Path)
    requires Proper(job) && Ranked(job, t, {}, out, order, {}) && AllLanded(job, order) && AllOut(job, out)
    requires (p in job.plan.downloads || p in ManifestPaths(job)) && p != [] && Partial(p) in job.plan.deletes
    ensures !Present(t, Partial(p))
  {
    hide LandsAfter, Owns, Opens, ManifestPaths, LinkPaths;
    NoTarget(job, Partial(p));
    assert Leftover(job, t, Partial(p), p !in out && LandsAfter(order, Partial(p), p));
    if LandsAfter(order, Partial(p), p) { NeverAfter(order, Partial(p), p); }
  }

  lemma StillThere(job: Job, t: Tree, placed: set<Path>, q: Path)
    requires Proper(job) && Tracked(job, t, {}, {}, placed) && q in job.plan.deletes && !Scratch(job, q)
    ensures Present(t, q)
  {
    hide NewOnly, Placed, Own, Scratch;
    NoTarget(job, q);
    assert q in job.start && q in t;
  }

  /** The planned deletes at names the run uses for partial files. */
  ghost function Stale(job: Job): set<Path> { set q | q in job.plan.deletes && Scratch(job, q) }

  lemma StaleAbsent(job: Job, t: Tree, out: set<Path>, order: seq<Path>)
    requires Proper(job) && Tracked(job, t, {}, {}, Settled(order, out)) && Ranked(job, t, {}, out, order, {})
    requires AllLanded(job, order) && AllOut(job, out)
    ensures Absent(t, job.plan.deletes) == Stale(job)
  {
    hide Proper, Tracked, Ranked, Scratch, Present, AllLanded, AllOut;
    forall q | q in job.plan.deletes ensures !Present(t, q) <==> Scratch(job, q) { StaleGone(job, t, out, order, q); }
  }

  /** How one download ended. */
  datatype Outcome = Landed(bytes: nat) | Failed(code: Option<nat>) | Aborted | Panicked

  predicate OnlyWarned(o: Outcome, critical: bool, forbidden: bool)
    requires o.Failed?
  {
    !critical && (o.code in {Some(404), Some(410)} || (forbidden && o.code == Some(403)))
  }

  /** A download and how it ended. */
  datatype Ending = Ending(at: Path, o: Outcome)

  /** `n` is this name, or this name and an extension. */
  predicate HasStem(n: string, stem: string) {
    n == stem || (|n| > |stem| && n[..|stem|] == stem && n[|stem|] == '.')
  }

  /** Metadata: anything in a directory called `repodata`, and the index files of package trees. */
  ghost predicate Vital(root: Path, p: Path) {
    || (exists i :: 0 <= i < |root + p| && (root + p)[i] == "repodata")
    || (p != [] && p[|p| - 1] in {"Release", "Release.gpg", "InRelease", "repomd.xml", "index.html"})
    || (p != [] && (HasStem(p[|p| - 1], "Packages") || HasStem(p[|p| - 1], "Sources")))
  }

  /** A file that upstream says is gone, or that it keeps back and may, is only missing; metadata never
      is. */
  ghost predicate Forgiven(e: Ending, root: Path, forbidden: bool) {
    && e.o.Failed? && !Vital(root, e.at)
    && (e.o.code == Some(404) || e.o.code == Some(410) || (e.o.code == Some(403) && forbidden))
  }

  ghost function Forgivings(ends: seq<Ending>, root: Path, forbidden: bool): nat {
    if ends == [] then 0
    else Forgivings(ends[..|ends| - 1], root, forbidden)
         + if Forgiven(ends[|ends| - 1], root, forbidden) then 1 else 0
  }

  ghost function Landings(ends: seq<Ending>): nat {
    if ends == [] then 0 else Landings(ends[..|ends| - 1]) + if ends[|ends| - 1].o.Landed? then 1 else 0
  }

  ghost function Received(ends: seq<Ending>): nat {
    if ends == [] then 0
    else Received(ends[..|ends| - 1]) + if ends[|ends| - 1].o.Landed? then ends[|ends| - 1].o.bytes else 0
  }

  ghost function BytesOf(manifests: seq<Manifest>): nat {
    if manifests == [] then 0 else BytesOf(manifests[..|manifests| - 1]) + manifests[|manifests| - 1].bytes
  }

  ghost function EndsAt(ends: seq<Ending>, p: Path): nat {
    if ends == [] then 0 else EndsAt(ends[..|ends| - 1], p) + if ends[|ends| - 1].at == p then 1 else 0
  }

  /** An ending that the server's answer allows: an error status is that error, unless the download
      stopped, and only a full answer lands. If nothing can go wrong, a full answer does land, and
      nothing else fails but what the server does not give. */
  ghost predicate Answers(e: Ending, answer: Served, sure: bool) {
    && (e.o.Failed? && e.o.code.Some? ==> answer == Status(e.o.code.value))
    && (answer.Status? ==> e.o == Failed(Some(answer.code)) || e.o.Aborted? || e.o.Panicked?)
    && (e.o.Landed? ==> answer.Got? && e.o.bytes == answer.data.bytes)
    && (sure ==>
          match answer
          case Got(_) => e.o.Landed?
          case Status(code) => e.o == Failed(Some(code))
          case _ => e.o == Failed(None))
  }

  /** The downloads have ended as the server's answers allow, each once, and the figures are theirs. */
  ghost predicate Fetched(plan: Plan, served: Path -> Served, root: Path, forbidden: bool, sure: bool,
                          ends: seq<Ending>, s: Stats)
  {
    && (forall i | 0 <= i < |ends| :: Answers(ends[i], served(ends[i].at), sure))
    && (forall p :: EndsAt(ends, p) == multiset(plan.downloads)[p])
    && s.downloaded == Landings(ends) && s.bytes == Received(ends) && s.warned == Forgivings(ends, root, forbidden)
    && s.failed == Flag(plan.incomplete) + |ends| - Landings(ends) - s.warned
  }

  /** The figures of a finished run: the downloads, and the manifests if the listing was complete and
      every download landed. */
  ghost predicate Reported(plan: Plan, served: Path -> Served, root: Path, forbidden: bool, sure: bool,
                           ends: seq<Ending>, stale: nat, s: Stats)
  {
    var whole := !plan.incomplete && Landings(ends) == |ends|;
    && (forall i | 0 <= i < |ends| :: Answers(ends[i], served(ends[i].at), sure))
    && (forall p :: EndsAt(ends, p) == multiset(plan.downloads)[p])
    && s.downloaded == Landings(ends) + (if whole then |plan.manifests| else 0)
    && s.bytes == Received(ends) + (if whole then BytesOf(plan.manifests) else 0)
    && s.warned == Forgivings(ends, root, forbidden)
    && var failed := (if plan.incomplete then 1 else 0) + |ends| - Landings(ends) - s.warned;
      s.failed >= failed && (sure ==> s.failed == failed + if whole then stale else 0)
  }

  lemma {:induction false} ForgivenNotLanded(ends: seq<Ending>, root: Path, forbidden: bool)
    ensures Forgivings(ends, root, forbidden) + Landings(ends) <= |ends|
  {
    if ends != [] { ForgivenNotLanded(ends[..|ends| - 1], root, forbidden); }
  }

  lemma IsFetched(plan: Plan, served: Path -> Served, root: Path, forbidden: bool, sure: bool, ends: seq<Ending>,
                  s: Stats)
    requires forall i | 0 <= i < |ends| :: Answers(ends[i], served(ends[i].at), sure)
    requires forall p :: EndsAt(ends, p) == multiset(plan.downloads)[p]
    requires s.downloaded == Landings(ends) && s.bytes == Received(ends)
             && s.warned == Forgivings(ends, root, forbidden)
    requires s.failed == Flag(plan.incomplete) + |ends| - Landings(ends) - s.warned
    ensures Fetched(plan, served, root, forbidden, sure, ends, s)
  {
  }

  lemma ReportedBy(plan: Plan, served: Path -> Served, root: Path, forbidden: bool, sure: bool, ends: seq<Ending>,
                   stale: nat, t: Stats, s: Stats)
    requires Fetched(plan, served, root, forbidden, sure, ends, t) && s.warned == t.warned && s.failed >= t.failed
    requires sure ==> s.failed == t.failed + if t.Clean() then stale else 0
    requires s.downloaded == t.downloaded + if t.Clean() then |plan.manifests| else 0
    requires s.bytes == t.bytes + if t.Clean() then BytesOf(plan.manifests) else 0
    ensures Reported(plan, served, root, forbidden, sure, ends, stale, s)
  {
    hide Answers, EndsAt, Forgivings, Landings, Received, BytesOf;
    ForgivenNotLanded(ends, root, forbidden);
  }

  lemma EndsPositive(ends: seq<Ending>, i: nat)
    requires i < |ends|
    ensures EndsAt(ends, ends[i].at) > 0
    decreases |ends|
  {
    if i < |ends| - 1 { EndsPositive(ends[..|ends| - 1], i); }
  }

  lemma {:induction false} AllLandings(ends: seq<Ending>)
    requires forall i | 0 <= i < |ends| :: ends[i].o.Landed?
    ensures Landings(ends) == |ends|
  {
    if ends != [] { AllLandings(ends[..|ends| - 1]); }
  }

  /** A sure run for which the server has everything fails at nothing but its stale deletes. */
  lemma AllGot(plan: Plan, served: Path -> Served, root: Path, forbidden: bool, ends: seq<Ending>, stale: nat, s: Stats)
    requires Reported(plan, served, root, forbidden, true, ends, stale, s)
    ensures (forall p | p in plan.downloads :: served(p).Got?) && !plan.incomplete && stale == 0 ==> s.Clean()
  {
    hide EndsAt, Forgivings, Received, BytesOf;
    if forall p | p in plan.downloads :: served(p).Got? {
      forall i | 0 <= i < |ends| ensures ends[i].o.Landed? {
        EndsPositive(ends, i);
        assert multiset(plan.downloads)[ends[i].at] > 0;
      }
      AllLandings(ends);
      ForgivenNotLanded(ends, root, forbidden);
    }
  }

  lemma FirstPartIs(n: string, stem: string)
    requires stem != "" && '.' !in stem
    ensures FirstPart(n) == stem <==> HasStem(n, stem)
  {
    StemAt(n, stem);
  }

  lemma {:induction false} StemAt(n: string, stem: string)
    requires '.' !in stem
    ensures FirstPart(n) == stem <==> n == stem || (|n| > |stem| && n[..|stem|] == stem && n[|stem|] == '.')
    decreases |n|
  {
    if n != "" && n[0] != '.' {
      if stem != "" {
        StemAt(n[1..], stem[1..]);
        assert n == [n[0]] + n[1..] && stem == [stem[0]] + stem[1..];
        if |n| > |stem| { assert n[..|stem|] == [n[0]] + n[1..][..|stem| - 1]; }
      }
    } else if n != "" {
      assert n[..0] == "";
    }
  }

  lemma CriticalIs(root: Path, p: Path)
    requires p != []
    ensures Critical(root, p) <==> Vital(root, p)
  {
    FirstPartIs(Leaf(p), "Packages");
    FirstPartIs(Leaf(p), "Sources");
    hide HasStem, FirstPart;
    var all := root + p;
    assert "repodata" in all <==> exists i :: 0 <= i < |all| && all[i] == "repodata";
  }

  function Tally(s: Stats, o: Outcome, critical: bool, forbidden: bool, cancelled: bool): Stats {
    match o
    case Landed(n) => s.(downloaded := s.downloaded + 1, bytes := s.bytes + n)
    case Aborted => s
    case Panicked => if cancelled then s else s.(skipped := s.skipped + 1, failed := s.failed + 1)
    case Failed(_) =>
      if OnlyWarned(o, critical, forbidden) then s.(skipped := s.skipped + 1, warned := s.warned + 1)
      else s.(skipped := s.skipped + 1, failed := s.failed + 1)
  }

  // --- the mirror ------------------------------------------------------------------------------------

  /** The local mirror. `history` is every state its tree has been in since the run began. */
  class Mirror {
    /** Whether the run may be cancelled, a download panic, or the file system fail. */
    const troubled: bool
    var fs: Tree
    ghost var history: seq<Tree>

    constructor (t: Tree, troubled: bool)
      ensures fs == t && history == [t] && this.troubled == troubled
    {
      fs, history, this.troubled := t, [t], troubled;
    }

    /** Nothing stands in the way of the job, inside or outside. */
    ghost predicate Sure(job: Job) { !troubled && Free(job) }

    ghost predicate Safe(job: Job)
      reads this
    {
      && Proper(job) && history != [] && history[|history| - 1] == fs && Passable(job, fs)
      && AllSpared(job, history) && (Orderly(job) ==> AllSound(job, history))
    }

    /** Where the run is: the partial files it owns, what it has removed, the manifests that are out,
        the downloads that have landed in their order, and the manifest on its way out. */
    ghost predicate At(job: Job, open: set<Path>, removed: set<Path>, out: set<Path>, order: seq<Path>,
                       busy: set<Path> := {})
      reads this
    {
      Safe(job) && Tracked(job, fs, open, removed, Settled(order, out)) && Ranked(job, fs, open, out, order, busy)
    }

    lemma AtProper(job: Job, open: set<Path>, out: set<Path>, order: seq<Path>)
      requires At(job, open, {}, out, order)
      ensures Proper(job) && Order(job, order) && Upholds(job, fs)
    {
    }

    /** One atomic change on disk. */
    method Commit(t: Tree, ghost job: Job)
      requires Safe(job) && Upholds(job, t)
      modifies this
      ensures Safe(job) && fs == t && history == old(history) + [t]
    {
      hide Passable, Proper, Orderly, Sound, Spares;
      fs, history := t, history + [t];
    }

    /** Up to the creation of the empty partial file. */
    method OpenPartial(p: Path, ghost job: Job, ghost open: set<Path>, ghost order: seq<Path>) returns (ok: bool)
      requires At(job, open, {}, {}, order) && p in job.plan.downloads && p !in order
      modifies this
      ensures At(job, if ok then open + {Partial(p)} else open, {}, {}, order) && old(history) <= history
      ensures (Sure(job) ==> ok) && (ok ==> HasFile(fs, Partial(p))) && KeepsFiles(old(fs), fs, Partial(p))
    {
      hide Tracked, Sound, Proper, Ranked, Orderly, Settled, Passable, Spares, Targets;
      OneDownload(job, p);
      ClearFor(job, fs, p);
      KeepsDirs(fs, p);
      if !NoBlock(fs, p) { return false; }
      DirsMade(job, fs, open, {}, Settled(order, {}), p);
      DirsSound(job, fs, p);
      RankedDirs(job, fs, open, {}, order, p);
      Commit(MakeDirs(fs, p), job);
      if Partial(p) in fs && fs[Partial(p)].DirNode? { return false; }
      DropPartial(p, job, open, order);
      ok := WritePartial(p, job, open, {}, order, {});
    }

    /** A partial file is created, or emptied if it is there. */
    method WritePartial(p: Path, ghost job: Job, ghost open: set<Path>, ghost out: set<Path>, ghost order: seq<Path>,
                        ghost busy: set<Path>)
      returns (ok: bool)
      requires At(job, open, {}, out, order, busy) && Unused(job, out, order, busy, p)
      requires Parent(p) in fs && fs[Parent(p)].DirNode?
      modifies this
      ensures At(job, if ok then open + {Partial(p)} else open, {}, out, order, busy) && old(history) <= history
      ensures ok ==> fs == old(fs)[Partial(p) := EMPTY_FILE]
      ensures !ok ==> fs == old(fs)
      ensures !troubled && (Partial(p) in old(fs) ==> !old(fs)[Partial(p)].DirNode?) ==> ok
    {
      hide Tracked, Sound, Proper, Ranked, Scratch, Orderly, Settled, Passable, Spares;
      var q, full: bool := Partial(p), *;
      if (troubled && full) || (q in fs && fs[q].DirNode?) { return false; }
      ScratchMade(job, fs, open, Settled(order, out), p);
      RankedScratch(job, fs, fs[q := EMPTY_FILE], open, out, order, busy, p);
      Commit(fs[q := EMPTY_FILE], job);
      ok := true;
    }

    /** Unlink a partial file if there is one. */
    method DropPartial(p: Path, ghost job: Job, ghost open: set<Path>, ghost order: seq<Path>)
      requires At(job, open, {}, {}, order) && Unused(job, {}, order, {}, p)
      requires Partial(p) in fs ==> !fs[Partial(p)].DirNode?
      modifies this
      ensures At(job, open, {}, {}, order) && old(history) <= history
      ensures fs == Without(old(fs), Partial(p))
    {
      hide Tracked, Sound, Proper, Ranked, Orderly, Settled, Passable, Spares;
      if Partial(p) in fs {
        PartialDropped(job, fs, open, Settled(order, {}), p);
        MoreOpen(job, Without(fs, Partial(p)), open, {}, Settled(order, {}), Partial(p));
        RankedGone(job, fs, open, {}, order, p);
        Commit(Without(fs, Partial(p)), job);
      } else {
        assert Without(fs, Partial(p)) == fs;
      }
    }

    /** The rest of a download: the body arrives, is cut off, or the download stops; then the rename,
        of whatever is at the partial name by then. */
    method FinishDownload(p: Path, answer: Served, ghost job: Job, ghost open: set<Path>, ghost order: seq<Path>)
      returns (o: Outcome)
      requires At(job, open, {}, {}, order) && p in job.plan.downloads && p !in order && answer == job.served(p)
      requires p != [] && Partial(p) in open && !answer.Status?
      modifies this
      ensures if o.Landed? then At(job, open - {Partial(p)}, {}, {}, order + [p]) else At(job, open, {}, {}, order)
      ensures o.Landed? ==> Partial(p) !in fs
      ensures Answers(Ending(p, o), answer, Sure(job) && HasFile(old(fs), Partial(p)))
      ensures old(history) <= history && KeepsFiles(old(fs), fs, Partial(p))
      ensures !troubled ==> !o.Aborted? && !o.Panicked?
    {
      hide Tracked, Sound, Proper, Ranked, Orderly, Settled, Passable, Spares, Targets;
      OneDownload(job, p);
      ClearFor(job, fs, p);
      o := Panicked;
      var q, panics: bool, stops: bool, ioFails: bool := Partial(p), *, *, *;
      panics, stops, ioFails := troubled && panics, troubled && stops, troubled && ioFails;
      if panics || !HasFile(fs, q) { return if panics then Panicked else Failed(None); }
      if !stops && !ioFails && answer.Got? && (p in fs ==> !fs[p].DirNode?) {
        var now: int :| now > 0;
        var n := if fs[q] == EMPTY_FILE then FileNode(answer.data, now) else fs[q];
        MovedContent(job, fs, open, order, p, n);
        DownloadLands(job, fs, open, Settled(order, {}), p, n);
        SettledGrows(order, {}, p);
        RankedLand(job, fs, open, order, p, n);
        Commit(Without(fs, q)[p := n], job);
        return Landed(answer.data.bytes);
      }
      DropPartial(p, job, open, order);
      return if stops then Aborted else Failed(None);
    }

    /** A request: an error status, no answer, or the start of a body. */
    method StartDownload(p: Path, answer: Served, ghost job: Job, ghost open: set<Path>, ghost order: seq<Path>)
      returns (ok: bool, o: Outcome)
      requires At(job, open, {}, {}, order) && p in job.plan.downloads && p !in order && answer == job.served(p)
      modifies this
      ensures At(job, if ok then open + {Partial(p)} else open, {}, {}, order) && old(history) <= history
      ensures !o.Landed? && if ok then !answer.Status? else Answers(Ending(p, o), answer, Sure(job))
      ensures (ok ==> HasFile(fs, Partial(p))) && KeepsFiles(old(fs), fs, Partial(p))
      ensures !troubled && !ok ==> !o.Aborted? && !o.Panicked?
    {
      hide At, Free;
      ok, o := false, Failed(None);
      var panics: bool, stops: bool := *, *;
      if troubled && panics { o := Panicked; return; }
      if troubled && stops { o := Aborted; return; }
      if answer.Status? { o := Failed(Some(answer.code)); return; }
      if answer.Broken? { return; }
      ok := OpenPartial(p, job, open, order);
    }

    /** A download waiting for its response gets one: its body begins, or it ends and is counted. */
    method AwaitStart(f: Flow, served: Path -> Served, root: Path, forbidden: bool, ghost job: Job,
                      ghost spawned: seq<Path>, ghost open: set<Path>, ghost order: seq<Path>)
      returns (g: Flow, ghost open2: set<Path>, ghost order2: seq<Path>)
      requires At(job, open, {}, {}, order) && job.served == served && Books(job, f, spawned, open, order)
               && Single(f, open, order)
      requires f.waiting != multiset{} && Held(fs, f.writing) && Told(job, f, order, root, forbidden, Sure(job))
      modifies this
      ensures At(job, open2, {}, {}, order2) && old(history) <= history && Books(job, g, spawned, open2, order2)
              && Single(g, open2, order2)
      ensures g.remaining == f.remaining && g.Load() < f.Load() && g.InFlight() <= f.InFlight()
      ensures Held(fs, g.writing) && (!troubled ==> g.cancelled == f.cancelled)
      ensures Told(job, g, order2, root, forbidden, Sure(job))
    {
      var p :| p in f.waiting;
      var g0 := f.(waiting := f.waiting - multiset{p});
      Rejoin(f.waiting, p);
      assert g0.(waiting := g0.waiting + multiset{p}) == f;
      SingleWaits(f, open, order, p);
      assert multiset(f.remaining)[p] + f.waiting[p] + f.writing[p] + multiset(order)[p] <= 1;
      ghost var before := fs;
      var ok, o := StartDownload(p, served(p), job, open, order);
      order2 := order;
      HeldOn(before, fs, f.writing, f.writing, p);
      if ok {
        HeldToo(fs, f.writing, p);
        Opened(job, g0, spawned, open, order, p);
        ToldOpened(job, f, order, root, forbidden, Sure(job), p);
        g, open2 := g0.(writing := g0.writing + multiset{p}), open + {Partial(p)};
      } else {
        Counted(job, g0, spawned, open, order, p, o, root, forbidden);
        ToldCounted(job, f, g0, order, root, forbidden, Sure(job), p, o);
        g, open2 := Count(g0, p, o, root, forbidden), open;
      }
    }

    /** A download that owns a partial file ends and is counted. */
    method AwaitFinish(f: Flow, served: Path -> Served, root: Path, forbidden: bool, ghost job: Job,
                       ghost spawned: seq<Path>, ghost open: set<Path>, ghost order: seq<Path>)
      returns (g: Flow, ghost open2: set<Path>, ghost order2: seq<Path>)
      requires At(job, open, {}, {}, order) && job.served == served && Books(job, f, spawned, open, order)
               && Single(f, open, order)
      requires f.writing != multiset{} && Held(fs, f.writing) && Told(job, f, order, root, forbidden, Sure(job))
      modifies this
      ensures At(job, open2, {}, {}, order2) && old(history) <= history && Books(job, g, spawned, open2, order2)
              && Single(g, open2, order2)
      ensures g.remaining == f.remaining && g.Load() < f.Load() && g.InFlight() <= f.InFlight()
      ensures Held(fs, g.writing) && (!troubled ==> g.cancelled == f.cancelled)
      ensures Told(job, g, order2, root, forbidden, Sure(job))
    {
      var p :| p in f.writing;
      var g0 := f.(writing := f.writing - multiset{p});
      Rejoin(f.writing, p);
      assert g0.(writing := g0.writing + multiset{p}) == f;
      SingleWrites(f, open, order, p);
      ToldWrites(job, f, order, root, forbidden, Sure(job), p);
      assert multiset(f.remaining)[p] + f.waiting[p] + f.writing[p] + multiset(order)[p] <= 1;
      ghost var before := fs;
      var o := FinishDownload(p, served(p), job, open, order);
      Counted(job, g0, spawned, open, order, p, o, root, forbidden);
      ToldCounted(job, f, g0, order, root, forbidden, Sure(job), p, o);
      g := Count(g0, p, o, root, forbidden);
      HeldOn(before, fs, f.writing, g.writing, p);
      open2, order2 := if o.Landed? then open - {Partial(p)} else open, if o.Landed? then order + [p] else order;
    }

    /** One download of the transfer loop moves on; a cancellation may be noticed first. */
    method Await(f: Flow, served: Path -> Served, root: Path, forbidden: bool, ghost job: Job, ghost spawned: seq<Path>,
                 ghost open: set<Path>, ghost order: seq<Path>)
      returns (g: Flow, ghost open2: set<Path>, ghost order2: seq<Path>)
      requires At(job, open, {}, {}, order) && job.served == served && Books(job, f, spawned, open, order)
               && Single(f, open, order)
      requires f.InFlight() > 0 && Held(fs, f.writing) && Told(job, f, order, root, forbidden, Sure(job))
      modifies this
      ensures At(job, open2, {}, {}, order2) && old(history) <= history && Books(job, g, spawned, open2, order2)
              && Single(g, open2, order2)
      ensures g.remaining == f.remaining && g.Load() < f.Load() && g.InFlight() <= f.InFlight()
      ensures Held(fs, g.writing) && (!troubled ==> g.cancelled == f.cancelled)
      ensures Told(job, g, order2, root, forbidden, Sure(job))
    {
      var hit: bool, first: bool := *, *;
      hit := troubled && hit;
      var f1 := if hit then f.(cancelled := true) else f;
      MayCancel(job, f, spawned, open, order);
      ToldCancelled(job, f, order, root, forbidden, Sure(job));
      if f.waiting != multiset{} && (first || f.writing == multiset{}) {
        g, open2, order2 := AwaitStart(f1, served, root, forbidden, job, spawned, open, order);
      } else {
        g, open2, order2 := AwaitFinish(f1, served, root, forbidden, job, spawned, open, order);
      }
    }

    /** The transfer loop: at most `threads` downloads at once, finishing in any order, each
        started exactly once and in plan order; a cancellation stops further starts. */
    method Transfer(plan: Plan, served: Path -> Served, root: Path, threads: nat, forbidden: bool, ghost job: Job)
      returns (cancelled: bool, s: Stats, ghost spawned: seq<Path>, ghost peak: nat, ghost open: set<Path>,
               ghost order: seq<Path>, ends: seq<Ending>)
      requires At(job, {}, {}, {}, []) && job.plan == plan && job.served == served && AtMostOnce(plan.downloads)
      modifies this
      ensures At(job, open, {}, {}, order) && old(history) <= history
      ensures spawned <= plan.downloads && (!cancelled ==> spawned == plan.downloads)
      ensures peak <= (if threads == 0 then 1 else threads)
      ensures !cancelled ==> s.downloaded + s.skipped == |plan.downloads|
      ensures s.skipped + Flag(plan.incomplete) == s.failed + s.warned && s.failed >= Flag(plan.incomplete)
      ensures !cancelled && s.skipped == 0 ==> open == {} && forall p | p in plan.downloads :: p in order
      ensures forall i | 0 <= i < |ends| :: Answers(ends[i], served(ends[i].at), Sure(job))
      ensures forall i | 0 <= i < |ends| && ends[i].o.Landed? :: ends[i].at in order
      ensures !cancelled ==> forall p :: EndsAt(ends, p) == multiset(plan.downloads)[p]
      ensures s.downloaded == Landings(ends) && s.bytes == Received(ends)
              && s.warned == Forgivings(ends, root, forbidden)
      ensures !cancelled ==> s.failed == Flag(plan.incomplete) + |ends| - Landings(ends) - s.warned
      ensures s.deleted == 0 && s.linked == 0 && (!troubled ==> !cancelled)
    {
      hide Books, At, Safe, Told, Single, Free, Held, Answers, EndsAt, Landings, Received, Forgivings;
      var f: Flow;
      open, order := {}, [];
      NoneHeld(fs);
      AtProper(job, {}, {}, []);
      f, spawned := FirstBatch(plan, threads, job, root, forbidden, Sure(job));
      peak := f.InFlight();
      while f.InFlight() > 0
        invariant At(job, open, {}, {}, order) && old(history) <= history
        invariant Books(job, f, spawned, open, order) && Single(f, open, order)
        invariant f.InFlight() <= Width(threads) && peak <= Width(threads)
        invariant Held(fs, f.writing) && (!troubled ==> !f.cancelled)
        invariant Told(job, f, order, root, forbidden, Sure(job))
        invariant !f.cancelled && f.InFlight() == 0 ==> f.remaining == []
        decreases f.Load()
      {
        AtProper(job, open, {}, order);
        f, open, order := Await(f, served, root, forbidden, job, spawned, open, order);
        if !f.cancelled && f.remaining != [] && f.InFlight() < Width(threads) {
          Spawned(job, f, spawned, open, order);
          SingleSpawned(f, open, order);
          ToldSpawned(job, f, order, root, forbidden, Sure(job));
          spawned, f := spawned + [f.remaining[0]], f.Spawn();
        }
        peak := if peak < f.InFlight() then f.InFlight() else peak;
      }
      Drained(job, f, spawned, open, order);
      AllTold(job, f, order, root, forbidden, Sure(job));
      return f.cancelled, f.stats, spawned, peak, open, order, f.ends;
    }

    /** One manifest, through its own partial file. */
    method PublishOne(m: Manifest, ghost job: Job, ghost out: set<Path>, ghost order: seq<Path>) returns (ok: bool)
      requires At(job, {}, {}, out, order) && AllLanded(job, order) && m in job.plan.manifests
      modifies this
      ensures Safe(job) && old(history) <= history
      ensures (ok ==> At(job, {}, {}, out + {m.at}, order)) && (Sure(job) ==> ok)
    {
      hide Tracked, Sound, Proper, Ranked, Orderly, Settled, Passable, Spares, Targets, Free;
      OneManifest(job, m);
      ClearFor(job, fs, m.at);
      KeepsDirs(fs, m.at);
      KeepsName(fs, m.at);
      if !NoBlock(fs, m.at) { return false; }
      DirsMade(job, fs, {}, {}, Settled(order, out), m.at);
      DirsSound(job, fs, m.at);
      RankedDirs(job, fs, {}, out, order, m.at);
      Commit(MakeDirs(fs, m.at), job);
      NowBusy(job, fs, out, order, m.at);
      ok := WritePartial(m.at, job, {}, out, order, {m.at});
      var ioFails: bool, now: int := *, *;
      ioFails := troubled && ioFails;
      if !ok || ioFails || (m.at in fs && fs[m.at].DirNode?) { return false; }
      assert {} + {Partial(m.at)} == {Partial(m.at)};
      ManifestLands(job, fs, out, order, m, now);
      RankedPublish(job, fs, out, order, m.at, FileNode(Repomd(m.body, m.bytes), now));
      Commit(Without(fs, Partial(m.at))[m.at := FileNode(Repomd(m.body, m.bytes), now)], job);
    }

    /** Manifests go out only after every download has landed; the first failure ends the run. */
    method PublishAll(plan: Plan, s: Stats, ghost job: Job, ghost order: seq<Path>)
      returns (stop: Option<Stop>, s2: Stats, ghost out: set<Path>)
      requires At(job, {}, {}, {}, order) && AllLanded(job, order) && job.plan == plan
      modifies this
      ensures Safe(job) && old(history) <= history
      ensures (stop.None? ==> At(job, {}, {}, out, order) && AllOut(job, out)) && (Sure(job) ==> stop.None?)
      ensures stop.None? ==>
                s2.(downloaded := s.downloaded, bytes := s.bytes) == s
                && s2.downloaded == s.downloaded + |plan.manifests| && s2.bytes == s.bytes + BytesOf(plan.manifests)
    {
      hide At, Safe, AllLanded, Free;
      s2, out := s, {};
      assert Safe(job) by { AtSafe(job, out, order); }
      for i := 0 to |plan.manifests|
        invariant At(job, {}, {}, out, order) && old(history) <= history
        invariant forall m | m in plan.manifests[..i] :: m.at in out
        invariant s2.(downloaded := s.downloaded, bytes := s.bytes) == s && s2.downloaded == s.downloaded + i
        invariant s2.bytes == s.bytes + BytesOf(plan.manifests[..i])
      {
        var hit: bool := *;
        AtSafe(job, out, order);
        if troubled && hit { return Some(Stopped), s2, out; }
        var m := plan.manifests[i];
        assert m.at in ManifestPaths(job);
        var ok := PublishOne(m, job, out, order);
        if !ok { return Some(IoError), s2, out; }
        out, s2 := out + {m.at}, s2.(downloaded := s2.downloaded + 1, bytes := s2.bytes + m.bytes);
        assert plan.manifests[..i + 1] == plan.manifests[..i] + [m];
      }
      assert plan.manifests[..|plan.manifests|] == plan.manifests;
      AtSafe(job, out, order);
      return None, s2, out;
    }

    lemma AtSafe(job: Job, out: set<Path>, order: seq<Path>)
      requires At(job, {}, {}, out, order)
      ensures Safe(job)
    {
    }

    method DeleteFile(p: Path, ghost job: Job, ghost removed: set<Path>, ghost out: set<Path>, ghost order: seq<Path>)
      returns (ok: bool, ghost fault: bool)
      requires At(job, {}, removed, out, order) && AllOut(job, out) && p in job.plan.deletes
      modifies this
      ensures At(job, {}, if ok then removed + {p} else removed, out, order) && old(history) <= history
      ensures fs == (if ok then Without(old(fs), p) else old(fs)) && (ok <==> Present(old(fs), p) && !fault)
      ensures !troubled ==> !fault
    {
      hide Tracked, Sound, Proper, Ranked, Orderly, Passable, Spares;
      var ioFails: bool := *;
      ioFails := troubled && ioFails;
      fault := ioFails;
      if ioFails || !Present(fs, p) { return false, fault; }
      FileDropped(job, fs, removed, out, order, p);
      NoTarget(job, p);
      RankedRemove(job, fs, out, order, p);
      Commit(Without(fs, p), job);
      ok := true;
    }

    /** The planned files and links, one unlink each. Those that are not there count as failed, and
        so do the faults of the file system; nothing else does. */
    method DeleteFiles(plan: Plan, s: Stats, ghost job: Job, ghost out: set<Path>, ghost order: seq<Path>)
      returns (cancelled: bool, s2: Stats, ghost removed: set<Path>, ghost faults: nat)
      requires At(job, {}, {}, out, order) && AllOut(job, out) && job.plan == plan
      modifies this
      ensures At(job, {}, removed, out, order) && old(history) <= history && removed <= plan.deletes
      ensures !cancelled ==> s2.deleted + s2.failed == s.deleted + s.failed + |plan.deletes|
      ensures !cancelled ==> s2.failed == s.failed + |Absent(old(fs), plan.deletes)| + faults
      ensures s2.skipped + s.failed == s.skipped + s2.failed && s2.failed >= s.failed
      ensures s2 == s.(deleted := s2.deleted, failed := s2.failed, skipped := s2.skipped)
      ensures !cancelled && s2.failed == s.failed ==> Gone(fs, plan.deletes)
      ensures !troubled ==> !cancelled && faults == 0
    {
      hide At, Safe, Gone, AllOut, Absent, Present, Without;
      s2, removed, cancelled, faults := s, {}, false, 0;
      var todo := plan.deletes;
      ghost var done: set<Path>, missed: nat := {}, 0;
      StillGone(fs, {}, []);
      while todo != {}
        invariant done + todo == plan.deletes && removed <= done && old(history) <= history
        invariant At(job, {}, removed, out, order)
        invariant s2.deleted + s2.failed + |todo| == s.deleted + s.failed + |plan.deletes|
        invariant s2.skipped + s.failed == s.skipped + s2.failed && s2.failed == s.failed + missed + faults
        invariant s2 == s.(deleted := s2.deleted, failed := s2.failed, skipped := s2.skipped)
        invariant s2.failed == s.failed ==> Gone(fs, done)
        invariant missed + |Absent(fs, todo)| == |Absent(old(fs), plan.deletes)| && (!troubled ==> faults == 0)
        decreases |todo|
      {
        var hit: bool := *;
        if troubled && hit { return true, s2, removed, faults; }
        var p :| p in todo;
        StillGone(fs, done, p);
        StillAbsent(fs, todo, p);
        ghost var present := Present(fs, p);
        var ok;
        ghost var fault;
        ok, fault := DeleteFile(p, job, removed, out, order);
        if ok {
          s2, removed := s2.(deleted := s2.deleted + 1), removed + {p};
        } else {
          s2 := s2.(skipped := s2.skipped + 1, failed := s2.failed + 1);
          missed, faults := if present then missed else missed + 1, if present then faults + 1 else faults;
        }
        OneDone(done, todo, p);
        done, todo := done + {p}, todo - {p};
      }
      assert done == plan.deletes;
      NoneLeft(fs);
    }

    /** Obsolete directories, deepest first, each only if nothing is left in it. */
    method DeleteDirs(plan: Plan, s: Stats, ghost job: Job, ghost removed: set<Path>, ghost out: set<Path>,
                      ghost order: seq<Path>)
      returns (cancelled: bool, s2: Stats, ghost removed2: set<Path>)
      requires At(job, {}, removed, out, order) && job.plan == plan
      requires forall i, j | 0 <= i < j < |plan.deleteDirs| :: |plan.deleteDirs[i]| >= |plan.deleteDirs[j]|
      modifies this
      ensures At(job, {}, removed2, out, order) && old(history) <= history
      ensures removed <= removed2 && forall p | p in removed2 :: p in removed || p in plan.deleteDirs
      ensures s2.failed >= s.failed && s2 == s.(failed := s2.failed)
      ensures Gone(old(fs), plan.deletes) ==> Gone(fs, plan.deletes)
      ensures !cancelled && s2.failed == s.failed ==> Cleared(fs, plan.deleteDirs)
      ensures Sure(job) ==> !cancelled && s2.failed == s.failed
    {
      hide Tracked, Sound, Proper, Ranked, Orderly, Passable, Spares, Free;
      s2, removed2, cancelled := s, removed, false;
      for i := 0 to |plan.deleteDirs|
        invariant At(job, {}, removed2, out, order) && old(history) <= history
        invariant removed <= removed2 && forall p | p in removed2 :: p in removed || p in plan.deleteDirs
        invariant s2.failed >= s.failed && s2 == s.(failed := s2.failed)
        invariant Gone(old(fs), plan.deletes) ==> Gone(fs, plan.deletes)
        invariant s2.failed == s.failed ==> Cleared(fs, plan.deleteDirs[..i])
        invariant Sure(job) ==> s2.failed == s.failed
      {
        var hit: bool, ioFails: bool := *, *;
        if troubled && hit { return true, s2, removed2; }
        var p := plan.deleteDirs[i];
        DirClear(job, fs, p);
        ioFails := troubled && ioFails;
        if p in fs && (ioFails || !fs[p].DirNode?) {
          s2 := s2.(failed := s2.failed + 1);
        } else if EmptyDir(fs, p) {
          DirDropped(job, fs, removed2, out, order, plan.deleteDirs, i);
          NoTarget(job, p);
          RankedRemove(job, fs, out, order, p);
          Commit(Without(fs, p), job);
          removed2 := removed2 + {p};
        } else {
          StaysUncleared(fs, plan.deleteDirs, i);
        }
      }
      assert plan.deleteDirs[..|plan.deleteDirs|] == plan.deleteDirs;
    }

    /** `ensure_symlink`: whatever is there already is never touched. */
    method EnsureLink(l: Link, ghost job: Job, ghost open: set<Path>, ghost removed: set<Path>, ghost out: set<Path>,
                      ghost order: seq<Path>)
      returns (ok: bool, made: bool)
      requires At(job, open, removed, out, order) && l in job.plan.links
      modifies this
      ensures At(job, open, removed, out, order) && old(history) <= history
      ensures forall q | q in old(fs) :: q in fs && fs[q] == old(fs)[q]
      ensures ok ==> l.at in fs && LinkKeeps(job, old(fs), fs)
      ensures made ==> ok && l.at !in old(fs) && fs[l.at] == LinkNode(l.target)
      ensures Sure(job) ==> ok && (made <==> l.at !in old(fs))
    {
      hide Tracked, Sound, Proper, LinkKeeps, Ranked, Orderly, Settled, Passable, Spares, Targets, Free;
      OneLink(job, l);
      LinkClear(job, fs, l.at);
      if l.at in fs {
        NothingLinked(job, fs);
        return true, false;
      }
      var mkdirFails: bool, linkFails: bool := *, *;
      if (troubled && mkdirFails) || !NoBlock(fs, l.at) { return false, false; }
      DirsMade(job, fs, open, removed, Settled(order, out), l.at);
      DirsSound(job, fs, l.at);
      RankedDirs(job, fs, open, out, order, l.at);
      DirsAt(fs, l.at, l.at);
      LinkMade(job, fs, l);
      ghost var before := fs;
      Commit(MakeDirs(fs, l.at), job);
      if troubled && linkFails { return false, false; }
      TargetSet(job, fs, open, removed, Settled(order, out), l.at, LinkNode(l.target));
      LinkSound(job, fs, l);
      RankedLink(job, fs, open, out, order, l);
      Commit(fs[l.at := LinkNode(l.target)], job);
      assert fs == MakeDirs(before, l.at)[l.at := LinkNode(l.target)];
      return true, true;
    }

    /** Symbolic links come last; a failure is counted and the next one tried. */
    method MakeLinks(plan: Plan, s: Stats, ghost job: Job, ghost open: set<Path>, ghost removed: set<Path>,
                     ghost out: set<Path>, ghost order: seq<Path>)
      returns (cancelled: bool, s2: Stats)
      requires At(job, open, removed, out, order) && job.plan == plan
      modifies this
      ensures At(job, open, removed, out, order) && old(history) <= history
      ensures s2.failed >= s.failed && s2.skipped + s.failed == s.skipped + s2.failed
      ensures s2 == s.(linked := s2.linked, failed := s2.failed, skipped := s2.skipped)
      ensures s2.linked + s2.failed <= s.linked + s.failed + |plan.links|
      ensures !cancelled && s2.failed == s.failed ==>
                LinkKeeps(job, old(fs), fs) && forall l | l in plan.links :: l.at in fs
      ensures Sure(job) ==> !cancelled && s2.failed == s.failed
    {
      hide Tracked, Sound, Proper, LinkKeeps, Ranked, Orderly, Settled, Passable, Spares, Free;
      s2, cancelled := s, false;
      NothingLinked(job, fs);
      for i := 0 to |plan.links|
        invariant At(job, open, removed, out, order) && old(history) <= history
        invariant s2.failed >= s.failed && s2.skipped + s.failed == s.skipped + s2.failed
        invariant s2 == s.(linked := s2.linked, failed := s2.failed, skipped := s2.skipped)
        invariant s2.linked + s2.failed <= s.linked + s.failed + i
        invariant s2.failed == s.failed ==> LinkKeeps(job, old(fs), fs)
        invariant s2.failed == s.failed ==> forall l | l in plan.links[..i] :: l.at in fs
        invariant Sure(job) ==> s2.failed == s.failed
      {
        var hit: bool := *;
        if troubled && hit { return true, s2; }
        assert plan.links[..i + 1] == plan.links[..i] + [plan.links[i]];
        ghost var before := fs;
        var ok, made := EnsureLink(plan.links[i], job, open, removed, out, order);
        if !ok {
          s2 := s2.(skipped := s2.skipped + 1, failed := s2.failed + 1);
        } else {
          KeepsTrans(job, old(fs), before, fs);
          if made { s2 := s2.(linked := s2.linked + 1); }
        }
      }
      assert plan.links[..|plan.links|] == plan.links;
    }

    /** `Fetcher::execute`, for any plan. If the job is orderly, each published manifest is complete
        at every moment (`Safe`); files and directories go only after everything planned has landed
        and been published. A run that comes to the deletes counts each partial file of its own
        among them as failed: by then that file is gone. */
    method Execute(plan: Plan, served: Path -> Served, root: Path, threads: nat, forbidden: bool, ghost job: Job)
      returns (r: Result, ghost open: set<Path>, ghost removed: set<Path>, ghost out: set<Path>, ghost order: seq<Path>,
               ghost ends: seq<Ending>)
      requires Proper(job) && job.plan == plan && job.served == served && fs == job.start && history == [fs]
      requires forall i, j | 0 <= i < j < |plan.deleteDirs| :: |plan.deleteDirs[i]| >= |plan.deleteDirs[j]|
      requires AtMostOnce(plan.downloads)
      modifies this
      ensures Safe(job) && old(history) <= history
      ensures r.Done? ==> At(job, open, removed, out, order)
      ensures r.Done? ==> Reported(plan, served, root, forbidden, Sure(job), ends, |Stale(job)|, r.stats)
      ensures Sure(job) ==> r.Done?
      ensures Sure(job) && !plan.incomplete && (forall p | p in plan.downloads :: served(p).Got?)
              && Stale(job) == {} ==>
                r.stats.Clean()
      ensures removed != {} ==> AllLanded(job, order) && AllOut(job, out)
      ensures r.Done? && r.stats.deleted > 0 ==> r.stats.warned == 0 && !plan.incomplete
      ensures r.Done? && plan.incomplete ==> r.stats.failed > 0
      ensures r.Done? && r.stats.Clean() ==> open == {} && Finished(job, fs, removed, out, order)
      ensures r.Done? && r.stats.deleted > 0 ==> r.stats.failed >= |Stale(job)|
      ensures r.Done? && r.stats.Clean() ==> Stale(job) == {}
    {
      hide Tracked, Sound, Orderly, ProperManifest, Kept, NewOnly, Gone, Cleared, Ranked, Scratch, Answers, EndsAt,
          Forgivings, Landings, Received, BytesOf, Reported, Fetched, Passable, Spares, Free, Stale;
      open, removed, out, order, ends := {}, {}, {}, [], [];
      Starts(job);
      var early: bool := *;
      if troubled && early { return Ended(Stopped), {}, {}, {}, [], ends; }
      var cancelled, s;
      ghost var spawned, peak;
      cancelled, s, spawned, peak, open, order, ends := Transfer(plan, served, root, threads, forbidden, job);
      if cancelled { return Ended(Stopped), open, {}, {}, order, ends; }
      var clean := s.Clean();
      ghost var t := s;
      IsFetched(plan, served, root, forbidden, Sure(job), ends, s);
      if clean {
        var stop;
        stop, s, out := PublishAll(plan, s, job, order);
        if stop.Some? { return Ended(stop.value), {}, {}, {}, order, ends; }
        StaleAbsent(job, fs, out, order);
        ghost var faults;
        cancelled, s, removed, faults := DeleteFiles(plan, s, job, out, order);
        if cancelled { return Ended(Stopped), {}, removed, out, order, ends; }
        assert s.failed >= |Stale(job)|;
        cancelled, s, removed := DeleteDirs(plan, s, job, removed, out, order);
        if cancelled { return Ended(Stopped), {}, removed, out, order, ends; }
      }
      ghost var before := fs;
      cancelled, s := MakeLinks(plan, s, job, open, removed, out, order);
      if cancelled { return Ended(Stopped), open, removed, out, order, ends; }
      ReportedBy(plan, served, root, forbidden, Sure(job), ends, |Stale(job)|, t, s);
      if Sure(job) { AllGot(plan, served, root, forbidden, ends, |Stale(job)|, s); }
      return Done(s), open, removed, out, order, ends;
    }
  }

  const EMPTY_FILE: Node := FileNode(Blob(0, 0), 0)

  ghost predicate Same(t: Tree, t2: Tree, p: Path) {
    forall q | q != p :: (q in t <==> q in t2) && (q in t ==> t[q] == t2[q])
  }

  lemma ScratchMade(job: Job, t: Tree, open: set<Path>, placed: set<Path>, p: Path)
    requires Proper(job) && Tracked(job, t, open, {}, placed) && Upholds(job, t)
    requires p != [] && (p in job.plan.downloads || p in ManifestPaths(job)) && Settable(t, Partial(p))
    ensures var t2 := t[Partial(p) := EMPTY_FILE]; Tracked(job, t2, open + {Partial(p)}, {}, placed) && Upholds(job, t2)
  {
    hide Passable;
    ManifestNames(job);
    ScratchSet(job, t, open, {}, placed, Partial(p), EMPTY_FILE);
    assert Scratch(job, Partial(p));
    SparesSet(job, t, Partial(p), EMPTY_FILE);
    PassableSet(job, t, Partial(p), EMPTY_FILE);
    if Orderly(job) { SetSound(job, t, Partial(p), EMPTY_FILE); }
  }

  lemma PartialDropped(job: Job, t: Tree, open: set<Path>, placed: set<Path>, p: Path)
    requires Tracked(job, t, open, {}, placed) && Upholds(job, t)
    requires p != [] && (p in job.plan.downloads || p in ManifestPaths(job))
             && (Partial(p) in t ==> !t[Partial(p)].DirNode?)
    ensures var t2 := Without(t, Partial(p)); Tracked(job, t2, open - {Partial(p)}, {}, placed) && Upholds(job, t2)
  {
    hide Orderly, Passable;
    if Partial(p) in t {
      assert Scratch(job, Partial(p));
      SparesSet(job, t, Partial(p), EMPTY_FILE);
      PassableDrop(job, t, Partial(p));
      Dropped(job, t, open, {}, placed, Partial(p));
      if Orderly(job) { DropSound(job, t, Partial(p)); }
    } else {
      assert Without(t, Partial(p)) == t;
      LessOpen(job, t, open, {}, placed, Partial(p));
    }
  }

  /** What is renamed: the download's own content, unless another file has landed at its partial
      name. */
  lemma MovedContent(job: Job, t: Tree, open: set<Path>, order: seq<Path>, p: Path, n: Node)
    requires Ranked(job, t, open, {}, order, {}) && p in job.plan.downloads && p != [] && job.served(p).Got?
    requires Partial(p) in open && HasFile(t, Partial(p))
    requires if t[Partial(p)] == EMPTY_FILE then Own(job, p, n) else n == t[Partial(p)]
    ensures n.FileNode? && Written(job, p, n) && (Partial(p) !in order ==> Own(job, p, n))
  {
    hide Partials, Owns;
  }

  lemma DownloadLands(job: Job, t: Tree, open: set<Path>, placed: set<Path>, p: Path, n: Node)
    requires Proper(job) && Tracked(job, t, open, {}, placed) && Upholds(job, t)
    requires p in job.plan.downloads && p != [] && n.FileNode? && Written(job, p, n)
    requires Partial(p) in t && !t[Partial(p)].DirNode? && (p in t ==> !t[p].DirNode?)
    ensures var t2 := Without(t, Partial(p))[p := n];
            Tracked(job, t2, open - {Partial(p)}, {}, placed + {p}) && Upholds(job, t2)
  {
    hide Orderly, Passable;
    var t1 := Without(t, Partial(p));
    PartialDropped(job, t, open, placed, p);
    assert Parent(Partial(p)) == Parent(p) && |Parent(p)| < |p|;
    TargetSet(job, t1, open - {Partial(p)}, {}, placed, p, n);
    SparesSet(job, t1, p, n);
    PassableSet(job, t1, p, n);
    if Orderly(job) {
      ContentKept(job, p, n);
      SetSound(job, t1, p, n);
    }
  }

  lemma ContentKept(job: Job, p: Path, n: Node)
    requires Orderly(job) && p in job.plan.downloads && p != [] && Written(job, p, n) && n.FileNode?
    ensures p in job.content && Partial(p) !in job.plan.downloads ==> n.data == job.content[p]
    ensures p !in ManifestPaths(job)
  {
    ManifestsApart(job);
  }

  lemma LinkSound(job: Job, t: Tree, l: Link)
    requires Proper(job) && Upholds(job, t) && l in job.plan.links
    ensures Upholds(job, t[l.at := LinkNode(l.target)])
  {
    hide Orderly, Passable;
    assert l.at in LinkPaths(job);
    SparesSet(job, t, l.at, LinkNode(l.target));
    PassableSet(job, t, l.at, LinkNode(l.target));
    if Orderly(job) { SetSound(job, t, l.at, LinkNode(l.target)); }
  }

  lemma SettledGrows(order: seq<Path>, out: set<Path>, p: Path)
    ensures Settled(order + [p], out) == Settled(order, out) + {p} == Settled(order, out + {p})
  {
    assert forall x :: x in order + [p] <==> x in order || x == p;
  }

  /** Publishing, maybe again: until it is done nothing is said of the manifest's partial name. */
  lemma NowBusy(job: Job, t: Tree, out: set<Path>, order: seq<Path>, m: Path)
    requires Ranked(job, t, {}, out, order, {}) && m in ManifestPaths(job) && m != []
    ensures Ranked(job, t, {}, out, order, {m}) && Unused(job, out, order, {m}, m)
  {
    hide Leftover, Owns, Order, LandsAfter;
  }

  function Absent(t: Tree, files: set<Path>): set<Path> { set p | p in files && !Present(t, p) }

  /** A file that is not there is one of those that cannot be deleted. */
  lemma StillAbsent(t: Tree, todo: set<Path>, p: Path)
    requires p in todo
    ensures Absent(Without(t, p), todo - {p}) == Absent(t, todo - {p})
    ensures |Absent(t, todo)| == |Absent(t, todo - {p})| + if Present(t, p) then 0 else 1
  {
    assert Absent(t, todo) == Absent(t, todo - {p}) + if Present(t, p) then {} else {p};
  }

  lemma OneDone(done: set<Path>, todo: set<Path>, p: Path)
    requires p in todo
    ensures (done + {p}) + (todo - {p}) == done + todo && |todo - {p}| == |todo| - 1
  {
  }

  lemma NoneLeft(t: Tree)
    ensures |Absent(t, {})| == 0
  {
  }

  lemma NoTarget(job: Job, p: Path)
    requires Proper(job) && (p in job.plan.deletes || p in job.plan.deleteDirs)
    ensures p !in Targets(job)
  {
  }

  function Width(threads: nat): nat { if threads < 1 then 1 else threads }

  function Flag(b: bool): nat { if b then 1 else 0 }

  /** The transfer loop's variables. `waiting` downloads have written nothing, `writing` ones
      own a partial file; `ends` is the log of those that have ended. */
  datatype Flow = Flow(stats: Stats, remaining: seq<Path>, waiting: multiset<Path>, writing: multiset<Path>,
                       ends: seq<Ending>, cancelled: bool) {
    function InFlight(): nat { |waiting| + |writing| }
    function Load(): nat { 3 * |remaining| + 2 * |waiting| + |writing| }
    function Spawn(): Flow requires remaining != [] {
      this.(remaining := remaining[1..], waiting := waiting + multiset{remaining[0]})
    }
  }

  function Count(f: Flow, p: Path, o: Outcome, root: Path, forbidden: bool): Flow
    requires p != []
  {
    var cancelled := f.cancelled || o.Aborted?;
    f.(cancelled := cancelled, stats := Tally(f.stats, o, Critical(root, p), forbidden, cancelled),
       ends := f.ends + [Ending(p, o)])
  }

  /** Files stay files, but for the one at `q`. */
  ghost predicate KeepsFiles(t: Tree, t2: Tree, q: Path) { forall x | x != q && HasFile(t, x) :: HasFile(t2, x) }

  /** Each download being written has its partial file. */
  ghost predicate Held(t: Tree, writing: multiset<Path>) {
    forall p | p in writing && p != [] :: HasFile(t, Partial(p))
  }

  lemma NoneHeld(t: Tree)
    ensures Held(t, multiset{})
  {
  }

  lemma HeldOn(t: Tree, t2: Tree, writing: multiset<Path>, writing2: multiset<Path>, p: Path)
    requires Held(t, writing) && p != [] && KeepsFiles(t, t2, Partial(p))
    requires writing2 <= writing && p !in writing2
    ensures Held(t2, writing2)
  {
    forall x | x in writing2 && x != [] ensures HasFile(t2, Partial(x)) {
      assert writing[x] >= writing2[x] > 0;
      if Partial(x) == Partial(p) { PartialInjective(x, p); }
    }
  }

  lemma HeldToo(t: Tree, writing: multiset<Path>, p: Path)
    requires Held(t, writing) && p != [] && HasFile(t, Partial(p))
    ensures Held(t, writing + multiset{p})
  {
  }

  /** Nothing is in the way of this one. */
  lemma ClearFor(job: Job, t: Tree, p: Path)
    requires Passable(job, t) && p != [] && (p in job.plan.downloads || p in ManifestPaths(job))
    ensures Free(job) ==>
              && NoBlock(t, p) && (p in t ==> !t[p].DirNode?) && (Partial(p) in t ==> !t[Partial(p)].DirNode?)
  {
    if Free(job) {
      assert Puts(job, p) && Scratch(job, Partial(p));
      PutsTarget(job, p);
      forall k | 0 <= k < |p| && p[..k] in t ensures t[p[..k]].DirNode? { assert Above(p[..k], p); }
    }
  }

  lemma DirClear(job: Job, t: Tree, p: Path)
    requires Passable(job, t) && p in job.plan.deleteDirs
    ensures Free(job) && p in t ==> t[p].DirNode?
  {
    hide Scratch, Targets, Puts;
  }

  lemma LinkClear(job: Job, t: Tree, p: Path)
    requires Passable(job, t) && p in Targets(job)
    ensures Free(job) ==> NoBlock(t, p)
  {
    hide Scratch, Puts;
    if Free(job) {
      forall k | 0 <= k < |p| && p[..k] in t ensures t[p[..k]].DirNode? { assert Above(p[..k], p); }
    }
  }

  lemma KeepsName(t: Tree, p: Path)
    ensures p in MakeDirs(t, p) <==> p in t
    ensures p in t ==> MakeDirs(t, p)[p] == t[p]
  {
    DirsAt(t, p, p);
  }

  lemma KeepsDirs(t: Tree, p: Path)
    requires p != []
    ensures KeepsFiles(t, MakeDirs(t, p), Partial(p)) && (Partial(p) in MakeDirs(t, p) <==> Partial(p) in t)
    ensures Partial(p) in t ==> MakeDirs(t, p)[Partial(p)] == t[Partial(p)]
  {
    forall x | HasFile(t, x) ensures HasFile(MakeDirs(t, p), x) { DirsAt(t, p, x); }
    DirsAt(t, p, Partial(p));
  }

  /** Every download is waiting to start, in flight, or counted. */
  ghost predicate Books(job: Job, f: Flow, spawned: seq<Path>, open: set<Path>, order: seq<Path>) {
    && spawned + f.remaining == job.plan.downloads
    && (forall p | p in f.waiting || p in f.writing || p in order :: p in job.plan.downloads && p != [])
    && Balanced(job, f) && f.stats.deleted == 0 && f.stats.linked == 0
    && (!f.cancelled && f.stats.skipped == 0 ==> Accounted(f, spawned, order) && Owned(f.writing, open))
  }

  ghost predicate Balanced(job: Job, f: Flow) {
    && f.stats.skipped + Flag(job.plan.incomplete) == f.stats.failed + f.stats.warned
    && f.stats.failed >= Flag(job.plan.incomplete)
    && (!f.cancelled ==> f.stats.downloaded + f.stats.skipped + |f.remaining| + f.InFlight() == |job.plan.downloads|)
  }

  ghost predicate Accounted(f: Flow, spawned: seq<Path>, order: seq<Path>) {
    forall p | p in spawned :: p in f.waiting || p in f.writing || p in order
  }

  ghost predicate AtMostOnce(ps: seq<Path>) { forall p :: multiset(ps)[p] <= 1 }

  /** Each download is at one place only: waiting to start, in flight, or landed; the partial files
      being written are open. */
  ghost predicate Single(f: Flow, open: set<Path>, order: seq<Path>) {
    && (forall p :: multiset(f.remaining)[p] + f.waiting[p] + f.writing[p] + multiset(order)[p] <= 1)
    && (forall p | p in f.writing && p != [] :: Partial(p) in open)
  }

  lemma SingleSpawned(f: Flow, open: set<Path>, order: seq<Path>)
    requires Single(f, open, order) && f.remaining != []
    ensures Single(f.Spawn(), open, order)
  {
    assert f.remaining == [f.remaining[0]] + f.remaining[1..];
    assert multiset(f.remaining) == multiset{f.remaining[0]} + multiset(f.remaining[1..]);
  }

  /** A waiting download has not landed; with its partial file it is writing. */
  lemma SingleWaits(f: Flow, open: set<Path>, order: seq<Path>, p: Path)
    requires Single(f, open, order) && p in f.waiting && p != []
    ensures p !in order
    ensures Single(f.(waiting := f.waiting - multiset{p}, writing := f.writing + multiset{p}), open + {Partial(p)},
                   order)
    ensures forall s, e, c ::
              Single(f.(waiting := f.waiting - multiset{p}, stats := s, ends := e, cancelled := c), open, order)
  {
    assert multiset(order)[p] == 0;
  }

  /** A writing download has not landed; its partial name is no other's. */
  lemma SingleWrites(f: Flow, open: set<Path>, order: seq<Path>, p: Path)
    requires Single(f, open, order) && p in f.writing && p != []
    ensures p !in order && Partial(p) in open
    ensures forall s, e, c ::
              && Single(f.(writing := f.writing - multiset{p}, stats := s, ends := e, cancelled := c),
                        open - {Partial(p)}, order + [p])
              && Single(f.(writing := f.writing - multiset{p}, stats := s, ends := e, cancelled := c), open, order)
  {
    assert multiset(order)[p] == 0;
    assert multiset(order + [p]) == multiset(order) + multiset{p};
    var w := f.writing - multiset{p};
    forall x | x in w && x != [] ensures Partial(x) in open - {Partial(p)} {
      assert w[p] == 0;
      if Partial(x) == Partial(p) { PartialInjective(x, p); }
    }
  }

  ghost predicate Owned(writing: multiset<Path>, open: set<Path>) {
    forall q | q in open :: exists p | p in writing :: p != [] && q == Partial(p)
  }

  lemma Rejoin(m: multiset<Path>, p: Path)
    requires p in m
    ensures (m - multiset{p}) + multiset{p} == m && |m - multiset{p}| == |m| - 1
  {
  }

  method FirstBatch(plan: Plan, threads: nat, ghost job: Job, ghost root: Path, ghost forbidden: bool, ghost sure: bool)
    returns (f: Flow, ghost spawned: seq<Path>)
    requires Proper(job) && job.plan == plan && AtMostOnce(plan.downloads)
    ensures Books(job, f, spawned, {}, []) && !f.cancelled && Single(f, {}, [])
    ensures f.InFlight() <= Width(threads) && f.writing == multiset{} && Told(job, f, [], root, forbidden, sure)
    ensures f.InFlight() == 0 ==> f.remaining == []
  {
    hide Told;
    spawned := [];
    f := Flow(Stats(0, 0, 0, 0, 0, Flag(plan.incomplete), 0), plan.downloads, multiset{}, multiset{}, [], false);
    ToldStarts(job, f, root, forbidden, sure);
    while f.remaining != [] && f.InFlight() < Width(threads)
      invariant Books(job, f, spawned, {}, []) && !f.cancelled && f.writing == multiset{} && Single(f, {}, [])
      invariant f.InFlight() <= Width(threads) && Told(job, f, [], root, forbidden, sure)
      decreases |f.remaining|
    {
      Spawned(job, f, spawned, {}, []);
      SingleSpawned(f, {}, []);
      ToldSpawned(job, f, [], root, forbidden, sure);
      spawned, f := spawned + [f.remaining[0]], f.Spawn();
    }
  }

  lemma Spawned(job: Job, f: Flow, spawned: seq<Path>, open: set<Path>, order: seq<Path>)
    requires Proper(job) && Books(job, f, spawned, open, order) && f.remaining != []
    ensures Books(job, f.Spawn(), spawned + [f.remaining[0]], open, order)
  {
    var p := f.remaining[0];
    assert spawned + [p] + f.remaining[1..] == spawned + f.remaining;
    assert p in job.plan.downloads && p in Targets(job);
  }

  lemma MayCancel(job: Job, f: Flow, spawned: seq<Path>, open: set<Path>, order: seq<Path>)
    requires Books(job, f, spawned, open, order)
    ensures Books(job, f.(cancelled := true), spawned, open, order)
  {
  }

  lemma Opened(job: Job, g: Flow, spawned: seq<Path>, open: set<Path>, order: seq<Path>, p: Path)
    requires Books(job, g.(waiting := g.waiting + multiset{p}), spawned, open, order) && p != []
    ensures Books(job, g.(writing := g.writing + multiset{p}), spawned, open + {Partial(p)}, order)
  {
  }

  /** One download ended and its outcome was counted. */
  lemma Counted(job: Job, g: Flow, spawned: seq<Path>, open: set<Path>, order: seq<Path>, p: Path, o: Outcome,
                root: Path, forbidden: bool)
    requires p in job.plan.downloads && p != []
    requires || (!o.Landed? && Books(job, g.(waiting := g.waiting + multiset{p}), spawned, open, order))
             || Books(job, g.(writing := g.writing + multiset{p}), spawned, open, order)
    ensures var g2 := Count(g, p, o, root, forbidden);
            if o.Landed? then Books(job, g2, spawned, open - {Partial(p)}, order + [p])
            else Books(job, g2, spawned, open, order)
  {
    assert |g.waiting + multiset{p}| == |g.waiting| + 1 && |g.writing + multiset{p}| == |g.writing| + 1;
  }

  /** The counters and the log of endings agree with each other, with the server's answers and with
      what has landed. */
  ghost predicate Told(job: Job, f: Flow, order: seq<Path>, root: Path, forbidden: bool, sure: bool) {
    && Answered(job, f.ends, order, sure) && (forall p | p in f.writing :: !job.served(p).Status?)
    && Whereabouts(job, f) && Tallied(job, f, root, forbidden)
  }

  ghost predicate Answered(job: Job, ends: seq<Ending>, order: seq<Path>, sure: bool) {
    forall i | 0 <= i < |ends| ::
      Answers(ends[i], job.served(ends[i].at), sure) && (ends[i].o.Landed? ==> ends[i].at in order)
  }

  lemma OneAnswered(job: Job, ends: seq<Ending>, order: seq<Path>, sure: bool, e: Ending)
    requires Answered(job, ends, order, sure) && Answers(e, job.served(e.at), sure)
    ensures Answered(job, ends + [e], if e.o.Landed? then order + [e.at] else order, sure)
  {
    hide Answers;
  }

  /** Each download has still to start, is in flight, or has ended. */
  ghost predicate Whereabouts(job: Job, f: Flow) {
    forall p :: EndsAt(f.ends, p) + multiset(f.remaining)[p] + f.waiting[p] + f.writing[p]
                == multiset(job.plan.downloads)[p]
  }

  ghost predicate Tallied(job: Job, f: Flow, root: Path, forbidden: bool) {
    && f.stats.downloaded == Landings(f.ends) && f.stats.bytes == Received(f.ends)
    && f.stats.warned == Forgivings(f.ends, root, forbidden)
    && (!f.cancelled ==>
          f.stats.failed == Flag(job.plan.incomplete) + |f.ends| - Landings(f.ends) - f.stats.warned)
  }

  lemma ToldStarts(job: Job, f: Flow, root: Path, forbidden: bool, sure: bool)
    requires f.remaining == job.plan.downloads && f.waiting == multiset{} && f.writing == multiset{} && f.ends == []
    requires f.stats == Stats(0, 0, 0, 0, 0, Flag(job.plan.incomplete), 0)
    ensures Told(job, f, [], root, forbidden, sure)
  {
  }

  lemma ToldSpawned(job: Job, f: Flow, order: seq<Path>, root: Path, forbidden: bool, sure: bool)
    requires Told(job, f, order, root, forbidden, sure) && f.remaining != []
    ensures Told(job, f.Spawn(), order, root, forbidden, sure)
  {
    assert f.remaining == [f.remaining[0]] + f.remaining[1..];
    assert multiset(f.remaining) == multiset{f.remaining[0]} + multiset(f.remaining[1..]);
  }

  lemma ToldOpened(job: Job, f: Flow, order: seq<Path>, root: Path, forbidden: bool, sure: bool, p: Path)
    requires Told(job, f, order, root, forbidden, sure) && p in f.waiting && !job.served(p).Status?
    ensures Told(job, f.(waiting := f.waiting - multiset{p}, writing := f.writing + multiset{p}), order, root,
                 forbidden, sure)
  {
  }

  lemma ToldWrites(job: Job, f: Flow, order: seq<Path>, root: Path, forbidden: bool, sure: bool, p: Path)
    requires Told(job, f, order, root, forbidden, sure) && p in f.writing
    ensures !job.served(p).Status?
  {
  }

  lemma ToldCancelled(job: Job, f: Flow, order: seq<Path>, root: Path, forbidden: bool, sure: bool)
    requires Told(job, f, order, root, forbidden, sure)
    ensures Told(job, f.(cancelled := true), order, root, forbidden, sure)
  {
  }

  /** One download that was in flight has ended and is counted. */
  lemma ToldCounted(job: Job, f: Flow, g: Flow, order: seq<Path>, root: Path, forbidden: bool, sure: bool, p: Path,
                    o: Outcome)
    requires Told(job, f, order, root, forbidden, sure) && p != [] && Answers(Ending(p, o), job.served(p), sure)
    requires || (p in f.waiting && g == f.(waiting := f.waiting - multiset{p}) && !o.Landed?)
             || (p in f.writing && g == f.(writing := f.writing - multiset{p}))
    ensures Told(job, Count(g, p, o, root, forbidden), if o.Landed? then order + [p] else order, root, forbidden,
                 sure)
  {
    TalliedCounted(job, g, root, forbidden, p, o);
    EndCounted(job, f, g, root, forbidden, p, o);
    OneAnswered(job, f.ends, order, sure, Ending(p, o));
    hide Answers, Answered, Tallied, Tally, Critical, Whereabouts;
  }

  lemma EndCounted(job: Job, f: Flow, g: Flow, root: Path, forbidden: bool, p: Path, o: Outcome)
    requires Whereabouts(job, f) && p != []
    requires || (p in f.waiting && g == f.(waiting := f.waiting - multiset{p}))
             || (p in f.writing && g == f.(writing := f.writing - multiset{p}))
    ensures Whereabouts(job, Count(g, p, o, root, forbidden))
  {
    hide Tally, Critical;
    var g2 := Count(g, p, o, root, forbidden);
    assert g2.ends[..|f.ends|] == f.ends && g2.ends[|f.ends|] == Ending(p, o);
  }

  lemma TalliedCounted(job: Job, g: Flow, root: Path, forbidden: bool, p: Path, o: Outcome)
    requires Tallied(job, g, root, forbidden) && p != []
    ensures Tallied(job, Count(g, p, o, root, forbidden), root, forbidden)
  {
    hide Critical, Vital;
    CriticalIs(root, p);
    var e, g2 := Ending(p, o), Count(g, p, o, root, forbidden);
    assert g2.ends[..|g.ends|] == g.ends && g2.ends[|g.ends|] == e;
  }

  lemma AllTold(job: Job, f: Flow, order: seq<Path>, root: Path, forbidden: bool, sure: bool)
    requires Told(job, f, order, root, forbidden, sure) && f.InFlight() == 0 && (!f.cancelled ==> f.remaining == [])
    ensures forall i | 0 <= i < |f.ends| :: Answers(f.ends[i], job.served(f.ends[i].at), sure)
    ensures forall i | 0 <= i < |f.ends| && f.ends[i].o.Landed? :: f.ends[i].at in order
    ensures !f.cancelled ==> forall p :: EndsAt(f.ends, p) == multiset(job.plan.downloads)[p]
    ensures Tallied(job, f, root, forbidden)
  {
  }

  lemma Drained(job: Job, f: Flow, spawned: seq<Path>, open: set<Path>, order: seq<Path>)
    requires Books(job, f, spawned, open, order) && f.InFlight() == 0
    requires !f.cancelled ==> f.remaining == []
    ensures !f.cancelled && f.stats.skipped == 0 ==> open == {} && forall p | p in job.plan.downloads :: p in order
    ensures spawned <= job.plan.downloads && (!f.cancelled ==> spawned == job.plan.downloads)
    ensures !f.cancelled ==> f.stats.downloaded + f.stats.skipped == |job.plan.downloads|
    ensures f.stats.skipped + Flag(job.plan.incomplete) == f.stats.failed + f.stats.warned
            && f.stats.failed >= Flag(job.plan.incomplete)
    ensures f.stats.deleted == 0 && f.stats.linked == 0
  {
    assert spawned + [] == spawned;
  }

  datatype Stop = Stopped | IoError

  ghost predicate AllLanded(job: Job, order: seq<Path>) {
    !job.plan.incomplete && forall p | p in job.plan.downloads :: p in order
  }

  ghost predicate AllOut(job: Job, out: set<Path>) { forall m | m in ManifestPaths(job) :: m in out }

  ghost predicate Gone(t: Tree, files: set<Path>) { forall p | p in files :: !Present(t, p) }

  /** Each of these directories is gone, or something is left in it. */
  ghost predicate Cleared(t: Tree, dirs: seq<Path>) {
    forall p | p in dirs && p in t :: exists c | c in t :: ChildOf(p, c)
  }

  lemma ManifestLands(job: Job, t: Tree, out: set<Path>, order: seq<Path>, m: Manifest, now: int)
    requires Proper(job) && Upholds(job, t) && m in job.plan.manifests && m.at != [] && AllLanded(job, order)
    requires Tracked(job, t, {} + {Partial(m.at)}, {}, Settled(order, out))
    requires Partial(m.at) in t && !t[Partial(m.at)].DirNode? && (m.at in t ==> !t[m.at].DirNode?)
    ensures var t2 := Without(t, Partial(m.at))[m.at := FileNode(Repomd(m.body, m.bytes), now)];
            Tracked(job, t2, {}, {}, Settled(order, out + {m.at})) && Upholds(job, t2)
  {
    hide Orderly, Proper, Passable;
    var q, n, placed := Partial(m.at), FileNode(Repomd(m.body, m.bytes), now), Settled(order, out);
    var t1 := Without(t, q);
    assert m.at in ManifestPaths(job);
    PartialDropped(job, t, {} + {q}, placed, m.at);
    assert {} + {q} - {q} == {};
    assert Parent(q) == Parent(m.at) && |Parent(m.at)| < |m.at|;
    TargetSet(job, t1, {}, {}, placed, m.at, n);
    SettledGrows(order, out, m.at);
    SparesSet(job, t1, m.at, n);
    PassableSet(job, t1, m.at, n);
    if Orderly(job) {
      ReadyToPublish(job, t1, {}, placed, m);
      NotAddressed(job, m);
      PublishSound(job, t1, m);
    }
  }

  lemma NotAddressed(job: Job, m: Manifest)
    requires Orderly(job) && m in job.plan.manifests
    ensures m.at !in job.content
  {
    assert m.at in ManifestPaths(job);
  }

  lemma FileDropped(job: Job, t: Tree, removed: set<Path>, out: set<Path>, order: seq<Path>, p: Path)
    requires Proper(job) && Tracked(job, t, {}, removed, Settled(order, out)) && Upholds(job, t)
    requires Ranked(job, t, {}, out, order, {}) && AllOut(job, out) && p in job.plan.deletes && Present(t, p)
    ensures Tracked(job, Without(t, p), {}, removed + {p}, Settled(order, out)) && Upholds(job, Without(t, p))
  {
    hide Orderly, Passable;
    assert {} - {p} == {};
    SettledTargets(job, order, out);
    Dropped(job, t, {}, removed, Settled(order, out), p);
    SparesSet(job, t, p, DirNode);
    PassableDrop(job, t, p);
    if Orderly(job) {
      ReadyToDelete(job, t, {}, removed, Settled(order, out), p);
      DropSound(job, t, p);
    }
  }

  lemma SettledTargets(job: Job, order: seq<Path>, out: set<Path>)
    requires Order(job, order) && out <= ManifestPaths(job)
    ensures Settled(order, out) <= Targets(job)
  {
  }

  lemma DirDropped(job: Job, t: Tree, removed: set<Path>, out: set<Path>, order: seq<Path>, dirs: seq<Path>, i: nat)
    requires Proper(job) && Tracked(job, t, {}, removed, Settled(order, out)) && Upholds(job, t)
    requires Ranked(job, t, {}, out, order, {})
    requires dirs == job.plan.deleteDirs && i < |dirs| && EmptyDir(t, dirs[i])
    requires forall i, j | 0 <= i < j < |dirs| :: |dirs[i]| >= |dirs[j]|
    ensures var t2 := Without(t, dirs[i]);
            && Tracked(job, t2, {}, removed + {dirs[i]}, Settled(order, out)) && Upholds(job, t2)
            && (Cleared(t, dirs[..i]) ==> Cleared(t2, dirs[..i + 1]))
  {
    hide Orderly, Passable;
    var p := dirs[i];
    assert p in dirs && {} - {p} == {};
    SettledTargets(job, order, out);
    Dropped(job, t, {}, removed, Settled(order, out), p);
    SparesSet(job, t, p, DirNode);
    PassableDrop(job, t, p);
    if Orderly(job) { DropSound(job, t, p); }
    if Cleared(t, dirs[..i]) { StillCleared(t, dirs, i); }
  }

  lemma StillCleared(t: Tree, dirs: seq<Path>, i: nat)
    requires i < |dirs| && Cleared(t, dirs[..i])
    requires forall i, j | 0 <= i < j < |dirs| :: |dirs[i]| >= |dirs[j]|
    ensures Cleared(Without(t, dirs[i]), dirs[..i + 1])
  {
    var p, t2 := dirs[i], Without(t, dirs[i]);
    forall d | d in dirs[..i + 1] && d in t2 ensures exists c | c in t2 :: ChildOf(d, c) {
      var k :| 0 <= k < i + 1 && dirs[k] == d;
      assert dirs[..i][k] == d;
      var c :| c in t && ChildOf(d, c);
      assert |c| > |p|;
      assert c in t2;
    }
  }

  lemma StaysUncleared(t: Tree, dirs: seq<Path>, i: nat)
    requires i < |dirs| && (dirs[i] in t ==> t[dirs[i]].DirNode?) && !EmptyDir(t, dirs[i])
    ensures Cleared(t, dirs[..i]) ==> Cleared(t, dirs[..i + 1])
  {
    assert dirs[..i + 1] == dirs[..i] + [dirs[i]];
  }

  lemma OneDownload(job: Job, p: Path)
    requires Proper(job) && p in job.plan.downloads
    ensures p in Targets(job) && p != []
  {
  }

  lemma OneManifest(job: Job, m: Manifest)
    requires Proper(job) && m in job.plan.manifests
    ensures m.at in ManifestPaths(job) && m.at in Targets(job) && m.at != []
  {
  }

  lemma StillGone(t: Tree, files: set<Path>, p: Path)
    ensures Gone(t, {}) && (Gone(t, files) ==> Gone(Without(t, p), files + {p}))
  {
  }

  lemma OneLink(job: Job, l: Link)
    requires Proper(job) && l in job.plan.links
    ensures l.at in LinkPaths(job) && l.at in Targets(job) && l.at != []
  {
  }

  /** Making links neither brings back a deleted file nor leaves an obsolete directory empty. */
  ghost predicate LinkKeeps(job: Job, t: Tree, t2: Tree) {
    && (Gone(t, job.plan.deletes) ==> Gone(t2, job.plan.deletes))
    && (Cleared(t, job.plan.deleteDirs) ==> Cleared(t2, job.plan.deleteDirs))
  }

  lemma NothingLinked(job: Job, t: Tree)
    ensures LinkKeeps(job, t, t)
  {
  }

  lemma KeepsTrans(job: Job, a: Tree, b: Tree, c: Tree)
    ensures LinkKeeps(job, a, b) && LinkKeeps(job, b, c) ==> LinkKeeps(job, a, c)
  {
  }

  lemma LinkMade(job: Job, t: Tree, l: Link)
    requires Proper(job) && l in job.plan.links && l.at !in t
    ensures LinkKeeps(job, t, MakeDirs(t, l.at)[l.at := LinkNode(l.target)])
  {
    var p, t2 := l.at, MakeDirs(t, l.at)[l.at := LinkNode(l.target)];
    assert p in LinkPaths(job) && p in Targets(job);
    forall q
      ensures (q in t2 <==> q in t || q == p || Above(q, p))
              && (q in t2 && q != p ==> t2[q] == if q in t then t[q] else DirNode) {
      DirsAt(t, p, q);
    }
    if Cleared(t, job.plan.deleteDirs) {
      forall d | d in job.plan.deleteDirs && d in t2 ensures exists c | c in t2 :: ChildOf(d, c) {
        if d in t {
          var c :| c in t && ChildOf(d, c);
          assert c in t2;
        } else {
          var c := p[..|d| + 1];
          assert c[..|d|] == d && ChildOf(d, c);
          assert c == p || (p[..|c|] == c && Above(c, p));
        }
      }
    }
  }

  datatype Result = Done(stats: Stats) | Ended(why: Stop)

  /** What a run without failures and warnings has brought about. */
  ghost predicate Finished(job: Job, t: Tree, removed: set<Path>, out: set<Path>, order: seq<Path>) {
    && AllLanded(job, order) && AllOut(job, out)
    && (forall l | l in job.plan.links :: l.at in t)
    && Gone(t, job.plan.deletes) && Cleared(t, job.plan.deleteDirs)
    && forall p | p in removed :: p in job.plan.deletes || p in job.plan.deleteDirs
  }

  lemma Starts(job: Job)
    requires Proper(job)
    ensures Tracked(job, job.start, {}, {}, Settled([], {})) && Upholds(job, job.start)
    ensures Ranked(job, job.start, {}, {}, [], {})
  {
    hide Passable;
    PassableStart(job);
    assert Settled([], {}) == {};
  }

  lemma LessOpen(job: Job, t: Tree, open: set<Path>, removed: set<Path>, placed: set<Path>, q: Path)
    requires Tracked(job, t, open, removed, placed) && q !in t
    ensures Tracked(job, t, open - {q}, removed, placed)
  {
  }

  lemma MoreOpen(job: Job, t: Tree, open: set<Path>, removed: set<Path>, placed: set<Path>, q: Path)
    requires Tracked(job, t, open - {q}, removed, placed)
    ensures Tracked(job, t, open, removed, placed)
  {
  }

  // --- a listed name that is lost ----------------------------------------------------------------

  const LISTED_PARTIAL: Path := ["x.partial"]
  const LISTED_FILE: Path := ["x"]

  function TwoNames(): Job {
    Job(map[[] := DirNode], Plan([LISTED_PARTIAL, LISTED_FILE], [], {}, [], [], false, None),
        p => Got(Blob(|p|, 5)), map[])
  }

  function LandedAt(p: Path, now: int): Node { FileNode(Blob(|p|, 5), now) }

  lemma TwoNamesProper()
    ensures Proper(TwoNames()) && Orderly(TwoNames()) && AtMostOnce(TwoNames().plan.downloads)
    ensures Partial(LISTED_FILE) == LISTED_PARTIAL && LISTED_PARTIAL != LISTED_FILE
    ensures forall t :: Sound(TwoNames(), t)
  {
    var job := TwoNames();
    assert job.plan.downloads == [LISTED_PARTIAL, LISTED_FILE] && "x" + ".partial" == "x.partial";
    assert Partial(LISTED_FILE) == [] + ["x.partial"] by { assert Parent(LISTED_FILE) == []; }
    assert |"x"| != |"x.partial"| && LISTED_PARTIAL[0] != LISTED_FILE[0];
    assert multiset([LISTED_PARTIAL, LISTED_FILE]) == multiset{LISTED_PARTIAL, LISTED_FILE};
    assert ManifestPaths(job) == {} && LinkPaths(job) == {};
    assert Targets(job) == {LISTED_PARTIAL, LISTED_FILE};
  }

  lemma NotAfterwards(p: Path, q: Path)
    requires p != q
    ensures !LandsAfter([p, q], p, q)
  {
  }

  /** Upstream lists `x.partial` and `x`, and the first lands first: creating the partial file of the
      second unlinks it, and the run ends with everything landed and one of the two gone. */
  lemma NameLost() returns (history: seq<Tree>)
    ensures Proper(TwoNames()) && Orderly(TwoNames()) && AtMostOnce(TwoNames().plan.downloads)
    ensures Partial(LISTED_FILE) == LISTED_PARTIAL
    ensures |history| == 6 && history[0] == TwoNames().start && AllSound(TwoNames(), history)
    ensures history[1] == history[0][Partial(LISTED_PARTIAL) := EMPTY_FILE]
    ensures history[2] == Without(history[1], Partial(LISTED_PARTIAL))[LISTED_PARTIAL := LandedAt(LISTED_PARTIAL, 1)]
    ensures history[3] == Without(history[2], Partial(LISTED_FILE))
    ensures history[4] == history[3][Partial(LISTED_FILE) := EMPTY_FILE]
    ensures history[5] == Without(history[4], Partial(LISTED_FILE))[LISTED_FILE := LandedAt(LISTED_FILE, 2)]
    ensures !LandsAfter([LISTED_PARTIAL, LISTED_FILE], LISTED_PARTIAL, LISTED_FILE) && LISTED_PARTIAL !in history[5]
            && HasFile(history[5], LISTED_FILE)
  {
    hide Proper, Orderly, Sound, LandsAfter, AtMostOnce;
    TwoNamesProper();
    NotAfterwards(LISTED_PARTIAL, LISTED_FILE);
    var t0 := TwoNames().start;
    var t1 := t0[Partial(LISTED_PARTIAL) := EMPTY_FILE];
    var t2 := Without(t1, Partial(LISTED_PARTIAL))[LISTED_PARTIAL := LandedAt(LISTED_PARTIAL, 1)];
    var t3 := Without(t2, Partial(LISTED_FILE));
    var t4 := t3[Partial(LISTED_FILE) := EMPTY_FILE];
    var t5 := Without(t4, Partial(LISTED_FILE))[LISTED_FILE := LandedAt(LISTED_FILE, 2)];
    history := [t0, t1, t2, t3, t4, t5];
  }

  // --- which names can be lost, before the run ---------------------------------------------------

  ghost predicate Distinct(ps: seq<Path>) { forall i, j | 0 <= i < j < |ps| :: ps[i] != ps[j] }

  /** An order in which everything lands. */
  ghost predicate FullOrder(job: Job, order: seq<Path>) {
    Order(job, order) && forall p | p in job.plan.downloads :: p in order
  }

  lemma PlanOrderFull(job: Job)
    requires Distinct(job.plan.downloads) && [] !in job.plan.downloads
    ensures FullOrder(job, job.plan.downloads)
  {
  }

  /** The downloads with one of them first, or last. */
  lemma Reordered(job: Job, q: Path) returns (first: seq<Path>, last: seq<Path>)
    requires Distinct(job.plan.downloads) && [] !in job.plan.downloads && q in job.plan.downloads
    ensures FullOrder(job, first) && first[0] == q && FullOrder(job, last) && last[|last| - 1] == q
  {
    var rest := Others(job.plan.downloads, q);
    first, last := [q] + rest, rest + [q];
    FirstFull(job, q, rest);
    LastFull(job, q, rest);
  }

  lemma Others(ps: seq<Path>, q: Path) returns (rest: seq<Path>)
    requires Distinct(ps) && q in ps
    ensures Distinct(rest) && q !in rest && forall p :: p in ps <==> p == q || p in rest
  {
    var i :| 0 <= i < |ps| && ps[i] == q;
    rest := ps[..i] + ps[i + 1..];
    assert forall k | 0 <= k < |rest| :: rest[k] == ps[if k < i then k else k + 1];
    forall p | p in ps ensures p == q || p in rest {
      var k :| 0 <= k < |ps| && ps[k] == p;
      if k < i { assert rest[k] == p; } else if k > i { assert rest[k - 1] == p; }
    }
  }

  lemma FirstFull(job: Job, q: Path, rest: seq<Path>)
    requires Distinct(rest) && q !in rest && [] !in job.plan.downloads
    requires forall p :: p in job.plan.downloads <==> p == q || p in rest
    ensures FullOrder(job, [q] + rest)
  {
  }

  lemma LastFull(job: Job, q: Path, rest: seq<Path>)
    requires Distinct(rest) && q !in rest && [] !in job.plan.downloads
    requires forall p :: p in job.plan.downloads <==> p == q || p in rest
    ensures FullOrder(job, rest + [q])
  {
  }

  lemma FirstNeverAfter(job: Job, order: seq<Path>, q: Path, p: Path)
    requires Order(job, order) && order != [] && order[0] == q
    ensures !LandsAfter(order, q, p)
  {
  }

  lemma LastAfterAll(job: Job, order: seq<Path>, q: Path, p: Path)
    requires Order(job, order) && order != [] && order[|order| - 1] == q && p in order && p != q
    ensures LandsAfter(order, q, p)
  {
    var i :| 0 <= i < |order| && order[i] == p;
    assert i < |order| - 1 && order[i] == p && order[|order| - 1] == q;
  }

  /** Some order loses a name exactly if it is the partial name of something planned; and some order
      keeps it then exactly if both are ordinary downloads. */
  lemma NameFateIff(job: Job, q: Path)
    requires Distinct(job.plan.downloads) && [] !in job.plan.downloads
    ensures (exists order :: FullOrder(job, order) && !LandsLater(job, order, q)) <==> Scratch(job, q)
    ensures Scratch(job, q) ==>
              ((exists order :: FullOrder(job, order) && LandsLater(job, order, q))
               <==> q in job.plan.downloads && forall m | m in ManifestPaths(job) && m != [] :: Partial(m) != q)
  {
    hide FullOrder, LandsAfter;
    PlanOrderFull(job);
    if Scratch(job, q) {
      var x :| (x in job.plan.downloads || x in ManifestPaths(job)) && x != [] && q == Partial(x);
      if q in job.plan.downloads {
        var first, last := Reordered(job, q);
        FirstLoses(job, first, q, x);
        if forall m | m in ManifestPaths(job) && m != [] :: Partial(m) != q { LastKeeps(job, last, q); }
      } else {
        NotLandedLost(job, job.plan.downloads, q, x);
      }
      forall order | FullOrder(job, order) && LandsLater(job, order, q) ensures q in job.plan.downloads {
        LaterLands(job, order, q, x);
      }
    }
  }

  lemma FirstLoses(job: Job, order: seq<Path>, q: Path, x: Path)
    requires FullOrder(job, order) && order != [] && order[0] == q
    requires (x in job.plan.downloads || x in ManifestPaths(job)) && x != [] && q == Partial(x)
    ensures !LandsLater(job, order, q)
  {
    FirstNeverAfter(job, order, q, x);
  }

  lemma LastKeeps(job: Job, order: seq<Path>, q: Path)
    requires FullOrder(job, order) && order != [] && order[|order| - 1] == q
    requires forall m | m in ManifestPaths(job) && m != [] :: Partial(m) != q
    ensures LandsLater(job, order, q)
  {
    forall p | p != [] && (p in job.plan.downloads || p in ManifestPaths(job)) && Partial(p) == q
      ensures LandsAfter(order, q, p) {
      LastAfterAll(job, order, q, p);
    }
  }

  lemma NotLandedLost(job: Job, order: seq<Path>, q: Path, x: Path)
    requires FullOrder(job, order) && q !in job.plan.downloads
    requires (x in job.plan.downloads || x in ManifestPaths(job)) && x != [] && q == Partial(x)
    ensures !LandsLater(job, order, q)
  {
    if LandsAfter(order, q, x) { NeverAfter(order, q, x); }
  }

  lemma LaterLands(job: Job, order: seq<Path>, q: Path, x: Path)
    requires FullOrder(job, order) && LandsLater(job, order, q)
    requires (x in job.plan.downloads || x in ManifestPaths(job)) && x != [] && q == Partial(x)
    ensures q in job.plan.downloads
  {
    assert LandsAfter(order, q, x);
    NeverAfter(order, q, x);
  }
}
