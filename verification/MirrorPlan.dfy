/** Planning an HTTP mirror (`crates/httpfetch/src/lib.rs`): the concurrent crawl of a remote
    index, compared with a plain recursive one. Paths are split at `/`, trailing slashes cut. */
module MirrorPlan {
  import opened Prelude

  const MAX_ENTRIES: nat := 1_000_000
  const MAX_DEPTH: nat := 16

  type Path = seq<string>

  // --- remote index -----------------------------------------------------------

  datatype Kind = Dir | File | Symlink

  datatype Entry = Entry(path: Path, kind: Kind, size: Option<nat>, modified: Option<int>, target: Option<Path>)

  /** One `<data>` element of a `repomd.xml`. */
  datatype RepoData = RepoData(kind: Option<string>, href: Option<Path>, size: Option<nat>)

  /** What the bytes of a `repomd.xml` parse to. */
  datatype Body = NotXml | Xml(root: string, items: seq<RepoData>)

  /** Entry paths stay inside the mirror. */
  predicate SafeRel(p: Path) {
    p != [] && p[0] != "" && p != ["."] && ".." !in p
  }

  // --- RPM manifests --------------------------------------------------------------

  predicate GoodItem(d: RepoData) {
    && d.href.Some? && |d.href.value| == 2 && d.href.value[0] == "repodata"
    && SafeRel(d.href.value[1..]) && d.href.value[1] != "repomd.xml"
  }

  predicate GoodManifest(b: Body) {
    && b.Xml? && b.root == "repomd"
    && (forall d | d in b.items :: GoodItem(d))
    && exists d | d in b.items :: d.kind == Some("primary")
  }

  /** The file names a manifest refers to. */
  function Named(b: Body): set<string>
    requires GoodManifest(b)
  {
    set d | d in b.items :: d.href.value[1]
  }

  function ManifestEntries(items: seq<RepoData>): (es: seq<Entry>)
    requires forall d | d in items :: GoodItem(d)
    ensures |es| == |items|
    ensures forall i :: 0 <= i < |es| ==>
              GoodItem(items[i]) && es[i] == Entry(items[i].href.value[1..], File, items[i].size, None, None)
  {
    if items == [] then []
    else
      assert GoodItem(items[0]);
      [Entry(items[0].href.value[1..], File, items[0].size, None, None)] + ManifestEntries(items[1..])
  }

  // --- local tree ---------------------------------------------------------------------

  /** File contents: a parsed manifest, or anything else with its size and identity. */
  datatype Data = Blob(tag: nat, bytes: nat) | Repomd(body: Body, bytes: nat)

  datatype Node = FileNode(data: Data, mtime: int) | LinkNode(target: Path) | DirNode

  type Tree = map<Path, Node>

  predicate LocalMatches(fs: Tree, dest: Path, e: Entry) {
    if dest !in fs then false
    else if !fs[dest].FileNode? then true
    else if e.size.Some? then e.size.value == fs[dest].data.bytes
    else e.modified.Some? && e.modified.value == fs[dest].mtime
  }

  /** A planned sync's surroundings: the server, the exclusions and the local tree. */
  datatype Env = Env(base: Path, index: Path -> Option<seq<Entry>>, repomd: Path -> Option<Body>,
                     hit: Path -> bool, fs: Tree)

  /** A pattern that hits a leading part of the path excludes it. */
  predicate Excluded(hit: Path -> bool, p: Path) {
    exists k :: 1 <= k <= |p| && hit(p[..k])
  }

  /** No exclusion hits the path or a directory it is in. */
  ghost predicate Unhit(hit: Path -> bool, p: Path) { forall k | 1 <= k <= |p| :: !hit(p[..k]) }

  lemma UnhitIff(hit: Path -> bool, p: Path)
    ensures Unhit(hit, p) <==> !Excluded(hit, p)
  {
  }

  predicate IsRepodata(env: Env, rel: Path) {
    env.base + rel != [] && (env.base + rel)[|env.base + rel| - 1] == "repodata"
  }

  datatype Reply = Unreachable | Invalid | Listing(entries: seq<Entry>, manifest: Option<Body>)

  function Fetch(env: Env, rel: Path): Reply {
    if IsRepodata(env, rel) then
      match env.repomd(rel)
      case None => Unreachable
      case Some(b) => if GoodManifest(b) then Listing(ManifestEntries(b.items), Some(b)) else Invalid
    else
      match env.index(rel)
      case None => Unreachable
      case Some(es) => Listing(es, None)
  }

  // --- what a crawl finds ----------------------------------------------------------------

  /** What a listing adds to the plan: a remote name, an entry counted against the cap, or a
      consequence. Order does not matter, so a crawl's result is a multiset of these. */
  datatype Find =
    | Name(key: Path)
    | Seen
    | FileAt(file: Path, size: Option<nat>)
    | Download(dest: Path)
    | MakeLink(link: Path, target: Path)
    | Publish(manifest: Path, body: Body)
    | UnknownSize | Truncated | ListingFailed | BadManifest

  datatype Found = Found(finds: multiset<Find>, sizeSum: nat) {
    function Add(x: Find): Found { this.(finds := finds + multiset{x}) }
    predicate Incomplete() { Truncated in finds || ListingFailed in finds }
  }

  const Nothing: Found := Found(multiset{}, 0)

  function Join(a: Found, b: Found): Found { Found(a.finds + b.finds, a.sizeSum + b.sizeSum) }

  lemma JoinAssoc(a: Found, b: Found, c: Found)
    ensures Join(Join(a, b), c) == Join(a, Join(b, c))
  {
  }

  function LinkTarget(e: Entry): Path {
    if e.target.Some? && SafeRel(e.target.value) then e.target.value else e.path
  }

  /** What a name not seen before adds: itself and, by kind, something to do. */
  function Additions(env: Env, depth: nat, key: Path, e: Entry): multiset<Find> {
    multiset{Name(key)}
    + match e.kind
      case Dir => if depth == 0 then multiset{Truncated} else multiset{}
      case File =>
        multiset{FileAt(key, e.size)} + (if e.size.None? then multiset{UnknownSize} else multiset{})
        + if LocalMatches(env.fs, key, e) then multiset{} else multiset{Download(key)}
      case Symlink => multiset{MakeLink(key, LinkTarget(e))}
  }

  function AddNew(env: Env, depth: nat, f: Found, subs: seq<Path>, key: Path, e: Entry): (Found, seq<Path>) {
    var size := if e.kind.File? && e.size.Some? then e.size.value else 0;
    (Found(f.finds + Additions(env, depth, key, e), f.sizeSum + size),
     if e.kind.Dir? && depth > 0 then subs + [key] else subs)
  }

  predicate Skipped(env: Env, rel: Path, e: Entry) { !SafeRel(e.path) || Excluded(env.hit, rel + e.path) }

  /** One entry of the listing of `rel`, as the loop body handles it below the entry cap. */
  function AddEntry(env: Env, rel: Path, depth: nat, f: Found, subs: seq<Path>, e: Entry): (Found, seq<Path>) {
    if Skipped(env, rel, e) then (f, subs)
    else
      var g := f.Add(Seen);
      if Name(rel + e.path) in f.finds then (g, subs) else AddNew(env, depth, g, subs, rel + e.path, e)
  }

  function AddEntries(env: Env, rel: Path, depth: nat, f: Found, subs: seq<Path>, es: seq<Entry>): (Found, seq<Path>)
    decreases |es|
  {
    if es == [] then (f, subs)
    else
      var (f1, subs1) := AddEntries(env, rel, depth, f, subs, es[..|es| - 1]);
      AddEntry(env, rel, depth, f1, subs1, es[|es| - 1])
  }

  /** A manifest directory contributes its own `repomd.xml`. */
  function AddManifest(rel: Path, f: Found, manifest: Option<Body>): Found {
    if manifest.None? then f
    else f.Add(Name(rel + ["repomd.xml"])).Add(Publish(rel + ["repomd.xml"], manifest.value))
  }

  // --- the plain recursive crawl ------------------------------------------------------------

  function Crawl(env: Env, rel: Path, depth: nat): Found
    decreases depth, 0, 0
  {
    match Fetch(env, rel)
    case Unreachable => Nothing.Add(ListingFailed)
    case Invalid => Nothing.Add(BadManifest)
    case Listing(es, manifest) =>
      var (f, subs) := AddEntries(env, rel, depth, AddManifest(rel, Nothing, manifest), [], es);
      if depth == 0 then f else Join(f, CrawlDirs(env, subs, depth - 1))
  }

  function CrawlDirs(env: Env, rels: seq<Path>, depth: nat): Found
    decreases depth, 1, |rels|
  {
    if rels == [] then Nothing else Join(Crawl(env, rels[0], depth), CrawlDirs(env, rels[1..], depth))
  }

  // --- the worklist ------------------------------------------------------------------------------

  datatype Work = Work(rel: Path, depth: nat)

  function Sum(fs: seq<Found>): Found {
    if fs == [] then Nothing else Join(fs[0], Sum(fs[1..]))
  }

  /** What the directories still to be listed will contribute. */
  function Outstanding(env: Env, ws: seq<Work>): Found { Sum(Each(env, ws)) }

  function Each(env: Env, ws: seq<Work>): (fs: seq<Found>)
    ensures |fs| == |ws| && forall i :: 0 <= i < |ws| ==> fs[i] == Crawl(env, ws[i].rel, ws[i].depth)
  {
    seq(|ws|, i requires 0 <= i < |ws| => Crawl(env, ws[i].rel, ws[i].depth))
  }

  function WorksOf(subs: seq<Path>, depth: nat): (ws: seq<Work>)
    ensures |ws| == |subs| && forall i :: 0 <= i < |ws| ==> ws[i] == Work(subs[i], depth)
  {
    seq(|subs|, i requires 0 <= i < |subs| => Work(subs[i], depth))
  }

  lemma {:induction false} OutstandingSubs(env: Env, subs: seq<Path>, depth: nat)
    ensures Outstanding(env, WorksOf(subs, depth)) == CrawlDirs(env, subs, depth)
  {
    if subs != [] {
      OutstandingSubs(env, subs[1..], depth);
      var fs := Each(env, WorksOf(subs, depth));
      assert fs[1..] == Each(env, WorksOf(subs[1..], depth));
      assert fs[0] == Crawl(env, subs[0], depth);
    }
  }

  lemma {:induction false} SumAppend(a: seq<Found>, b: seq<Found>)
    ensures Sum(a + b) == Join(Sum(a), Sum(b))
  {
    if a == [] {
      assert a + b == b;
    } else {
      assert (a + b)[0] == a[0] && (a + b)[1..] == a[1..] + b;
      var p, q := Sum(a[1..]), Sum(b);
      assert Sum(a + b) == Join(a[0], Join(p, q)) by { SumAppend(a[1..], b); }
      JoinAssoc(a[0], p, q);
    }
  }

  lemma SumTake(fs: seq<Found>, k: nat)
    requires k < |fs|
    ensures Sum(fs) == Join(fs[k], Sum(fs[..k] + fs[k + 1..]))
  {
    hide Sum, Join;
    SumAppend(fs[..k], fs[k..]);
    SumAppend(fs[..k], fs[k + 1..]);
    assert fs[..k] + fs[k..] == fs && fs[k..][1..] == fs[k + 1..];
    SumHead(fs[k..]);
    JoinSwap(Sum(fs[..k]), fs[k], Sum(fs[k + 1..]));
  }

  lemma SumHead(fs: seq<Found>)
    requires fs != []
    ensures Sum(fs) == Join(fs[0], Sum(fs[1..]))
  {
  }

  lemma JoinSwap(a: Found, b: Found, c: Found)
    ensures Join(a, Join(b, c)) == Join(b, Join(a, c))
  {
  }

  lemma OutstandingAppend(env: Env, a: seq<Work>, b: seq<Work>)
    ensures Outstanding(env, a + b) == Join(Outstanding(env, a), Outstanding(env, b))
  {
    hide Crawl, Sum;
    assert Each(env, a + b) == Each(env, a) + Each(env, b);
    SumAppend(Each(env, a), Each(env, b));
  }

  /** Any finished listing may be taken out next. */
  lemma OutstandingTake(env: Env, ws: seq<Work>, k: nat)
    requires k < |ws|
    ensures Outstanding(env, ws) == Join(Crawl(env, ws[k].rel, ws[k].depth), Outstanding(env, ws[..k] + ws[k + 1..]))
  {
    var fs := Each(env, ws);
    assert Each(env, ws[..k] + ws[k + 1..]) == fs[..k] + fs[k + 1..];
    SumTake(fs, k);
  }

  // --- single-segment names keep directories apart ------------------------------------------------

  ghost predicate SingleNames(env: Env) {
    forall rel, e | env.index(rel).Some? && e in env.index(rel).value :: |e.path| == 1
  }

  /** `p` is a proper ancestor of `q`. */
  predicate Above(p: Path, q: Path) { |p| < |q| && q[..|p|] == p }

  ghost predicate Untouched(rel: Path, f: Found) { forall p | Name(p) in f.finds :: !Above(rel, p) }

  ghost predicate Apart(ws: seq<Work>) {
    forall i, j | 0 <= i < |ws| && 0 <= j < |ws| && i != j ::
      ws[i].rel != ws[j].rel && !Above(ws[i].rel, ws[j].rel)
  }

  lemma FetchedSingle(env: Env, rel: Path)
    requires SingleNames(env) && Fetch(env, rel).Listing?
    ensures forall e | e in Fetch(env, rel).entries :: |e.path| == 1
  {
  }

  /** Starting from what other directories found changes nothing in what this one adds. */
  lemma {:induction false} EntriesAddUp(env: Env, rel: Path, depth: nat, acc: Found, f: Found, subs: seq<Path>,
                                        es: seq<Entry>)
    requires Untouched(rel, acc)
    requires forall e | e in es :: |e.path| == 1
    ensures AddEntries(env, rel, depth, Join(acc, f), subs, es).1 == AddEntries(env, rel, depth, f, subs, es).1
    ensures AddEntries(env, rel, depth, Join(acc, f), subs, es).0 ==
            Join(acc, AddEntries(env, rel, depth, f, subs, es).0)
    decreases |es|
  {
    if es != [] {
      var init, e := es[..|es| - 1], es[|es| - 1];
      EntriesAddUp(env, rel, depth, acc, f, subs, init);
      var (f1, subs1) := AddEntries(env, rel, depth, f, subs, init);
      EntryAddsUp(env, rel, depth, acc, f1, subs1, e);
    }
  }

  lemma EntryAddsUp(env: Env, rel: Path, depth: nat, acc: Found, f: Found, subs: seq<Path>, e: Entry)
    requires Untouched(rel, acc) && |e.path| == 1
    ensures AddEntry(env, rel, depth, Join(acc, f), subs, e).1 == AddEntry(env, rel, depth, f, subs, e).1
    ensures AddEntry(env, rel, depth, Join(acc, f), subs, e).0 == Join(acc, AddEntry(env, rel, depth, f, subs, e).0)
  {
    var key := rel + e.path;
    assert key[..|rel|] == rel && Above(rel, key);
    assert Name(key) !in acc.finds;
    AddJoins(acc, f, Seen);
    NewAddsUp(env, depth, acc, f.Add(Seen), subs, key, e);
  }

  lemma NewAddsUp(env: Env, depth: nat, acc: Found, f: Found, subs: seq<Path>, key: Path, e: Entry)
    ensures AddNew(env, depth, Join(acc, f), subs, key, e).1 == AddNew(env, depth, f, subs, key, e).1
    ensures AddNew(env, depth, Join(acc, f), subs, key, e).0 == Join(acc, AddNew(env, depth, f, subs, key, e).0)
  {
    hide Additions;
    var more := Additions(env, depth, key, e);
    assert (acc.finds + f.finds) + more == acc.finds + (f.finds + more);
  }

  lemma AddJoins(a: Found, f: Found, x: Find)
    ensures Join(a, f).Add(x) == Join(a, f.Add(x))
  {
    assert (a.finds + f.finds) + multiset{x} == a.finds + (f.finds + multiset{x});
  }

  /** A directory found by a listing is new, found once, one level down when names are single,
      and costs one entry of the cap. */
  ghost predicate Fresh(f0: Found, f: Found, subs: seq<Path>) {
    && (forall i | 0 <= i < |subs| :: Name(subs[i]) in f.finds && Name(subs[i]) !in f0.finds && subs[i] != [])
    && (forall i, j | 0 <= i < j < |subs| :: subs[i] != subs[j])
    && (forall p | Name(p) in f0.finds :: Name(p) in f.finds)
    && f0.finds[Seen] + |subs| <= f.finds[Seen]
    && f.finds[BadManifest] == f0.finds[BadManifest]
  }

  /** The three things an entry can do. */
  lemma EntryCases(env: Env, rel: Path, depth: nat, f: Found, subs: seq<Path>, e: Entry)
    ensures var (g, subs2) := AddEntry(env, rel, depth, f, subs, e);
            || (g == f && subs2 == subs)
            || (g == f.Add(Seen) && subs2 == subs)
            || (&& rel + e.path != [] && Name(rel + e.path) !in f.finds
                && (forall p :: Name(p) in g.finds <==> Name(p) in f.finds || p == rel + e.path)
                && g.finds[Seen] == f.finds[Seen] + 1 && g.finds[BadManifest] == f.finds[BadManifest]
                && (subs2 == subs || (subs2 == subs + [rel + e.path] && depth > 0)))
  {
    if !Skipped(env, rel, e) {
      assert e.path != [];
      NewCases(env, depth, f.Add(Seen), subs, rel + e.path, e);
    }
  }

  lemma NewCases(env: Env, depth: nat, f: Found, subs: seq<Path>, key: Path, e: Entry)
    ensures var (g, subs2) := AddNew(env, depth, f, subs, key, e);
            && (forall p :: Name(p) in g.finds <==> Name(p) in f.finds || p == key)
            && g.finds[Seen] == f.finds[Seen] && g.finds[BadManifest] == f.finds[BadManifest]
            && (subs2 == subs || (subs2 == subs + [key] && depth > 0))
  {
    NewNames(env, depth, key, e);
  }

  lemma NewNames(env: Env, depth: nat, key: Path, e: Entry)
    ensures forall x | x in Additions(env, depth, key, e) ::
              || x == Name(key) || x.Truncated? || x.UnknownSize? || (e.kind.File? && x == FileAt(key, e.size))
              || (e.kind.File? && x == Download(key)) || x == MakeLink(key, LinkTarget(e))
    ensures Name(key) in Additions(env, depth, key, e)
  {
    hide LocalMatches, LinkTarget;
  }

  lemma {:induction false} EntriesShape(env: Env, rel: Path, depth: nat, f0: Found, es: seq<Entry>)
    ensures var (f, subs) := AddEntries(env, rel, depth, f0, [], es);
            Fresh(f0, f, subs) && (depth == 0 ==> subs == [])
    decreases |es|
  {
    if es != [] {
      var init, e := es[..|es| - 1], es[|es| - 1];
      EntriesShape(env, rel, depth, f0, init);
      var (f, subs) := AddEntries(env, rel, depth, f0, [], init);
      var (g, subs2) := AddEntry(env, rel, depth, f, subs, e);
      EntryCases(env, rel, depth, f, subs, e);
      FreshStep(f0, f, subs, g, subs2, rel + e.path);
    }
  }

  lemma FreshStep(f0: Found, f: Found, subs: seq<Path>, g: Found, subs2: seq<Path>, key: Path)
    requires Fresh(f0, f, subs)
    requires || (g == f && subs2 == subs)
             || (g == f.Add(Seen) && subs2 == subs)
             || (&& key != [] && Name(key) !in f.finds
                 && (forall p :: Name(p) in g.finds <==> Name(p) in f.finds || p == key)
                 && g.finds[Seen] == f.finds[Seen] + 1 && g.finds[BadManifest] == f.finds[BadManifest]
                 && (subs2 == subs || subs2 == subs + [key]))
    ensures Fresh(f0, g, subs2)
  {
  }

  /** With single names everything found below `rel` sits directly in it. */
  ghost predicate DirectlyIn(rel: Path, f0: Found, f: Found, subs: seq<Path>) {
    && (forall i | 0 <= i < |subs| :: ChildOf(rel, subs[i]))
    && (forall p | Name(p) in f.finds && Name(p) !in f0.finds :: ChildOf(rel, p))
  }

  predicate ChildOf(rel: Path, p: Path) { |p| == |rel| + 1 && Above(rel, p) }

  lemma {:induction false} EntriesBelow(env: Env, rel: Path, depth: nat, f0: Found, es: seq<Entry>)
    requires forall e | e in es :: |e.path| == 1
    ensures var (f, subs) := AddEntries(env, rel, depth, f0, [], es);
            DirectlyIn(rel, f0, f, subs)
    decreases |es|
  {
    if es != [] {
      var init, e := es[..|es| - 1], es[|es| - 1];
      EntriesBelow(env, rel, depth, f0, init);
      var (f, subs) := AddEntries(env, rel, depth, f0, [], init);
      EntryCases(env, rel, depth, f, subs, e);
      assert (rel + e.path)[..|rel|] == rel;
    }
  }

  lemma EntryGrows(env: Env, rel: Path, depth: nat, f: Found, subs: seq<Path>, e: Entry)
    ensures f.finds <= AddEntry(env, rel, depth, f, subs, e).0.finds
  {
    hide AddNew;
    if !Skipped(env, rel, e) && Name(rel + e.path) !in f.finds {
      NewGrows(env, depth, f.Add(Seen), subs, rel + e.path, e);
    }
  }

  lemma NewGrows(env: Env, depth: nat, f: Found, subs: seq<Path>, key: Path, e: Entry)
    ensures f.finds <= AddNew(env, depth, f, subs, key, e).0.finds
  {
    hide Additions;
  }

  lemma {:induction false} FindsGrow(env: Env, rel: Path, depth: nat, f0: Found, es: seq<Entry>, i: nat)
    requires i <= |es|
    ensures AddEntries(env, rel, depth, f0, [], es[..i]).0.finds <= AddEntries(env, rel, depth, f0, [], es).0.finds
    decreases |es|
  {
    if i < |es| {
      var init := es[..|es| - 1];
      assert init[..i] == es[..i];
      FindsGrow(env, rel, depth, f0, init, i);
      var (f, subs) := AddEntries(env, rel, depth, f0, [], init);
      EntryGrows(env, rel, depth, f, subs, es[|es| - 1]);
    } else {
      assert es[..i] == es;
    }
  }

  /** Listing one directory against what is known so far, compared with listing it alone. */
  lemma ListingAddsUp(env: Env, w: Work, acc: Found)
    requires SingleNames(env) && Untouched(w.rel, acc) && Fetch(env, w.rel).Listing?
    ensures var r := Fetch(env, w.rel);
            var (f, subs) := AddEntries(env, w.rel, w.depth, AddManifest(w.rel, acc, r.manifest), [], r.entries);
            Join(acc, Crawl(env, w.rel, w.depth)) == Join(f, Outstanding(env, WorksOf(subs, Below(w.depth))))
  {
    var r := Fetch(env, w.rel);
    var start := AddManifest(w.rel, Nothing, r.manifest);
    assert AddManifest(w.rel, acc, r.manifest) == Join(acc, start);
    FetchedSingle(env, w.rel);
    EntriesAddUp(env, w.rel, w.depth, acc, start, [], r.entries);
    CrawlUnfolds(env, w, start, r);
    var (f0, subs) := AddEntries(env, w.rel, w.depth, start, [], r.entries);
    JoinAssoc(acc, f0, Outstanding(env, WorksOf(subs, Below(w.depth))));
  }

  function Below(depth: nat): nat { if depth == 0 then 0 else depth - 1 }

  lemma CrawlUnfolds(env: Env, w: Work, start: Found, r: Reply)
    requires r == Fetch(env, w.rel) && r.Listing? && start == AddManifest(w.rel, Nothing, r.manifest)
    ensures var (f0, subs) := AddEntries(env, w.rel, w.depth, start, [], r.entries);
            Crawl(env, w.rel, w.depth) == Join(f0, Outstanding(env, WorksOf(subs, Below(w.depth))))
  {
    hide AddEntries, Fetch, AddManifest, Outstanding, CrawlDirs;
    EntriesShape(env, w.rel, w.depth, start, r.entries);
    var (f0, subs) := AddEntries(env, w.rel, w.depth, start, [], r.entries);
    if w.depth > 0 {
      OutstandingSubs(env, subs, w.depth - 1);
    } else {
      assert WorksOf(subs, 0) == [];
      OutstandingNone(env, f0);
    }
  }

  lemma OutstandingNone(env: Env, f: Found)
    ensures Join(f, Outstanding(env, [])) == f
  {
    assert f.finds + multiset{} == f.finds;
  }

  lemma AboveTrans(a: Path, b: Path, c: Path)
    ensures Above(a, b) && Above(b, c) ==> Above(a, c)
    ensures ChildOf(b, c) && Above(a, c) ==> a == b || Above(a, b)
  {
    if Above(a, b) && Above(b, c) { assert c[..|b|][..|a|] == c[..|a|]; }
    if ChildOf(b, c) && Above(a, c) { assert c[..|b|][..|a|] == c[..|a|]; }
  }

  /** Directories of a listing are touched neither by it nor by what came before. */
  lemma StillUntouched(rel: Path, acc: Found, f: Found, subs: seq<Path>, x: Path)
    requires Untouched(rel, acc) && DirectlyIn(rel, acc, f, subs)
    requires (x != rel && !Above(x, rel) && Untouched(x, acc)) || ChildOf(rel, x)
    ensures Untouched(x, f)
  {
    forall p | Name(p) in f.finds ensures !Above(x, p) {
      AboveTrans(rel, x, p);
      AboveTrans(x, rel, p);
    }
  }

  ghost predicate Clear(a: Path, b: Path) { a != b && !Above(a, b) && !Above(b, a) }

  lemma ChildrenClear(rel: Path, x: Path, c: Path, d: Path)
    requires ChildOf(rel, c)
    ensures Clear(rel, x) ==> Clear(x, c)
    ensures ChildOf(rel, d) && c != d ==> Clear(c, d)
  {
    AboveTrans(rel, c, x);
    AboveTrans(x, rel, c);
  }

  /** The directories of a listing keep apart from each other and from all others. */
  lemma StillApart(rel: Path, acc: Found, f: Found, ws: seq<Work>, subs: seq<Path>, depth: nat)
    requires Apart(ws) && forall x | x in ws :: Clear(rel, x.rel) && Untouched(x.rel, acc)
    requires Untouched(rel, acc) && DirectlyIn(rel, acc, f, subs)
    requires forall i, j | 0 <= i < j < |subs| :: subs[i] != subs[j]
    ensures Apart(ws + WorksOf(subs, depth))
    ensures forall x | x in ws + WorksOf(subs, depth) :: Untouched(x.rel, f)
  {
    var all := ws + WorksOf(subs, depth);
    forall x | x in all ensures Untouched(x.rel, f) { StillUntouched(rel, acc, f, subs, x.rel); }
    forall i, j | 0 <= i < |all| && 0 <= j < |all| && i != j ensures Clear(all[i].rel, all[j].rel) {
      if i >= |ws| { ChildrenClear(rel, all[j].rel, all[i].rel, all[j].rel); }
      if j >= |ws| { ChildrenClear(rel, all[i].rel, all[j].rel, all[i].rel); }
    }
  }

  // --- nothing is scheduled twice ------------------------------------------------------------------

  /** Two downloads of one file would race on its partial file. */
  ghost predicate Once(f: Found) {
    forall p :: f.finds[Download(p)] <= 1 && (Download(p) in f.finds ==> Name(p) in f.finds)
  }

  lemma AdditionsOnce(env: Env, depth: nat, key: Path, e: Entry)
    ensures forall p :: Additions(env, depth, key, e)[Download(p)] <= if p == key then 1 else 0
    ensures Name(key) in Additions(env, depth, key, e)
  {
    hide LocalMatches, LinkTarget;
  }

  lemma OnceMore(f: Found, more: multiset<Find>, key: Path, size: nat)
    requires Once(f) && Name(key) !in f.finds && Name(key) in more
    requires forall p :: more[Download(p)] <= if p == key then 1 else 0
    ensures Once(Found(f.finds + more, size))
  {
    forall p
      ensures (f.finds + more)[Download(p)] <= 1 && (Download(p) in f.finds + more ==> Name(p) in f.finds + more) {
      assert (f.finds + more)[Download(p)] == f.finds[Download(p)] + more[Download(p)];
    }
  }

  lemma EntryOnce(env: Env, rel: Path, depth: nat, f: Found, subs: seq<Path>, e: Entry)
    requires Once(f)
    ensures Once(AddEntry(env, rel, depth, f, subs, e).0)
  {
    hide Skipped, Additions, Once;
    var key := rel + e.path;
    OtherOnce(f, Seen);
    if !Skipped(env, rel, e) && Name(key) !in f.finds {
      AdditionsOnce(env, depth, key, e);
      OnceMore(f.Add(Seen), Additions(env, depth, key, e), key, AddEntry(env, rel, depth, f, subs, e).0.sizeSum);
    }
  }

  lemma {:induction false} EntriesOnce(env: Env, rel: Path, depth: nat, f: Found, es: seq<Entry>)
    requires Once(f)
    ensures Once(AddEntries(env, rel, depth, f, [], es).0)
    decreases |es|
  {
    hide Once, AddEntry;
    if es != [] {
      EntriesOnce(env, rel, depth, f, es[..|es| - 1]);
      var (f1, subs) := AddEntries(env, rel, depth, f, [], es[..|es| - 1]);
      EntryOnce(env, rel, depth, f1, subs, es[|es| - 1]);
    }
  }

  lemma OtherOnce(f: Found, x: Find)
    requires Once(f) && !x.Download?
    ensures Once(f.Add(x))
  {
  }

  lemma ManifestOnce(rel: Path, f: Found, manifest: Option<Body>)
    requires Once(f)
    ensures Once(AddManifest(rel, f, manifest))
  {
    hide Once;
    if manifest.Some? {
      OtherOnce(f, Name(rel + ["repomd.xml"]));
      OtherOnce(f.Add(Name(rel + ["repomd.xml"])), Publish(rel + ["repomd.xml"], manifest.value));
    }
  }

  // --- what directories come from -------------------------------------------------------------------

  lemma {:induction false} EntriesDirs(env: Env, rel: Path, depth: nat, f0: Found, es: seq<Entry>)
    ensures forall s | s in AddEntries(env, rel, depth, f0, [], es).1 ::
              depth > 0 && exists e | e in es :: e.kind.Dir? && !Skipped(env, rel, e) && s == rel + e.path
    decreases |es|
  {
    hide Excluded, LocalMatches, Additions;
    if es != [] {
      var init, last := es[..|es| - 1], es[|es| - 1];
      EntriesDirs(env, rel, depth, f0, init);
      var (f, subs) := AddEntries(env, rel, depth, f0, [], init);
      assert es == init + [last];
      forall s | s in AddEntries(env, rel, depth, f0, [], es).1
        ensures depth > 0 && exists e | e in es :: e.kind.Dir? && !Skipped(env, rel, e) && s == rel + e.path
      {
        if s in subs {
          var e :| e in init && e.kind.Dir? && !Skipped(env, rel, e) && s == rel + e.path;
          assert e in es;
        } else {
          assert last in es;
        }
      }
    }
  }
}
