/** Two concrete mirrors: one that meets all a synchronisation asks for, and one whose upstream lists
    its metadata files among everything else. */
module MirrorExamples {
  import opened Prelude
  import opened MirrorPlan
  import opened MirrorTree
  import opened MirrorApply
  import opened MirrorFacts
  import opened MirrorCrawl
  import opened MirrorOrder
  import opened MirrorSync

  /** A mirror with one metadata directory, one generation behind its upstream. */
  function Generation(name: string): Body {
    Xml("repomd", [RepoData(Some("primary"), Some(["repodata", name]), Some(7))])
  }

  function Behind(): Env {
    Env([], rel => if rel == [] then Some([Entry(["repodata"], Dir, None, None, None)]) else None,
        rel => if rel == ["repodata"] then Some(Generation("new.xml")) else None, p => false,
        map[[] := DirNode, ["repodata"] := DirNode, ["repodata", "old.xml"] := FileNode(Blob(1, 7), 0),
            ["repodata", "repomd.xml"] := FileNode(Repomd(Generation("old.xml"), 100), 0)])
  }

  function ServesNew(): Path -> Served {
    p => if p == ["repodata", "new.xml"] then Got(Blob(2, 7)) else Status(404)
  }

  lemma GoodGeneration(name: string)
    requires name != "repomd.xml" && name != "" && name != "." && name != ".."
    ensures GoodManifest(Generation(name)) && Named(Generation(name)) == {name}
  {
    var d := RepoData(Some("primary"), Some(["repodata", name]), Some(7));
    assert Generation(name).items == [d] && d in Generation(name).items;
    assert d.href.value[1..] == [name] && GoodItem(d);
  }

  /** Such a mirror meets all that is taken for granted, with the old manifest visible and the new
      one's file addressed by its content. */
  lemma BehindIsOrdinary()
    ensures Ordinary(Behind(), ServesNew(), map[["repodata", "new.xml"] := Blob(2, 7)])
    ensures Current(Behind().fs, ["repodata", "repomd.xml"], Generation("old.xml"))
  {
    hide GoodManifest, Named;
    GoodGeneration("old.xml");
    GoodGeneration("new.xml");
    BehindIsTree();
    hide PlainNames, NamesPresent, WellFormed;
    var env, content := Behind(), map[["repodata", "new.xml"] := Blob(2, 7)];
    assert SingleNames(env);
    SingleNamesApart(env);
    BehindNames();
    assert Addressed(env, ServesNew(), content, ["repodata", "new.xml"]);
  }

  lemma BehindNames()
    ensures forall m, b | ManifestPath(Behind(), m) && Behind().repomd(Parent(m)) == Some(b) && GoodManifest(b) ::
              PlainNames(Behind(), m, b)
    ensures forall m, b | ManifestPath(Behind(), m) && Current(Behind().fs, m, b) :: NamesPresent(Behind().fs, m, b)
  {
    hide GoodManifest, Named, PlainNames, NamesPresent, Metadata;
    var env := Behind();
    forall m, b | ManifestPath(env, m) && env.repomd(Parent(m)) == Some(b) && GoodManifest(b)
      ensures PlainNames(env, m, b)
    {
      NewNamePlain(m);
    }
    forall m, b | ManifestPath(env, m) && Current(env.fs, m, b) ensures NamesPresent(env.fs, m, b) {
      assert m == ["repodata", "repomd.xml"] && b == Generation("old.xml");
      OldNamePresent();
    }
  }

  lemma NewNamePlain(m: Path)
    requires m != [] && Parent(m) == ["repodata"]
    ensures GoodManifest(Generation("new.xml")) && PlainNames(Behind(), m, Generation("new.xml"))
  {
    hide GoodManifest, Named;
    GoodGeneration("new.xml");
    assert |"new.xml"| == 7 && ["repodata"] + ["new.xml"] == ["repodata", "new.xml"];
  }

  lemma OldNamePresent()
    ensures GoodManifest(Generation("old.xml"))
    ensures NamesPresent(Behind().fs, ["repodata", "repomd.xml"], Generation("old.xml"))
  {
    hide GoodManifest, Named;
    GoodGeneration("old.xml");
    assert Parent(["repodata", "repomd.xml"]) == ["repodata"] && ["repodata"] + ["old.xml"] == ["repodata", "old.xml"];
  }

  lemma BehindTop()
    ensures Fetch(Behind(), []) == Listing([Entry(["repodata"], Dir, None, None, None)], None)
    ensures AddEntries(Behind(), [], 1, Nothing, [], [Entry(["repodata"], Dir, None, None, None)]).1 == [["repodata"]]
  {
    var dir := Entry(["repodata"], Dir, None, None, None);
    assert [] + dir.path == ["repodata"] && [dir][..0] == [];
  }

  const NEW_ENTRY: Entry := Entry(["new.xml"], File, Some(7), None, None)

  lemma BehindFetch()
    ensures Fetch(Behind(), ["repodata"]) == Listing([NEW_ENTRY], Some(Generation("new.xml")))
  {
    hide GoodManifest, Named;
    GoodGeneration("new.xml");
    assert ManifestEntries(Generation("new.xml").items) == [NEW_ENTRY];
  }

  lemma OneFile(env: Env, rel: Path, b: Body, e: Entry)
    requires Fetch(env, rel) == Listing([e], Some(b)) && e.kind.File? && |e.path| == 1 && e.path[0] != "repomd.xml"
    requires !Skipped(env, rel, e) && !LocalMatches(env.fs, rel + e.path, e) && e.size.Some?
    ensures Crawl(env, rel, 0).finds ==
            multiset{Name(rel + ["repomd.xml"]), Publish(rel + ["repomd.xml"], b)}
            + multiset{Seen, Name(rel + e.path), FileAt(rel + e.path, e.size), Download(rel + e.path)}
  {
    hide Skipped, LocalMatches, Fetch;
    assert [e][..0] == [] && (rel + e.path)[|rel|] == e.path[0] && (rel + ["repomd.xml"])[|rel|] == "repomd.xml";
    var f := AddManifest(rel, Nothing, Some(b));
    assert AddEntries(env, rel, 0, f, [], [e][..0]) == (f, []);
    assert AddEntries(env, rel, 0, f, [], [e]) == AddEntry(env, rel, 0, f, [], e);
    assert f.finds == multiset{Name(rel + ["repomd.xml"]), Publish(rel + ["repomd.xml"], b)};
    OneEntry(env, rel, f, e);
    hide AddEntry, AddEntries;
  }

  lemma OneEntry(env: Env, rel: Path, f: Found, e: Entry)
    requires e.kind.File? && e.size.Some? && !Skipped(env, rel, e) && !LocalMatches(env.fs, rel + e.path, e)
    requires Name(rel + e.path) !in f.finds
    ensures AddEntry(env, rel, 0, f, [], e).0.finds ==
            f.finds + multiset{Seen, Name(rel + e.path), FileAt(rel + e.path, e.size), Download(rel + e.path)}
  {
    hide Skipped, LocalMatches;
  }

  lemma BehindTopFinds()
    ensures AddEntries(Behind(), [], 1, Nothing, [], [Entry(["repodata"], Dir, None, None, None)]).0.finds ==
            multiset{Seen, Name(REPODATA)}
  {
    var dir := Entry(["repodata"], Dir, None, None, None);
    assert [] + dir.path == REPODATA && [dir][..0] == [];
  }

  /** All that its crawl finds. */
  lemma BehindFinds()
    ensures Crawl(Behind(), [], 1).finds ==
            multiset{Seen, Name(REPODATA)}
            + multiset{Name(MANIFEST), Publish(MANIFEST, Generation("new.xml")), Seen, Name(NEW_FILE),
                       FileAt(NEW_FILE, Some(7)), Download(NEW_FILE)}
  {
    BehindDirFinds();
    BehindTop();
    BehindTopFinds();
    hide AddEntries, Generation, Behind;
    var env := Behind();
    assert CrawlDirs(env, [["repodata"]], 0) == Join(Crawl(env, ["repodata"], 0), CrawlDirs(env, [], 0));
  }

  lemma BehindDirFinds()
    ensures Crawl(Behind(), ["repodata"], 0).finds ==
            multiset{Name(MANIFEST), Publish(MANIFEST, Generation("new.xml")), Seen, Name(NEW_FILE),
                     FileAt(NEW_FILE, Some(7)), Download(NEW_FILE)}
  {
    BehindFetch();
    assert ["repodata"] + ["new.xml"] == NEW_FILE && ["repodata"] + ["repomd.xml"] == MANIFEST;
    hide AddEntries, Generation, Fetch, Crawl;
    OneFile(Behind(), ["repodata"], Generation("new.xml"), NEW_ENTRY);
  }

  /** Its crawl plans the new manifest and the download of the file it names. */
  lemma BehindPlansNew()
    ensures Publish(["repodata", "repomd.xml"], Generation("new.xml")) in Crawl(Behind(), [], 1).finds
    ensures Download(["repodata", "new.xml"]) in Crawl(Behind(), [], 1).finds
  {
    BehindFinds();
    hide Crawl, Behind, Generation;
  }

  predicate BehindFind(x: Find) {
    match x
    case Download(p) => p == NEW_FILE
    case Publish(m, _) => m == MANIFEST
    case Truncated => false
    case ListingFailed => false
    case _ => true
  }

  lemma OnlyBehindFinds()
    ensures forall x | x in Crawl(Behind(), [], 1).finds :: BehindFind(x)
    ensures forall a, b :: MakeLink(a, b) !in Crawl(Behind(), [], 1).finds
  {
    BehindFinds();
    hide Crawl, Behind, Generation;
  }

  lemma BehindTargets(delete: bool, raw: Body -> nat, job: Job)
    requires PlanFor(Behind(), delete, raw, job.plan, Crawl(Behind(), [], 1))
    ensures !job.plan.incomplete
    ensures forall p | p in job.plan.downloads :: p == NEW_FILE
    ensures forall p | p in Targets(job) :: p == NEW_FILE || p == MANIFEST
    ensures forall p | p in ManifestPaths(job) :: p == MANIFEST
  {
    OnlyBehindFinds();
    hide Crawl, Extras, Behind;
    var finds := Crawl(Behind(), [], 1).finds;
    forall p | p in job.plan.downloads ensures p == NEW_FILE {
      assert multiset(job.plan.downloads)[p] > 0 && Download(p) in finds;
    }
    forall m | m in job.plan.manifests ensures m.at == MANIFEST { assert BehindFind(Publish(m.at, m.body)); }
    assert forall l :: l !in job.plan.links;
  }

  /** Nothing is in the way of its plan, and its server has all that is planned: if nothing fails, a
      synchronisation of it ends clean. */
  lemma BehindFree(delete: bool, raw: Body -> nat, job: Job)
    requires PlanFor(Behind(), delete, raw, job.plan, Crawl(Behind(), [], 1)) && job.start == Behind().fs
    ensures Free(job) && !job.plan.incomplete && forall p | p in job.plan.downloads :: ServesNew()(p).Got?
  {
    BehindTargets(delete, raw, job);
    DeletedDirs(delete, raw, job);
    BehindFreeOf(job);
  }

  lemma BehindFreeOf(job: Job)
    requires job.start == Behind().fs && forall p | p in Targets(job) :: p == NEW_FILE || p == MANIFEST
    requires forall p | p in job.plan.deleteDirs :: p in Behind().fs && Behind().fs[p].DirNode?
    ensures Free(job)
  {
    hide Scratch, Targets, Puts, Present, Partial;
    forall q, p | Above(q, p) && p in Targets(job) ensures !Present(job.start, q) && q !in Targets(job) {
      BehindPrefix(p, |q|);
    }
    forall p | Puts(job, p) ensures p in Targets(job) && (p in job.start ==> !job.start[p].DirNode?) {
      PutsTarget(job, p);
      BehindFiles();
    }
    forall q | Scratch(job, q) ensures q !in job.start && |q| == 2 { BehindScratch(job, q); }
    hide Behind;
  }

  lemma BehindFiles()
    ensures NEW_FILE !in Behind().fs && MANIFEST in Behind().fs && Behind().fs[MANIFEST].FileNode?
  {
    assert |"new.xml"| == 7 && |"old.xml"| == 7 && |"repomd.xml"| == 10 && "new.xml"[0] != "old.xml"[0];
  }

  lemma BehindScratch(job: Job, q: Path)
    requires forall p | p in Targets(job) :: p == NEW_FILE || p == MANIFEST
    requires Scratch(job, q)
    ensures q !in Behind().fs && |q| == 2
  {
    NamesApart();
    var p :| (p in job.plan.downloads || p in ManifestPaths(job)) && p != [] && q == Partial(p);
    PutsTarget(job, p);
  }

  lemma BehindPrefix(p: Path, k: nat)
    requires p in {NEW_FILE, MANIFEST} && k < |p|
    ensures !Present(Behind().fs, p[..k]) && |p[..k]| < 2
  {
    assert p[..k] == if k == 0 then [] else REPODATA;
  }

  lemma NamesApart()
    ensures |Partial(NEW_FILE)| == 2 && |Partial(MANIFEST)| == 2
    ensures Partial(NEW_FILE) !in Behind().fs && Partial(MANIFEST) !in Behind().fs
  {
    assert Partial(NEW_FILE)[1] == "new.xml" + ".partial" == "new.xml.partial";
    assert Partial(MANIFEST)[1] == "repomd.xml" + ".partial" == "repomd.xml.partial";
    assert |"new.xml.partial"| == 15 && |"repomd.xml.partial"| == 18 && |"old.xml"| == 7 && |"repomd.xml"| == 10;
  }

  lemma DeletedDirs(delete: bool, raw: Body -> nat, job: Job)
    requires PlanFor(Behind(), delete, raw, job.plan, Crawl(Behind(), [], 1))
    ensures forall p | p in job.plan.deleteDirs :: p in Behind().fs && Behind().fs[p].DirNode?
  {
    hide Crawl, Obsolete;
  }

  lemma BehindIsTree()
    ensures WellFormed(Behind().fs)
  {
    var t := Behind().fs;
    forall p | p in t && p != [] ensures Parent(p) in t && t[Parent(p)].DirNode? {
      assert p in {["repodata"], ["repodata", "old.xml"], ["repodata", "repomd.xml"]};
      assert Parent(p) == if p == ["repodata"] then [] else ["repodata"];
    }
  }

  // --- a listing that reaches into a metadata directory -----------------------------------------

  const REPODATA: Path := ["repodata"]
  const MANIFEST: Path := ["repodata", "repomd.xml"]
  const NEW_FILE: Path := ["repodata", "new.xml"]

  const DIR_ENTRY: Entry := Entry(REPODATA, Dir, None, None, None)
  const MANIFEST_ENTRY: Entry := Entry(MANIFEST, File, Some(200), None, None)
  const FILE_ENTRY: Entry := Entry(NEW_FILE, File, Some(7), None, None)

  function FlatIndex(): seq<Entry> { [DIR_ENTRY, MANIFEST_ENTRY, FILE_ENTRY] }

  /** The same mirror behind an upstream whose one listing has keys with slashes, as object stores
      give them. */
  function Flat(): Env { Behind().(index := rel => if rel == [] then Some(FlatIndex()) else None) }

  lemma FlatFetch()
    ensures Fetch(Flat(), []) == Listing(FlatIndex(), None)
    ensures Fetch(Flat(), REPODATA) == Listing([NEW_ENTRY], Some(Generation("new.xml")))
  {
    GoodGeneration("new.xml");
    hide GoodManifest, Named;
    assert ManifestEntries(Generation("new.xml").items) == [NEW_ENTRY];
  }

  /** None of the entries is passed over, and neither file is there in its new size. */
  lemma FlatPlain()
    ensures forall e | e in FlatIndex() ::
              !Skipped(Flat(), [], e) && (e.kind.File? ==> !LocalMatches(Flat().fs, e.path, e))
  {
  }

  function RootFinds(es: seq<Entry>): (Found, seq<Path>) { AddEntries(Flat(), [], 1, Nothing, [], es) }

  ghost predicate NamesAre(f: Found, s: set<Path>) { forall p :: Name(p) in f.finds <==> p in s }

  lemma FlatRoot()
    ensures var r := RootFinds(FlatIndex());
            r.1 == [REPODATA] && Download(MANIFEST) in r.0.finds && Download(NEW_FILE) in r.0.finds
  {
    hide RootFinds, NamesAre, Skipped, LocalMatches, Flat;
    FlatPlain();
    assert DIR_ENTRY in FlatIndex() && MANIFEST_ENTRY in FlatIndex() && FILE_ENTRY in FlatIndex();
    NoEntries();
    FlatStep({}, [], DIR_ENTRY);
    assert [] + [DIR_ENTRY] == [DIR_ENTRY] && {} + {REPODATA} == {REPODATA};
    assert |MANIFEST| != |REPODATA| && |NEW_FILE| != |REPODATA| && |NEW_FILE[1]| != |MANIFEST[1]|;
    FlatStep({REPODATA}, [DIR_ENTRY], MANIFEST_ENTRY);
    assert [DIR_ENTRY] + [MANIFEST_ENTRY] == [DIR_ENTRY, MANIFEST_ENTRY];
    FlatStep({REPODATA} + {MANIFEST}, [DIR_ENTRY, MANIFEST_ENTRY], FILE_ENTRY);
    assert [DIR_ENTRY, MANIFEST_ENTRY] + [FILE_ENTRY] == FlatIndex();
  }

  lemma NoEntries()
    ensures RootFinds([]) == (Nothing, []) && NamesAre(Nothing, {})
  {
  }

  lemma FlatStep(known: set<Path>, init: seq<Entry>, e: Entry)
    requires NamesAre(RootFinds(init).0, known) && e.path !in known && !Skipped(Flat(), [], e)
    requires e.kind.File? ==> !LocalMatches(Flat().fs, e.path, e)
    ensures var (f, subs) := RootFinds(init);
            var r := RootFinds(init + [e]);
            && r.1 == (if e.kind.Dir? then subs + [e.path] else subs) && f.finds <= r.0.finds
            && (e.kind.File? ==> Download(e.path) in r.0.finds) && NamesAre(r.0, known + {e.path})
  {
    hide LocalMatches, Skipped, Flat, AddEntry, RootFinds;
    var (f, subs) := RootFinds(init);
    RootStep(init, e);
    EntryGrows(Flat(), [], 1, f, subs, e);
    EntryNamed(Flat(), f, subs, e);
    EntryScheduled(Flat(), f, subs, e);
  }

  lemma RootStep(init: seq<Entry>, e: Entry)
    ensures RootFinds(init + [e]) == AddEntry(Flat(), [], 1, RootFinds(init).0, RootFinds(init).1, e)
  {
    hide AddEntry, Flat;
    assert (init + [e])[..|init|] == init;
  }

  lemma EntryScheduled(env: Env, f: Found, subs: seq<Path>, e: Entry)
    requires !Skipped(env, [], e) && Name(e.path) !in f.finds && (e.kind.File? ==> !LocalMatches(env.fs, e.path, e))
    ensures var r := AddEntry(env, [], 1, f, subs, e);
            r.1 == (if e.kind.Dir? then subs + [e.path] else subs) && (e.kind.File? ==> Download(e.path) in r.0.finds)
  {
    hide LocalMatches, Skipped, LinkTarget;
    assert [] + e.path == e.path;
  }

  lemma EntryNamed(env: Env, f: Found, subs: seq<Path>, e: Entry)
    requires !Skipped(env, [], e) && Name(e.path) !in f.finds
    ensures forall p :: Name(p) in AddEntry(env, [], 1, f, subs, e).0.finds <==> Name(p) in f.finds || p == e.path
  {
    hide Skipped, Additions;
    assert [] + e.path == e.path;
    NewNames(env, 1, e.path, e);
  }

  /** The crawl schedules the manifest as an ordinary download and for publication too; if that
      download lands first, readers see a manifest that names a file not there. */
  lemma FlatShowsIncomplete() returns (job: Job)
    ensures !MetadataApart(Flat())
    ensures Fetch(Flat(), []) == Listing(FlatIndex(), None)
    ensures Fetch(Flat(), REPODATA) == Listing([NEW_ENTRY], Some(Generation("new.xml")))
    ensures Download(MANIFEST) in Crawl(Flat(), [], 1).finds
    ensures Publish(MANIFEST, Generation("new.xml")) in Crawl(Flat(), [], 1).finds
    ensures Download(MANIFEST) in FlatFinds().finds && Publish(MANIFEST, Generation("new.xml")) in FlatFinds().finds
    ensures job.start == Flat().fs && job.plan.downloads == [MANIFEST, NEW_FILE]
    ensures job.plan.manifests == [Manifest(MANIFEST, Generation("new.xml"), 200)]
    ensures Proper(job) && Possible(job, [Land(MANIFEST)])
    ensures Complete(job, job.start) && !Complete(job, After(job, [Land(MANIFEST)])) && !Orderly(job)
  {
    job := FlatJob();
    FlatFetch();
    FlatManifest();
    FlatCrawled();
    hide Proper, Orderly, Complete, Possible, After, MetadataApart, FlatFinds, FlatIndex, Generation, Crawl;
    FlatReaches();
    FlatProper();
    FlatLands();
  }

  function FlatJob(): Job {
    Job(Behind().fs, Plan([MANIFEST, NEW_FILE], [Manifest(MANIFEST, Generation("new.xml"), 200)], {}, [], [], false,
                          Some(207)),
        p => if p == MANIFEST then Got(Repomd(Generation("new.xml"), 200)) else Got(Blob(2, 7)), map[])
  }

  /** What the crawl knows after its two listings. */
  function FlatFinds(): Found {
    AddEntries(Flat(), REPODATA, 0, AfterRoot(), [], [NEW_ENTRY]).0
  }

  function AfterRoot(): Found { AddManifest(REPODATA, RootFinds(FlatIndex()).0, Some(Generation("new.xml"))) }

  lemma FlatManifest()
    ensures Download(MANIFEST) in FlatFinds().finds && Publish(MANIFEST, Generation("new.xml")) in FlatFinds().finds
  {
    hide AddEntries, AfterRoot, Flat;
    AfterRootFinds();
    NamesAdded(Flat(), REPODATA, 0, AfterRoot(), [NEW_ENTRY]);
  }

  lemma AfterRootFinds()
    ensures Download(MANIFEST) in AfterRoot().finds && Publish(MANIFEST, Generation("new.xml")) in AfterRoot().finds
  {
    hide RootFinds, Generation;
    FlatRoot();
    assert REPODATA + ["repomd.xml"] == MANIFEST;
  }

  lemma FlatCrawled()
    ensures Download(MANIFEST) in Crawl(Flat(), [], 1).finds
    ensures Publish(MANIFEST, Generation("new.xml")) in Crawl(Flat(), [], 1).finds
  {
    FlatFetch();
    FlatRoot();
    FlatBelow();
    hide AddEntries, Generation, Flat, FlatIndex;
    var f, rest := Crawl(Flat(), REPODATA, 0), CrawlDirs(Flat(), [], 0);
    assert CrawlDirs(Flat(), [REPODATA], 0) == Join(f, rest);
  }

  lemma FlatBelow()
    ensures Publish(MANIFEST, Generation("new.xml")) in Crawl(Flat(), REPODATA, 0).finds
  {
    FlatFetch();
    assert REPODATA + ["new.xml"] == NEW_FILE && REPODATA + ["repomd.xml"] == MANIFEST;
    hide Generation;
    OneFile(Flat(), REPODATA, Generation("new.xml"), NEW_ENTRY);
  }

  lemma FlatReaches()
    ensures !MetadataApart(Flat())
  {
    FlatFetch();
    FlatPlain();
    var dir, file := FlatIndex()[0], FlatIndex()[1];
    hide Fetch, Skipped;
    assert dir in FlatIndex() && file in FlatIndex();
    assert [] + REPODATA == REPODATA && [] + MANIFEST == MANIFEST;
    assert Lists(Flat(), [], dir) && Lists(Flat(), [], file) && Parent(MANIFEST) == REPODATA;
    assert ListedDir(Flat(), REPODATA);
  }

  lemma FlatProper()
    ensures Proper(FlatJob()) && !Orderly(FlatJob())
  {
    GoodGeneration("new.xml");
    BehindIsTree();
    hide GoodManifest, Named, Sound;
    var m := FlatJob().plan.manifests[0];
    assert m in FlatJob().plan.manifests && !ProperManifest(FlatJob(), m);
  }

  lemma FlatLands()
    ensures Possible(FlatJob(), [Land(MANIFEST)]) && Complete(FlatJob(), FlatJob().start)
    ensures !Complete(FlatJob(), After(FlatJob(), [Land(MANIFEST)]))
  {
    GoodGeneration("new.xml");
    FlatStarts();
    NotThere();
    hide GoodManifest, Named, Complete, Generation, Put, CanPut, Behind;
    var job, moves := FlatJob(), [Land(MANIFEST)];
    assert moves[..0] == [] && Possible(job, []) && Parent(MANIFEST) == REPODATA && REPODATA + ["new.xml"] == NEW_FILE;
    FlatCanPut();
    assert After(job, moves) == Put(job.start, MANIFEST, FileNode(Repomd(Generation("new.xml"), 200), 1));
    assert job.plan.manifests[0].at in ManifestPaths(job);
    ShowsNothing(job, job.start, MANIFEST, Generation("new.xml"), "new.xml", 200);
  }

  lemma NotThere()
    ensures !Present(Behind().fs, NEW_FILE)
  {
    assert |"old.xml"| == 7 && "new.xml"[0] != "old.xml"[0] && |"repomd.xml"| == 10 && |"new.xml"| == 7;
  }

  lemma FlatCanPut()
    ensures CanPut(Behind().fs, MANIFEST)
  {
    assert Partial(MANIFEST)[1] == "repomd.xml" + ".partial";
    assert |"repomd.xml" + ".partial"| == 18 && |"old.xml"| == 7 && |"repomd.xml"| == 10;
    forall k | 0 <= k < |MANIFEST| && MANIFEST[..k] in Behind().fs ensures Behind().fs[MANIFEST[..k]].DirNode? {
      assert MANIFEST[..k] == if k == 0 then [] else REPODATA;
    }
  }

  lemma FlatStarts()
    ensures Complete(FlatJob(), FlatJob().start)
  {
    BehindNames();
    hide GoodManifest, Named;
    var job := FlatJob();
    forall m, b | m in ManifestPaths(job) && m != [] && Current(job.start, m, b) ensures NamesPresent(job.start, m, b) {
      assert m == MANIFEST && Parent(m) == REPODATA;
      BehindMetadata();
    }
  }

  lemma BehindMetadata()
    ensures ManifestPath(Behind(), MANIFEST)
  {
    var dir := Entry(["repodata"], Dir, None, None, None);
    BehindTop();
    assert [] + dir.path == REPODATA && Parent(MANIFEST) == REPODATA && Lists(Behind(), [], dir);
    assert ListedDir(Behind(), REPODATA);
  }
}
