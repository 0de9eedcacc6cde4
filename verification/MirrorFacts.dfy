/** What a crawl's findings say about each other, the local tree and the manifests. */
module MirrorFacts {
  import opened Prelude
  import opened MirrorPlan
  import opened MirrorTree

  /** The listing of `rel` has this entry, and it is not passed over. */
  ghost predicate Lists(env: Env, rel: Path, e: Entry) {
    Fetch(env, rel).Listing? && e in Fetch(env, rel).entries && !Skipped(env, rel, e)
  }

  /** Some listing names the directory. */
  ghost predicate ListedDir(env: Env, d: Path) {
    exists rel, e :: Lists(env, rel, e) && e.kind.Dir? && rel + e.path == d
  }

  /** A directory whose `repomd.xml` the crawl reads: one called `repodata` that is the root or that
      some listing names as a directory. */
  ghost predicate Metadata(env: Env, d: Path) { IsRepodata(env, d) && (d == [] || ListedDir(env, d)) }

  /** The `repomd.xml` of a metadata directory. */
  ghost predicate ManifestPath(env: Env, p: Path) { p != [] && p[|p| - 1] == "repomd.xml" && Metadata(env, Parent(p)) }

  /** No index listing names anything inside a metadata directory: what is in there is what its own
      manifest says. Names without slashes always keep to this. */
  ghost predicate MetadataApart(env: Env) {
    forall rel, e | Lists(env, rel, e) && !IsRepodata(env, rel) :: !Metadata(env, Parent(rel + e.path))
  }

  lemma SingleNamesApart(env: Env)
    requires SingleNames(env)
    ensures MetadataApart(env)
  {
    forall rel, e | Lists(env, rel, e) && !IsRepodata(env, rel) ensures !Metadata(env, Parent(rel + e.path)) {
      FetchedSingle(env, rel);
      assert Parent(rel + e.path) == rel;
    }
  }

  /** Nothing to fetch as far as the size goes; a link or directory in the way is left alone. */
  predicate InPlace(t: Tree, p: Path, size: Option<nat>) {
    p in t && (t[p].FileNode? && size.Some? ==> t[p].data.bytes == size.value)
  }

  ghost predicate Justified(env: Env, f: Found, x: Find) {
    match x
    case Name(p) => p != [] && ".." !in p
    case FileAt(p, size) =>
      && Name(p) in f.finds && Unhit(env.hit, p) && (Download(p) in f.finds || InPlace(env.fs, p, size))
      && (size.None? ==> UnknownSize in f.finds)
    case Download(p) => exists size :: FileAt(p, size) in f.finds && (size.Some? ==> !InPlace(env.fs, p, size))
    case MakeLink(p, _) => Name(p) in f.finds && Unhit(env.hit, p)
    case Publish(m, b) =>
      && Name(m) in f.finds && ManifestPath(env, m) && env.repomd(Parent(m)) == Some(b) && GoodManifest(b)
    case _ => true
  }

  ghost predicate AllJustified(env: Env, f: Found) { forall x | x in f.finds :: Justified(env, f, x) }

  lemma JustifiedGrows(env: Env, f: Found, g: Found, x: Find)
    requires f.finds <= g.finds && Justified(env, f, x)
    ensures Justified(env, g, x)
  {
    assert forall y | y in f.finds :: y in g.finds;
  }

  lemma JoinJustified(env: Env, f: Found, g: Found)
    requires AllJustified(env, f) && AllJustified(env, g)
    ensures AllJustified(env, Join(f, g))
  {
    forall x | x in Join(f, g).finds ensures Justified(env, Join(f, g), x) {
      if x in f.finds { JustifiedGrows(env, f, Join(f, g), x); } else { JustifiedGrows(env, g, Join(f, g), x); }
    }
  }

  /** Adding findings whose justification is there. */
  lemma MoreJustified(env: Env, f: Found, g: Found)
    requires AllJustified(env, f) && f.finds <= g.finds
    requires forall x | x in g.finds && x !in f.finds :: Justified(env, g, x)
    ensures AllJustified(env, g)
  {
    forall x | x in g.finds ensures Justified(env, g, x) {
      if x in f.finds { JustifiedGrows(env, f, g, x); }
    }
  }

  lemma NewJustified(env: Env, depth: nat, f: Found, subs: seq<Path>, key: Path, e: Entry)
    requires AllJustified(env, f) && key != [] && ".." !in key && Unhit(env.hit, key)
    ensures AllJustified(env, AddNew(env, depth, f, subs, key, e).0)
  {
    hide AllJustified, Justified, Additions, InPlace, Unhit;
    var g := AddNew(env, depth, f, subs, key, e).0;
    NewNames(env, depth, key, e);
    NewGrows(env, depth, f, subs, key, e);
    if e.kind.File? { FileFinds(env, depth, f, subs, key, e); }
    forall x | x in g.finds && x !in f.finds ensures Justified(env, g, x) {
      OneJustified(env, f, g, key, e, x);
    }
    MoreJustified(env, f, g);
  }

  lemma OneJustified(env: Env, f: Found, g: Found, key: Path, e: Entry, x: Find)
    requires key != [] && ".." !in key && Unhit(env.hit, key) && x in g.finds && x !in f.finds && Name(key) in g.finds
    requires e.kind.File? ==> FileAt(key, e.size) in g.finds && (e.size.None? ==> UnknownSize in g.finds)
    requires e.kind.File? ==> Download(key) in g.finds || InPlace(env.fs, key, e.size)
    requires e.kind.File? && Download(key) in g.finds && Download(key) !in f.finds && e.size.Some? ==>
               !InPlace(env.fs, key, e.size)
    requires || x == Name(key) || x.Truncated? || x.UnknownSize? || (e.kind.File? && x == FileAt(key, e.size))
             || (e.kind.File? && x == Download(key)) || x == MakeLink(key, LinkTarget(e))
    ensures Justified(env, g, x)
  {
    hide ManifestPath, InPlace, LinkTarget, Unhit;
  }

  lemma FileFinds(env: Env, depth: nat, f: Found, subs: seq<Path>, key: Path, e: Entry)
    requires e.kind.File?
    ensures var g := AddNew(env, depth, f, subs, key, e).0;
            && FileAt(key, e.size) in g.finds && (e.size.None? ==> UnknownSize in g.finds)
            && (Download(key) in g.finds || InPlace(env.fs, key, e.size))
            && (Download(key) in g.finds && Download(key) !in f.finds && e.size.Some? ==> !InPlace(env.fs, key, e.size))
  {
  }

  lemma {:induction false} EntriesJustified(env: Env, rel: Path, depth: nat, f0: Found, es: seq<Entry>)
    requires AllJustified(env, f0) && ".." !in rel
    ensures AllJustified(env, AddEntries(env, rel, depth, f0, [], es).0)
    decreases |es|
  {
    hide AllJustified, AddNew, Excluded, Unhit;
    if es != [] {
      var init, e := es[..|es| - 1], es[|es| - 1];
      EntriesJustified(env, rel, depth, f0, init);
      var (f, subs) := AddEntries(env, rel, depth, f0, [], init);
      PlainJustified(env, f, Seen);
      UnhitIff(env.hit, rel + e.path);
      if !Skipped(env, rel, e) {
        EntryInside(env, rel, e);
        NewJustified(env, depth, f.Add(Seen), subs, rel + e.path, e);
      }
    }
  }

  lemma PlainJustified(env: Env, f: Found, x: Find)
    requires AllJustified(env, f) && (x.Seen? || x.Truncated? || x.ListingFailed? || x.BadManifest?)
    ensures AllJustified(env, f.Add(x))
  {
    MoreJustified(env, f, f.Add(x));
  }

  lemma ManifestFetched(env: Env, rel: Path)
    requires Fetch(env, rel).Listing? && Fetch(env, rel).manifest.Some?
    ensures IsRepodata(env, rel) && env.repomd(rel) == Fetch(env, rel).manifest
    ensures GoodManifest(Fetch(env, rel).manifest.value)
  {
  }

  lemma ManifestJustified(env: Env, rel: Path, acc: Found, r: Reply)
    requires AllJustified(env, acc) && r == Fetch(env, rel) && r.Listing? && ".." !in rel
             && (IsRepodata(env, rel) ==> Metadata(env, rel))
    ensures AllJustified(env, AddManifest(rel, acc, r.manifest))
  {
    if r.manifest.Some? {
      ManifestFetched(env, rel);
      hide Metadata, IsRepodata, GoodManifest, Fetch;
      BothJustified(env, acc, rel, r.manifest.value);
    }
  }

  lemma BothJustified(env: Env, acc: Found, rel: Path, b: Body)
    requires AllJustified(env, acc) && ".." !in rel && Metadata(env, rel) && env.repomd(rel) == Some(b)
             && GoodManifest(b)
    ensures AllJustified(env, AddManifest(rel, acc, Some(b)))
  {
    hide Metadata, GoodManifest, AllJustified;
    var m := rel + ["repomd.xml"];
    assert Parent(m) == rel && m[|m| - 1] == "repomd.xml" && ManifestPath(env, m);
    hide ManifestPath;
    var f := acc.Add(Name(m));
    AddJustified(env, acc, Name(m));
    assert Name(m) in f.Add(Publish(m, b)).finds;
    AddJustified(env, f, Publish(m, b));
  }

  lemma AddJustified(env: Env, f: Found, x: Find)
    requires AllJustified(env, f) && Justified(env, f.Add(x), x)
    ensures AllJustified(env, f.Add(x))
  {
    hide Justified;
    MoreJustified(env, f, f.Add(x));
  }

  /** What one listing adds to what is known, whatever the server. */
  lemma ListingJustified(env: Env, rel: Path, depth: nat, acc: Found, es: seq<Entry>)
    requires AllJustified(env, acc) && Fetch(env, rel).Listing? && (IsRepodata(env, rel) ==> Metadata(env, rel))
    requires ".." !in rel
    ensures AllJustified(env, AddEntries(env, rel, depth, AddManifest(rel, acc, Fetch(env, rel).manifest), [], es).0)
  {
    hide AllJustified, Fetch, AddManifest, AddEntries, Metadata;
    ManifestJustified(env, rel, acc, Fetch(env, rel));
    EntriesJustified(env, rel, depth, AddManifest(rel, acc, Fetch(env, rel).manifest), es);
  }

  lemma {:induction false} CrawlJustified(env: Env, rel: Path, depth: nat)
    requires (IsRepodata(env, rel) ==> Metadata(env, rel)) && ".." !in rel
    ensures AllJustified(env, Crawl(env, rel, depth))
    decreases depth, 0, 0
  {
    hide AddEntries, Fetch, AddManifest, Metadata, IsRepodata;
    var r := Fetch(env, rel);
    if r.Listing? {
      var start := AddManifest(rel, Nothing, r.manifest);
      ListingJustified(env, rel, depth, Nothing, r.entries);
      if depth > 0 {
        var (f, subs) := AddEntries(env, rel, depth, start, [], r.entries);
        SubsListed(env, rel, depth, start, r.entries);
        DirsJustified(env, subs, depth - 1);
        JoinJustified(env, f, CrawlDirs(env, subs, depth - 1));
      }
    }
  }

  lemma {:induction false} DirsJustified(env: Env, rels: seq<Path>, depth: nat)
    requires forall d | d in rels :: ListedDir(env, d) && ".." !in d
    ensures AllJustified(env, CrawlDirs(env, rels, depth))
    decreases depth, 1, |rels|
  {
    hide ListedDir;
    if rels != [] {
      assert rels[0] in rels;
      CrawlJustified(env, rels[0], depth);
      DirsJustified(env, rels[1..], depth);
      JoinJustified(env, Crawl(env, rels[0], depth), CrawlDirs(env, rels[1..], depth));
    }
  }

  /** Every directory a listing yields was named by it. */
  lemma SubsListed(env: Env, rel: Path, depth: nat, start: Found, es: seq<Entry>)
    requires Fetch(env, rel).Listing? && es == Fetch(env, rel).entries && ".." !in rel
    ensures forall d | d in AddEntries(env, rel, depth, start, [], es).1 :: ListedDir(env, d) && ".." !in d
  {
    hide AddEntries, Fetch, Skipped;
    EntriesDirs(env, rel, depth, start, es);
    forall d | d in AddEntries(env, rel, depth, start, [], es).1 ensures ListedDir(env, d) && ".." !in d {
      var e :| e in es && e.kind.Dir? && !Skipped(env, rel, e) && d == rel + e.path;
      assert Lists(env, rel, e);
      EntryInside(env, rel, e);
    }
  }

  lemma EntryInside(env: Env, rel: Path, e: Entry)
    requires !Skipped(env, rel, e) && ".." !in rel
    ensures ".." !in rel + e.path
  {
  }

  // --- every file a manifest names is in the plan ---------------------------------------------

  ghost predicate Listed(env: Env, f: Found, p: Path) {
    Excluded(env.hit, p) || exists size :: FileAt(p, size) in f.finds
  }

  ghost predicate Covered(env: Env, f: Found) {
    forall m, b | Publish(m, b) in f.finds && m != [] && GoodManifest(b) ::
      forall n | n in Named(b) :: Listed(env, f, Parent(m) + [n])
  }

  /** No manifest the crawl reads is also scheduled as an ordinary file. */
  ghost predicate Unlisted(env: Env, f: Found) {
    forall p, size | FileAt(p, size) in f.finds :: !ManifestPath(env, p)
  }

  /** Names inside a metadata directory are known only once it has been listed. */
  ghost predicate Inside(env: Env, f: Found, listed: set<Path>) {
    forall p | Name(p) in f.finds && p != [] && Metadata(env, Parent(p)) :: Parent(p) in listed
  }

  /** What holds between two rounds of the crawl, on any server; the second half where listings
      keep out of metadata directories. */
  ghost predicate Sane(env: Env, f: Found, listed: set<Path>) {
    && AllJustified(env, f)
    && (MetadataApart(env) ==> Unlisted(env, f) && Covered(env, f) && Inside(env, f, listed))
  }

  /** Of the names directly in `rel`, all but its manifest are files. */
  ghost predicate OnlyFiles(rel: Path, f: Found) {
    forall p | Name(p) in f.finds && p != [] && Parent(p) == rel && p != rel + ["repomd.xml"] :: HasFileAt(f, p)
  }

  ghost predicate HasFileAt(f: Found, p: Path) { exists size :: FileAt(p, size) in f.finds }

  lemma FileAtGrows(f: Found, g: Found, p: Path)
    requires f.finds <= g.finds && HasFileAt(f, p)
    ensures HasFileAt(g, p)
  {
    var size :| FileAt(p, size) in f.finds;
    assert FileAt(p, size) in g.finds;
  }

  lemma FileStep(env: Env, rel: Path, depth: nat, f: Found, subs: seq<Path>, e: Entry)
    requires OnlyFiles(rel, f) && e.kind.File? && |e.path| == 1 && SafeRel(e.path) && e.path[0] != "repomd.xml"
    ensures var g := AddEntry(env, rel, depth, f, subs, e).0;
            OnlyFiles(rel, g) && Listed(env, g, rel + e.path) && f.finds <= g.finds
  {
    hide SafeRel, Additions, HasFileAt, Excluded;
    var g, key := AddEntry(env, rel, depth, f, subs, e).0, rel + e.path;
    EntryGrows(env, rel, depth, f, subs, e);
    NewNames(env, depth, key, e);
    forall p | HasFileAt(f, p) ensures HasFileAt(g, p) { FileAtGrows(f, g, p); }
    if !Skipped(env, rel, e) {
      assert key[|rel|] == e.path[0] && key != rel + ["repomd.xml"] && Parent(key) == rel;
      if Name(key) !in f.finds {
        FileFinds(env, depth, f.Add(Seen), subs, key, e);
        FileHere(g, key, e.size);
      }
      FileListed(env, g, key);
    }
  }

  lemma FileHere(f: Found, p: Path, size: Option<nat>)
    requires FileAt(p, size) in f.finds
    ensures HasFileAt(f, p)
  {
  }

  lemma FileListed(env: Env, f: Found, p: Path)
    requires HasFileAt(f, p)
    ensures Listed(env, f, p)
  {
  }

  lemma ListedGrows(env: Env, f: Found, g: Found)
    requires f.finds <= g.finds
    ensures forall p | Listed(env, f, p) :: Listed(env, g, p)
  {
    assert forall x | x in f.finds :: x in g.finds;
  }

  /** While a manifest's entries are added, every name but its own is a file. */
  lemma {:induction false} ManifestFiles(env: Env, rel: Path, depth: nat, start: Found, es: seq<Entry>)
    requires OnlyFiles(rel, start)
    requires forall e | e in es :: e.kind.File? && |e.path| == 1 && SafeRel(e.path) && e.path[0] != "repomd.xml"
    ensures var f := AddEntries(env, rel, depth, start, [], es).0;
            OnlyFiles(rel, f) && start.finds <= f.finds && forall e | e in es :: Listed(env, f, rel + e.path)
    decreases |es|
  {
    hide SafeRel, AddEntry, Listed, OnlyFiles;
    if es != [] {
      var init, e := es[..|es| - 1], es[|es| - 1];
      ManifestFiles(env, rel, depth, start, init);
      var (f, subs) := AddEntries(env, rel, depth, start, [], init);
      FileStep(env, rel, depth, f, subs, e);
      ListedGrows(env, f, AddEntry(env, rel, depth, f, subs, e).0);
      assert es == init + [e];
    }
  }

  /** Only the manifest of the directory listed is added to those to publish. */
  lemma {:induction false} NoManifestAdded(env: Env, rel: Path, depth: nat, f0: Found, es: seq<Entry>)
    ensures forall m, b | Publish(m, b) in AddEntries(env, rel, depth, f0, [], es).0.finds :: Publish(m, b) in f0.finds
    decreases |es|
  {
    hide Additions, Skipped;
    if es != [] {
      NoManifestAdded(env, rel, depth, f0, es[..|es| - 1]);
      NewNames(env, depth, rel + es[|es| - 1].path, es[|es| - 1]);
    }
  }

  /** The entries a listing adds are its own. */
  lemma {:induction false} NamesAdded(env: Env, rel: Path, depth: nat, f0: Found, es: seq<Entry>)
    ensures var f := AddEntries(env, rel, depth, f0, [], es).0;
            && f0.finds <= f.finds
            && (forall p | Name(p) in f.finds && Name(p) !in f0.finds :: FromEntry(env, rel, es, p))
            && (forall p, size | FileAt(p, size) in f.finds && FileAt(p, size) !in f0.finds ::
                FromEntry(env, rel, es, p))
    decreases |es|
  {
    hide Additions, Skipped, AddEntry;
    if es != [] {
      var init, e := es[..|es| - 1], es[|es| - 1];
      NamesAdded(env, rel, depth, f0, init);
      var (f, subs) := AddEntries(env, rel, depth, f0, [], init);
      EntryNames(env, rel, depth, f, subs, e);
      EntryGrows(env, rel, depth, f, subs, e);
      assert es == init + [e];
      assert e in es;
      forall p | FromEntry(env, rel, init, p) ensures FromEntry(env, rel, es, p) {
        var x :| x in init && !Skipped(env, rel, x) && p == rel + x.path;
        assert x in es;
      }
    }
  }

  ghost predicate FromEntry(env: Env, rel: Path, es: seq<Entry>, p: Path) {
    exists e | e in es :: !Skipped(env, rel, e) && p == rel + e.path
  }

  lemma EntryNames(env: Env, rel: Path, depth: nat, f: Found, subs: seq<Path>, e: Entry)
    ensures var g := AddEntry(env, rel, depth, f, subs, e).0;
            && (forall p | Name(p) in g.finds && Name(p) !in f.finds :: !Skipped(env, rel, e) && p == rel + e.path)
            && (forall p, size | FileAt(p, size) in g.finds && FileAt(p, size) !in f.finds ::
                  !Skipped(env, rel, e) && p == rel + e.path)
  {
    hide Additions, Skipped;
    NewNames(env, depth, rel + e.path, e);
  }

  /** An index listing names nothing in a metadata directory, and a manifest does not name itself. */
  lemma EntryApart(env: Env, rel: Path, e: Entry)
    requires MetadataApart(env) && Lists(env, rel, e)
    ensures e.path != [] && !ManifestPath(env, rel + e.path)
    ensures Metadata(env, Parent(rel + e.path)) ==> Parent(rel + e.path) == rel && IsRepodata(env, rel)
  {
    if IsRepodata(env, rel) {
      EntriesSafe(env.repomd(rel).value);
      assert Parent(rel + e.path) == rel && (rel + e.path)[|rel|] == e.path[0];
    }
  }

  lemma EntriesSafe(b: Body)
    requires GoodManifest(b)
    ensures forall e | e in ManifestEntries(b.items) ::
              e.kind.File? && SafeRel(e.path) && |e.path| == 1 && e.path[0] != "repomd.xml"
  {
    var es := ManifestEntries(b.items);
    forall e | e in es ensures e.kind.File? && SafeRel(e.path) && |e.path| == 1 && e.path[0] != "repomd.xml" {
      var i :| 0 <= i < |es| && es[i] == e;
      assert GoodItem(b.items[i]);
    }
  }

  /** One listing, added to what is known: no manifest becomes an ordinary file. */
  lemma StaysUnlisted(env: Env, rel: Path, depth: nat, acc: Found, es: seq<Entry>)
    requires MetadataApart(env) && Unlisted(env, acc) && Fetch(env, rel).Listing?
    requires forall e | e in es :: e in Fetch(env, rel).entries
    ensures Unlisted(env, AddEntries(env, rel, depth, AddManifest(rel, acc, Fetch(env, rel).manifest), [], es).0)
  {
    hide AddEntries, MetadataApart, ManifestPath, Fetch;
    var start := AddManifest(rel, acc, Fetch(env, rel).manifest);
    var f := AddEntries(env, rel, depth, start, [], es).0;
    NamesAdded(env, rel, depth, start, es);
    forall p, size | FileAt(p, size) in f.finds ensures !ManifestPath(env, p) {
      if FileAt(p, size) !in start.finds {
        var e :| e in es && !Skipped(env, rel, e) && p == rel + e.path;
        assert Lists(env, rel, e);
        EntryApart(env, rel, e);
      }
    }
  }

  lemma StaysInside(env: Env, rel: Path, depth: nat, acc: Found, listed: set<Path>)
    requires MetadataApart(env) && Inside(env, acc, listed) && Fetch(env, rel).Listing?
    ensures var r := Fetch(env, rel);
            Inside(env, AddEntries(env, rel, depth, AddManifest(rel, acc, r.manifest), [], r.entries).0, listed + {rel})
  {
    hide AddEntries, MetadataApart, Metadata, Fetch;
    var r := Fetch(env, rel);
    var start := AddManifest(rel, acc, r.manifest);
    var f := AddEntries(env, rel, depth, start, [], r.entries).0;
    NamesAdded(env, rel, depth, start, r.entries);
    forall p | Name(p) in f.finds && p != [] && Metadata(env, Parent(p)) ensures Parent(p) in listed + {rel} {
      if Name(p) !in start.finds {
        var e :| e in r.entries && !Skipped(env, rel, e) && p == rel + e.path;
        assert Lists(env, rel, e);
        EntryApart(env, rel, e);
      } else if Name(p) !in acc.finds {
        assert Parent(rel + ["repomd.xml"]) == rel;
      }
    }
  }

  /** The first listing of a directory: its manifest's files are all in the plan or excluded. */
  lemma StaysCovered(env: Env, rel: Path, depth: nat, acc: Found, listed: set<Path>)
    requires Covered(env, acc) && Inside(env, acc, listed) && rel !in listed && Fetch(env, rel).Listing?
    requires IsRepodata(env, rel) ==> Metadata(env, rel)
    ensures var r := Fetch(env, rel);
            Covered(env, AddEntries(env, rel, depth, AddManifest(rel, acc, r.manifest), [], r.entries).0)
  {
    hide AddEntries, Listed, Metadata;
    var r := Fetch(env, rel);
    var start := AddManifest(rel, acc, r.manifest);
    var f := AddEntries(env, rel, depth, start, [], r.entries).0;
    NoManifestAdded(env, rel, depth, start, r.entries);
    NamesAdded(env, rel, depth, start, r.entries);
    ListedGrows(env, acc, f);
    if r.manifest.Some? { ManifestCovered(env, rel, depth, acc, r.manifest.value); }
    forall m, b | Publish(m, b) in f.finds && m != [] && GoodManifest(b)
      ensures forall n | n in Named(b) :: Listed(env, f, Parent(m) + [n])
    {
      if Publish(m, b) !in acc.finds { assert Parent(rel + ["repomd.xml"]) == rel; }
    }
  }

  lemma ManifestCovered(env: Env, rel: Path, depth: nat, acc: Found, b: Body)
    requires GoodManifest(b) && forall p | Name(p) in acc.finds && p != [] :: Parent(p) != rel
    ensures var f := AddEntries(env, rel, depth, AddManifest(rel, acc, Some(b)), [], ManifestEntries(b.items)).0;
            forall n | n in Named(b) :: Listed(env, f, rel + [n])
  {
    hide AddEntries, Listed;
    var es := ManifestEntries(b.items);
    EntriesSafe(b);
    ManifestFiles(env, rel, depth, AddManifest(rel, acc, Some(b)), es);
    var f := AddEntries(env, rel, depth, AddManifest(rel, acc, Some(b)), [], es).0;
    forall n | n in Named(b) ensures Listed(env, f, rel + [n]) {
      var d :| d in b.items && d.href.value[1] == n;
      var i :| 0 <= i < |b.items| && b.items[i] == d;
      assert es[i].path == [n] && es[i] in es;
    }
  }

  /** A listing read to its end leaves everything sane. */
  lemma StaysSane(env: Env, rel: Path, depth: nat, acc: Found, listed: set<Path>)
    requires Sane(env, acc, listed) && rel !in listed && ".." !in rel && Fetch(env, rel).Listing?
    requires IsRepodata(env, rel) ==> Metadata(env, rel)
    ensures var r := Fetch(env, rel);
            Sane(env, AddEntries(env, rel, depth, AddManifest(rel, acc, r.manifest), [], r.entries).0, listed + {rel})
  {
    hide AddEntries, AddManifest, AllJustified, MetadataApart, Unlisted, Covered, Inside, Fetch, Metadata, IsRepodata;
    var r := Fetch(env, rel);
    ListingJustified(env, rel, depth, acc, r.entries);
    if MetadataApart(env) {
      StaysUnlisted(env, rel, depth, acc, r.entries);
      StaysInside(env, rel, depth, acc, listed);
      StaysCovered(env, rel, depth, acc, listed);
    }
  }

  /** A listing that could not be fetched. */
  lemma FailedSane(env: Env, acc: Found, listed: set<Path>, rel: Path)
    requires Sane(env, acc, listed)
    ensures Sane(env, acc.Add(ListingFailed), listed + {rel})
  {
    hide AllJustified, MetadataApart, Metadata, ManifestPath, Listed;
    var f := acc.Add(ListingFailed);
    PlainJustified(env, acc, ListingFailed);
    assert forall x | x in f.finds :: x in acc.finds || x == ListingFailed;
    ListedGrows(env, acc, f);
  }

  // --- the local tree decides only what to download -----------------------------------------------

  ghost predicate Alike(f: Found, g: Found) {
    forall x: Find | !x.Download? :: f.finds[x] == g.finds[x]
  }

  lemma {:induction false} EntriesAlike(env: Env, env2: Env, rel: Path, depth: nat, f: Found, g: Found, es: seq<Entry>)
    requires env2 == env.(fs := env2.fs) && Alike(f, g)
    ensures Alike(AddEntries(env, rel, depth, f, [], es).0, AddEntries(env2, rel, depth, g, [], es).0)
    ensures AddEntries(env, rel, depth, f, [], es).1 == AddEntries(env2, rel, depth, g, [], es).1
    decreases |es|
  {
    hide Excluded, SafeRel, LocalMatches;
    if es != [] {
      var init, e := es[..|es| - 1], es[|es| - 1];
      EntriesAlike(env, env2, rel, depth, f, g, init);
      var (f1, subs) := AddEntries(env, rel, depth, f, [], init);
      var (g1, _) := AddEntries(env2, rel, depth, g, [], init);
      EntryAlike(env, env2, rel, depth, f1, g1, subs, e);
    }
  }

  lemma EntryAlike(env: Env, env2: Env, rel: Path, depth: nat, f: Found, g: Found, subs: seq<Path>, e: Entry)
    requires env2 == env.(fs := env2.fs) && Alike(f, g)
    ensures Alike(AddEntry(env, rel, depth, f, subs, e).0, AddEntry(env2, rel, depth, g, subs, e).0)
    ensures AddEntry(env, rel, depth, f, subs, e).1 == AddEntry(env2, rel, depth, g, subs, e).1
  {
    hide Excluded, SafeRel, Additions;
    assert Skipped(env, rel, e) == Skipped(env2, rel, e);
    assert f.finds[Name(rel + e.path)] == g.finds[Name(rel + e.path)];
    AdditionsAlike(env, env2, depth, rel + e.path, e);
  }

  lemma AdditionsAlike(env: Env, env2: Env, depth: nat, key: Path, e: Entry)
    ensures forall x: Find | !x.Download? :: Additions(env, depth, key, e)[x] == Additions(env2, depth, key, e)[x]
  {
    hide LocalMatches;
  }

  lemma {:induction false} CrawlAlike(env: Env, env2: Env, rel: Path, depth: nat)
    requires env2 == env.(fs := env2.fs)
    ensures Alike(Crawl(env, rel, depth), Crawl(env2, rel, depth))
    decreases depth, 0, 0
  {
    hide AddEntries, AddManifest;
    var r := Fetch(env, rel);
    assert r == Fetch(env2, rel);
    if r.Listing? {
      var start := AddManifest(rel, Nothing, r.manifest);
      EntriesAlike(env, env2, rel, depth, start, start, r.entries);
      if depth > 0 {
        DirsAlike(env, env2, AddEntries(env, rel, depth, start, [], r.entries).1, depth - 1);
      }
    }
  }

  lemma {:induction false} DirsAlike(env: Env, env2: Env, rels: seq<Path>, depth: nat)
    requires env2 == env.(fs := env2.fs)
    ensures Alike(CrawlDirs(env, rels, depth), CrawlDirs(env2, rels, depth))
    decreases depth, 1, |rels|
  {
    if rels != [] {
      CrawlAlike(env, env2, rels[0], depth);
      DirsAlike(env, env2, rels[1..], depth);
    }
  }
}
