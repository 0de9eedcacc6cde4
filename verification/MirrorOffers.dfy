/** What upstream offers, and that a crawl takes all of it: the server, the exclusions and the local
    tree decide, whatever else has been found. */
module MirrorOffers {
  import opened Prelude
  import opened MirrorPlan
  import opened MirrorTree
  import opened MirrorFacts

  /** A manifest that names its files: each one directly in the metadata directory, none the manifest
      itself, and one of them the primary metadata. */
  ghost predicate NamesFiles(b: Body) {
    && b.Xml? && b.root == "repomd"
    && (forall d | d in b.items ::
          d.href.Some? && |d.href.value| == 2 && d.href.value[0] == "repodata"
          && d.href.value[1] !in {"", ".", "..", "repomd.xml"})
    && exists d | d in b.items :: d.kind == Some("primary")
  }

  /** What a directory is answered with. Of one called `repodata` it is the manifest, and the files it
      names are its entries, whatever the directory itself lists; a manifest that does not name its
      files is invalid. */
  lemma ReplyIs(env: Env, rel: Path)
    ensures var (dir, r) := (env.base + rel, Fetch(env, rel));
            if dir == [] || dir[|dir| - 1] != "repodata" then
              r == if env.index(rel).None? then Unreachable else Listing(env.index(rel).value, None)
            else if env.repomd(rel).None? then r == Unreachable
            else
              var b := env.repomd(rel).value;
              && (r.Invalid? <==> !NamesFiles(b))
              && (r.Invalid? || (r.Listing? && r.manifest == Some(b)))
              && (r.Listing? ==>
                    && |r.entries| == |b.items|
                    && forall i | 0 <= i < |b.items| :: b.items[i].href.Some? && |b.items[i].href.value| == 2
                         && r.entries[i] == Entry([b.items[i].href.value[1]], File, b.items[i].size, None, None))
  {
    var dir := env.base + rel;
    if dir != [] && dir[|dir| - 1] == "repodata" && env.repomd(rel).Some? {
      var b := env.repomd(rel).value;
      if b.Xml? {
        forall d | d in b.items && d.href.Some? && |d.href.value| == 2 ensures d.href.value[1..] == [d.href.value[1]] {}
      }
      GoodNames(b);
      hide GoodManifest, NamesFiles;
      if GoodManifest(b) { GoodItems(b); }
    }
  }

  lemma GoodNames(b: Body)
    ensures GoodManifest(b) <==> NamesFiles(b)
  {
    if b.Xml? {
      forall d | d in b.items
        ensures GoodItem(d) <==> d.href.Some? && |d.href.value| == 2 && d.href.value[0] == "repodata"
                                 && d.href.value[1] !in {"", ".", "..", "repomd.xml"}
      {
        if d.href.Some? && |d.href.value| == 2 { assert d.href.value[1..] == [d.href.value[1]]; }
      }
    }
  }

  lemma GoodItems(b: Body)
    requires GoodManifest(b)
    ensures b.Xml? && forall i | 0 <= i < |b.items| ::
              GoodItem(b.items[i]) && b.items[i].href.value[1..] == [b.items[i].href.value[1]]
  {
  }

  /** An entry that stays inside the mirror and that no exclusion hits. */
  ghost predicate Wanted(env: Env, rel: Path, e: Entry) {
    && e.path != [] && e.path[0] != "" && e.path != ["."] && ".." !in e.path
    && Unhit(env.hit, rel + e.path)
  }

  /** The listing of `rel` offers this entry. */
  ghost predicate Offers(env: Env, rel: Path, e: Entry) {
    Fetch(env, rel).Listing? && e in Fetch(env, rel).entries && Wanted(env, rel, e)
  }

  /** What is at the path is left alone if it is no file, and is the file offered if its size is that
      one, or, for want of a size, its time. */
  predicate UpToDate(t: Tree, p: Path, e: Entry) {
    && p in t
    && (t[p].FileNode? ==> if e.size.Some? then t[p].data.bytes == e.size.value else e.modified == Some(t[p].mtime))
  }

  /** What a name not yet known adds to the plan. */
  ghost function News(env: Env, depth: nat, p: Path, e: Entry): multiset<Find> {
    multiset{Seen, Name(p)}
    + if e.kind.Dir? then if depth == 0 then multiset{Truncated} else multiset{}
      else if e.kind.Symlink? then
        multiset{MakeLink(p, if e.target.Some? && e.target.value != [] && e.target.value[0] != ""
                                && e.target.value != ["."] && ".." !in e.target.value then e.target.value else e.path)}
      else
        multiset{FileAt(p, e.size)} + (if e.size.None? then multiset{UnknownSize} else multiset{})
        + if UpToDate(env.fs, p, e) then multiset{} else multiset{Download(p)}
  }

  /** One entry: passed over if it is not wanted, only counted if its name is known, and otherwise
      news; a directory is to be listed if there is depth left. */
  lemma EntryTaken(env: Env, rel: Path, depth: nat, f: Found, subs: seq<Path>, e: Entry)
    ensures var (g, subs2) := AddEntry(env, rel, depth, f, subs, e);
            var p := rel + e.path;
            if !Wanted(env, rel, e) then g == f && subs2 == subs
            else if Name(p) in f.finds then g == Found(f.finds + multiset{Seen}, f.sizeSum) && subs2 == subs
            else && g.finds == f.finds + News(env, depth, p, e)
                 && subs2 == (if e.kind.Dir? && depth > 0 then subs + [p] else subs)
                 && g.sizeSum == f.sizeSum + (if e.kind.File? && e.size.Some? then e.size.value else 0)
  {
    UnhitIff(env.hit, rel + e.path);
    NewsAdded(env, depth, f, subs, rel + e.path, e);
    hide Excluded, Unhit, News, AddNew;
  }

  lemma NewsAdded(env: Env, depth: nat, f: Found, subs: seq<Path>, p: Path, e: Entry)
    ensures var (g, subs2) := AddNew(env, depth, f.Add(Seen), subs, p, e);
            && g.finds == f.finds + News(env, depth, p, e)
            && subs2 == (if e.kind.Dir? && depth > 0 then subs + [p] else subs)
            && g.sizeSum == f.sizeSum + if e.kind.File? && e.size.Some? then e.size.value else 0
  {
    assert LocalMatches(env.fs, p, e) <==> UpToDate(env.fs, p, e);
    hide LocalMatches, UpToDate;
  }

  /** A name that is known for what an entry says of it. */
  ghost predicate Acted(env: Env, f: Found, dirs: set<Path>, p: Path, e: Entry) {
    if e.kind.Dir? then p in dirs || Truncated in f.finds
    else if e.kind.Symlink? then exists target :: MakeLink(p, target) in f.finds
    else FileAt(p, e.size) in f.finds && (UpToDate(env.fs, p, e) || Download(p) in f.finds)
  }

  /** A path that is known, by what some listing says of it or as a manifest. */
  ghost predicate Taken(env: Env, f: Found, listed: set<Path>, dirs: set<Path>, p: Path) {
    && Name(p) in f.finds
    && ((exists rel, e :: rel in listed && Offers(env, rel, e) && rel + e.path == p && Acted(env, f, dirs, p, e))
        || exists b :: Publish(p, b) in f.finds)
  }

  /** All that the directories listed so far offer is taken; `dirs` are listed or waiting. */
  ghost predicate Thorough(env: Env, f: Found, listed: set<Path>, dirs: set<Path>) {
    forall p | Name(p) in f.finds :: Taken(env, f, listed, dirs, p)
  }

  ghost predicate AllOffered(env: Env, f: Found, listed: set<Path>) {
    forall rel, e | rel in listed && Offers(env, rel, e) :: Name(rel + e.path) in f.finds
  }

  lemma ActedGrows(env: Env, f: Found, g: Found, dirs: set<Path>, dirs2: set<Path>, p: Path, e: Entry)
    requires Acted(env, f, dirs, p, e) && f.finds <= g.finds && dirs <= dirs2
    ensures Acted(env, g, dirs2, p, e)
  {
    assert forall x | x in f.finds :: x in g.finds;
  }

  lemma TakenGrows(env: Env, f: Found, g: Found, listed: set<Path>, listed2: set<Path>, dirs: set<Path>,
                   dirs2: set<Path>, p: Path)
    requires Taken(env, f, listed, dirs, p) && f.finds <= g.finds && listed <= listed2 && dirs <= dirs2
    ensures Taken(env, g, listed2, dirs2, p)
  {
    hide Acted, Offers;
    assert forall x | x in f.finds :: x in g.finds;
    if rel, e :| rel in listed && Offers(env, rel, e) && rel + e.path == p && Acted(env, f, dirs, p, e) {
      ActedGrows(env, f, g, dirs, dirs2, p, e);
    }
  }

  /** What an entry that is news is taken for. */
  lemma NewsActed(env: Env, depth: nat, f: Found, dirs: set<Path>, p: Path, e: Entry)
    requires News(env, depth, p, e) <= f.finds && (e.kind.Dir? && depth > 0 ==> p in dirs)
    ensures Name(p) in f.finds && Acted(env, f, dirs, p, e)
  {
    hide UpToDate;
    assert forall x | x in News(env, depth, p, e) :: x in f.finds;
    if e.kind.Symlink? {
      assert exists target :: MakeLink(p, target) in News(env, depth, p, e);
    }
  }

  /** One listing: all it offers is known afterwards, and what is known only now is taken for what
      one of its entries says. */
  lemma {:induction false} EntriesTaken(env: Env, rel: Path, depth: nat, start: Found, es: seq<Entry>)
    ensures var (f, subs) := AddEntries(env, rel, depth, start, [], es);
            && start.finds <= f.finds
            && (forall e | e in es && Wanted(env, rel, e) :: Name(rel + e.path) in f.finds)
            && (forall p | Name(p) in f.finds && Name(p) !in start.finds :: ByEntry(env, rel, f, Dirs(subs), es, p))
            && (forall p, b | Publish(p, b) in start.finds :: Publish(p, b) in f.finds)
            && (ListingFailed in f.finds <==> ListingFailed in start.finds)
    decreases |es|
  {
    hide AddEntry, Wanted, News, Acted;
    if es != [] {
      var init, e := es[..|es| - 1], es[|es| - 1];
      EntriesTaken(env, rel, depth, start, init);
      var (f1, subs1) := AddEntries(env, rel, depth, start, [], init);
      var (f, subs) := AddEntry(env, rel, depth, f1, subs1, e);
      EntryTaken(env, rel, depth, f1, subs1, e);
      assert es == init + [e];
      assert f1.finds <= f.finds;
      forall x | x in f1.finds ensures x in f.finds {}
      NewsName(env, depth, rel + e.path, e, rel + e.path);
      forall x | x in es && Wanted(env, rel, x) ensures Name(rel + x.path) in f.finds {
        if x in init { assert Name(rel + x.path) in f1.finds; }
      }
      forall p | Name(p) in f.finds && Name(p) !in start.finds ensures ByEntry(env, rel, f, Dirs(subs), es, p) {
        if Name(p) in f1.finds {
          var e1 :| e1 in init && Wanted(env, rel, e1) && rel + e1.path == p && Acted(env, f1, Dirs(subs1), p, e1);
          ActedGrows(env, f1, f, Dirs(subs1), Dirs(subs), p, e1);
        } else {
          NewsName(env, depth, rel + e.path, e, p);
          NewsActed(env, depth, f, Dirs(subs), p, e);
        }
      }
    }
  }

  ghost function Dirs(subs: seq<Path>): set<Path> { set d | d in subs }

  ghost predicate ByEntry(env: Env, rel: Path, f: Found, dirs: set<Path>, es: seq<Entry>, p: Path) {
    exists e :: e in es && Wanted(env, rel, e) && rel + e.path == p && Acted(env, f, dirs, p, e)
  }

  lemma NewsName(env: Env, depth: nat, p: Path, e: Entry, q: Path)
    ensures Name(q) in News(env, depth, p, e) <==> q == p
    ensures ListingFailed !in News(env, depth, p, e)
  {
    hide UpToDate;
    match e.kind
    case Dir =>
    case Symlink =>
    case _ =>
  }
}
