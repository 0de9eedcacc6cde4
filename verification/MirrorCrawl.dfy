/** The concurrent crawl (`plan_inner`): a worklist of directories, several listed at once and
    finishing in any order. */
module MirrorCrawl {
  import opened Prelude
  import opened MirrorPlan
  import opened MirrorTree
  import opened MirrorFacts
  import opened MirrorOffers

  // --- the crawl itself ----------------------------------------------------------------------------

  /** At the cap the crawl has found part of the whole. */
  ghost predicate CutShort(r: CrawlResult, whole: Found)
    requires r.Crawled?
  {
    r.capped && whole.finds[Seen] >= MAX_ENTRIES && r.found.finds <= whole.finds + multiset{Truncated}
  }

  datatype CrawlResult = RootFailed | ManifestInvalid | Crawled(found: Found, capped: bool)

  /** How many listings may be in flight. */
  function Limit(threads: nat): nat { if threads < 1 then 1 else Least(threads, 64) }

  function Most(a: nat, b: nat): nat { if a < b then b else a }

  function Least(a: nat, b: nat): nat { if a < b then a else b }

  /** The loop over one listing's entries, cut short at the entry cap. */
  method Absorb(env: Env, rel: Path, depth: nat, start: Found, es: seq<Entry>)
    returns (f: Found, subs: seq<Path>, capped: bool, ghost upto: nat)
    requires start.finds[Seen] <= MAX_ENTRIES && Once(start)
    ensures Once(f)
    ensures Fresh(start, f, subs) && (depth == 0 ==> subs == []) && f.finds[Seen] <= MAX_ENTRIES
    ensures upto <= |es| && (f, subs) == AddEntries(env, rel, depth, start, [], es[..upto])
    ensures !capped ==> (f, subs) == AddEntries(env, rel, depth, start, [], es)
    ensures capped ==> f.finds[Seen] >= MAX_ENTRIES && f.finds <= AddEntries(env, rel, depth, start, [], es).0.finds
  {
    hide Once;
    f, subs, capped, upto := start, [], false, |es|;
    for i := 0 to |es|
      invariant (f, subs) == AddEntries(env, rel, depth, start, [], es[..i])
      invariant f.finds[Seen] <= MAX_ENTRIES && !capped
    {
      assert es[..i + 1][..i] == es[..i];
      if f.finds[Seen] >= MAX_ENTRIES {
        FindsGrow(env, rel, depth, start, es, i);
        EntriesShape(env, rel, depth, start, es[..i]);
        EntriesOnce(env, rel, depth, start, es[..i]);
        capped, upto := true, i;
        return;
      }
      EntryCases(env, rel, depth, f, subs, es[i]);
      var next := AddEntry(env, rel, depth, f, subs, es[i]);
      f, subs := next.0, next.1;
    }
    assert es[..|es|] == es;
    EntriesShape(env, rel, depth, start, es);
    EntriesOnce(env, rel, depth, start, es);
  }

  /** What holds between two rounds of the crawl. */
  ghost predicate Consistent(env: Env, top: nat, acc: Found, listed: seq<Work>, queue: seq<Work>) {
    && acc.finds[Seen] <= MAX_ENTRIES && acc.finds[BadManifest] == 0
    && |listed| + |queue| <= 1 + acc.finds[Seen]
    && KnownDirs(acc, listed + queue, top)
    && (if listed == [] then queue == [Work([], top)]
        else !Fetch(env, []).Unreachable? && forall w | w in queue :: w.rel != [])
  }

  /** Directories queued or listed are distinct, and all but the root are in the remote set. */
  ghost predicate KnownDirs(f: Found, ws: seq<Work>, top: nat) {
    && (forall i, j | 0 <= i < j < |ws| :: ws[i].rel != ws[j].rel)
    && (forall w | w in ws :: w.depth <= top && (w.rel == [] || Name(w.rel) in f.finds))
  }

  /** What is known and what is outstanding make up the whole. */
  ghost predicate Adds(env: Env, whole: Found, acc: Found, queue: seq<Work>) {
    Join(acc, Outstanding(env, queue)) == whole
  }

  /** The queue's directories lie apart from each other and from every name known. */
  ghost predicate Spread(top: nat, acc: Found, listed: seq<Work>, queue: seq<Work>) {
    && Apart(queue)
    && (forall w | w in queue :: Untouched(w.rel, acc))
    && (forall w | w in listed + queue :: |w.rel| + w.depth == top)
  }

  ghost predicate State(env: Env, top: nat, whole: Found, acc: Found, listed: seq<Work>, queue: seq<Work>) {
    && Consistent(env, top, acc, listed, queue)
    && (SingleNames(env) ==> Adds(env, whole, acc, queue) && Spread(top, acc, listed, queue))
  }

  /** What can be said of the directories listed, on any server. */
  ghost predicate Bounded(env: Env, top: nat, listed: seq<Work>) {
    && |listed| <= 1 + MAX_ENTRIES
    && (forall i, j | 0 <= i < j < |listed| :: listed[i].rel != listed[j].rel)
    && (forall w | w in listed :: w.depth <= top)
    && (SingleNames(env) ==> forall w | w in listed :: |w.rel| + w.depth == top)
  }

  lemma Begins(env: Env, top: nat)
    ensures State(env, top, Crawl(env, [], top), Nothing, [], [Work([], top)])
  {
    BeginsAdds(env, Work([], top));
    BeginsKnown(env, top);
  }

  lemma BeginsAdds(env: Env, w: Work)
    ensures Adds(env, Crawl(env, w.rel, w.depth), Nothing, [w])
  {
    var fs := Each(env, [w]);
    assert fs[1..] == [];
    assert Sum(fs) == Join(fs[0], Nothing);
  }

  lemma BeginsKnown(env: Env, top: nat)
    ensures Consistent(env, top, Nothing, [], [Work([], top)]) && Spread(top, Nothing, [], [Work([], top)])
  {
    assert [] + [Work([], top)] == [Work([], top)];
  }

  /** Taking finished listing `k` out of the queue: it is new, and the rest is still sound. */
  lemma TakeOut(env: Env, top: nat, acc: Found, listed: seq<Work>, queue: seq<Work>, k: nat, rest: seq<Work>)
    requires k < |queue| && rest == queue[..k] + queue[k + 1..]
    requires Consistent(env, top, acc, listed, queue)
    ensures |listed + [queue[k]]| + |rest| <= 1 + acc.finds[Seen]
    ensures KnownDirs(acc, (listed + [queue[k]]) + rest, top)
    ensures forall w | w in rest :: w.rel != []
    ensures queue[k].rel == [] <==> listed == []
  {
    var before, after := listed + queue, (listed + [queue[k]]) + rest;
    var n := |listed|;
    forall i | 0 <= i < |after|
      ensures after[i] == before[if i < n then i else if i == n then n + k else if i <= n + k then i - 1 else i]
    {
    }
    assert forall w | w in after :: w in before;
    assert before[n + k] == queue[k];
    if listed != [] { assert queue[k] in queue; }
  }

  lemma TakeOutSpread(top: nat, acc: Found, listed: seq<Work>, queue: seq<Work>, k: nat, rest: seq<Work>)
    requires k < |queue| && rest == queue[..k] + queue[k + 1..]
    requires Spread(top, acc, listed, queue)
    ensures Untouched(queue[k].rel, acc) && Spread(top, acc, listed + [queue[k]], rest)
    ensures forall w | w in rest :: Clear(queue[k].rel, w.rel)
  {
    forall i | 0 <= i < |rest| ensures rest[i] == queue[if i < k then i else i + 1] {}
    assert forall w | w in rest :: w in queue;
    assert forall w | w in (listed + [queue[k]]) + rest :: w in listed + queue;
  }

  /** A listing that could not be fetched. */
  lemma AfterFailure(env: Env, whole: Found, acc: Found, queue: seq<Work>, k: nat)
    requires k < |queue| && Fetch(env, queue[k].rel).Unreachable? && Adds(env, whole, acc, queue)
    ensures Adds(env, whole, acc.Add(ListingFailed), queue[..k] + queue[k + 1..])
  {
    OutstandingTake(env, queue, k);
    JoinAssoc(acc, Nothing.Add(ListingFailed), Outstanding(env, queue[..k] + queue[k + 1..]));
  }

  /** A listing that was read: the queue gains its directories. */
  lemma AfterListing(env: Env, top: nat, acc: Found, listed: seq<Work>, w: Work, rest: seq<Work>, f: Found,
                     subs: seq<Path>)
    requires |listed + [w]| + |rest| <= 1 + acc.finds[Seen]
    requires KnownDirs(acc, (listed + [w]) + rest, top) && (forall x | x in rest :: x.rel != [])
    requires Fresh(acc, f, subs) && f.finds[Seen] <= MAX_ENTRIES && acc.finds[BadManifest] == 0
    requires !Fetch(env, []).Unreachable? && (w.depth == 0 ==> subs == [])
    ensures Consistent(env, top, f, listed + [w], rest + WorksOf(subs, Below(w.depth)))
  {
    var before, subsW := (listed + [w]) + rest, WorksOf(subs, Below(w.depth));
    var after := (listed + [w]) + (rest + subsW);
    assert after == before + subsW;
    assert w == before[|listed|] && w in before;
    forall i, j | 0 <= i < j < |after| ensures after[i].rel != after[j].rel {
      if j >= |before| && i < |before| { assert before[i] in before && after[j].rel == subs[j - |before|]; }
    }
  }

  lemma AfterListingAdds(env: Env, whole: Found, acc: Found, queue: seq<Work>, k: nat, f: Found, subs: seq<Path>)
    requires k < |queue| && SingleNames(env) && Fetch(env, queue[k].rel).Listing? && Untouched(queue[k].rel, acc)
    requires Adds(env, whole, acc, queue)
    requires var r, w := Fetch(env, queue[k].rel), queue[k];
             (f, subs) == AddEntries(env, w.rel, w.depth, AddManifest(w.rel, acc, r.manifest), [], r.entries)
    ensures Adds(env, whole, f, queue[..k] + queue[k + 1..] + WorksOf(subs, Below(queue[k].depth)))
    ensures f.finds <= whole.finds
  {
    var w, rest := queue[k], queue[..k] + queue[k + 1..];
    var subsW := WorksOf(subs, Below(w.depth));
    var c, o, q := Crawl(env, w.rel, w.depth), Outstanding(env, rest), Outstanding(env, subsW);
    OutstandingTake(env, queue, k);
    OutstandingAppend(env, rest, subsW);
    ListingAddsUp(env, w, acc);
    Regroup(acc, c, o, f, q);
  }

  lemma Regroup(acc: Found, c: Found, o: Found, f: Found, q: Found)
    requires Join(acc, c) == Join(f, q)
    ensures Join(acc, Join(c, o)) == Join(f, Join(o, q))
    ensures f.finds <= Join(f, Join(o, q)).finds
  {
    JoinAssoc(acc, c, o);
    JoinAssoc(f, q, o);
    assert q.finds + o.finds == o.finds + q.finds;
  }

  lemma AfterListingSpread(env: Env, top: nat, acc: Found, listed: seq<Work>, w: Work, rest: seq<Work>, f: Found,
                           subs: seq<Path>)
    requires SingleNames(env) && Fetch(env, w.rel).Listing?
    requires var r := Fetch(env, w.rel);
             (f, subs) == AddEntries(env, w.rel, w.depth, AddManifest(w.rel, acc, r.manifest), [], r.entries)
    requires Untouched(w.rel, acc) && Spread(top, acc, listed + [w], rest)
             && forall x | x in rest :: Clear(w.rel, x.rel)
    ensures Spread(top, f, listed + [w], rest + WorksOf(subs, Below(w.depth)))
  {
    var r := Fetch(env, w.rel);
    var start := AddManifest(w.rel, acc, r.manifest);
    FetchedSingle(env, w.rel);
    EntriesBelow(env, w.rel, w.depth, start, r.entries);
    EntriesShape(env, w.rel, w.depth, start, r.entries);
    ManifestBelow(w.rel, acc, r.manifest);
    SpreadOut(top, acc, listed, w, rest, f, subs);
  }

  lemma SpreadOut(top: nat, acc: Found, listed: seq<Work>, w: Work, rest: seq<Work>, f: Found, subs: seq<Path>)
    requires DirectlyIn(w.rel, acc, f, subs) && forall i, j | 0 <= i < j < |subs| :: subs[i] != subs[j]
    requires w.depth == 0 ==> subs == []
    requires Untouched(w.rel, acc) && Spread(top, acc, listed + [w], rest)
             && forall x | x in rest :: Clear(w.rel, x.rel)
    ensures Spread(top, f, listed + [w], rest + WorksOf(subs, Below(w.depth)))
  {
    var subsW := WorksOf(subs, Below(w.depth));
    StillApart(w.rel, acc, f, rest, subs, Below(w.depth));
    forall x | x in (listed + [w]) + (rest + subsW) ensures |x.rel| + x.depth == top {
      assert (listed + [w])[|listed|] == w;
      assert w in (listed + [w]) + rest;
      if x !in subsW { assert x in (listed + [w]) + rest; }
    }
  }

  lemma ManifestBelow(rel: Path, acc: Found, manifest: Option<Body>)
    ensures forall p | Name(p) in AddManifest(rel, acc, manifest).finds && Name(p) !in acc.finds :: ChildOf(rel, p)
    ensures AddManifest(rel, acc, manifest).finds[Seen] == acc.finds[Seen]
    ensures AddManifest(rel, acc, manifest).finds[BadManifest] == acc.finds[BadManifest]
    ensures forall p | Name(p) in acc.finds :: Name(p) in AddManifest(rel, acc, manifest).finds
  {
    assert (rel + ["repomd.xml"])[..|rel|] == rel;
  }

  /** `plan_inner` up to the delete decision: at most `threads` (clamped to 1..64) listings in
      flight, finishing in any order. Whatever that order, a crawl of single names below the
      cap finds what the recursive crawl finds; whatever the server answers, no directory is
      listed twice, at most 1 + MAX_ENTRIES are listed, each found by one listed before it with one
      more level of budget left (`HopsBound`), and no file is scheduled twice. */
  method CrawlIndex(env: Env, depth: nat, threads: nat)
    returns (res: CrawlResult, ghost listed: seq<Work>, ghost peak: nat)
    ensures peak <= 64 && peak <= (if threads == 0 then 1 else threads) && |listed| <= 1 + 1_000_000
    ensures listed != [] && listed[0] == Work([], if depth < 16 then depth else 16)
    ensures res.RootFailed? <==> Fetch(env, []).Unreachable?
    ensures SingleNames(env) && Crawl(env, [], Least(depth, MAX_DEPTH)).finds[Seen] < MAX_ENTRIES
            && !res.RootFailed? ==>
              var whole := Crawl(env, [], Least(depth, MAX_DEPTH));
              res == if BadManifest in whole.finds then ManifestInvalid else Crawled(whole, false)
    ensures SingleNames(env) && res.Crawled? ==>
              var whole := Crawl(env, [], Least(depth, MAX_DEPTH)); res == Crawled(whole, false) || CutShort(res, whole)
    ensures res.Crawled? && res.capped ==> Truncated in res.found.finds
    ensures Bounded(env, Least(depth, MAX_DEPTH), listed) && Stepwise(env, Least(depth, MAX_DEPTH), listed)
    ensures res.Crawled? ==> Once(res.found) && Grounded(env, res.found)
    ensures res.Crawled? && !res.capped ==> [] in Rels(listed) && Exhausts(env, res.found, Rels(listed), Rels(listed))
    ensures res.ManifestInvalid? <==> Meets(env, listed, Invalid)
    ensures res.Crawled? ==> (ListingFailed in res.found.finds <==> Meets(env, listed, Unreachable))
  {
    hide Once, Grounded, Exhausts, Meets, Stepwise, Bounded;
    var top := Least(depth, MAX_DEPTH);
    Begins(env, top);
    res, listed, peak := CrawlFrom(env, top, threads, Crawl(env, [], top));
    RootListed(env, top, listed);
  }

  method CrawlFrom(env: Env, top: nat, threads: nat, ghost whole: Found)
    returns (res: CrawlResult, ghost listed: seq<Work>, ghost peak: nat)
    requires State(env, top, whole, Nothing, [], [Work([], top)])
    ensures peak <= Limit(threads) && listed != []
    ensures res.RootFailed? <==> Fetch(env, []).Unreachable?
    ensures SingleNames(env) && whole.finds[Seen] < MAX_ENTRIES && !res.RootFailed? ==>
              res == if BadManifest in whole.finds then ManifestInvalid else Crawled(whole, false)
    ensures SingleNames(env) && res.Crawled? ==> res == Crawled(whole, false) || CutShort(res, whole)
    ensures res.Crawled? && res.capped ==> Truncated in res.found.finds
    ensures Bounded(env, top, listed) && Stepwise(env, top, listed)
    ensures res.Crawled? ==> Once(res.found) && Grounded(env, res.found)
    ensures res.Crawled? && !res.capped ==> [] in Rels(listed) && Exhausts(env, res.found, Rels(listed), Rels(listed))
    ensures res.ManifestInvalid? <==> Meets(env, listed, Invalid)
    ensures res.Crawled? ==> (ListingFailed in res.found.finds <==> Meets(env, listed, Unreachable))
  {
    hide Sane, Grounded, Reads, Metadata, IsRepodata, Rels, State, Bounded, Fetch, SingleNames, Once,
        Stepwise, Sourced, Earlier, FoundBy, Exhausts, Exhaustive, Meets, Failures, Read, Crawl;
    FirstRound(env, top);
    var acc := Nothing;
    var pending: seq<Work>, listings: seq<Work> := [Work([], top)], [];
    var limit := Limit(threads);
    listed, peak := [], 0;
    assert listings + pending == [Work([], top)];
    while listings + pending != []
      invariant |listings| <= limit && peak <= limit
      invariant State(env, top, whole, acc, listed, listings + pending)
      invariant |listed| <= 1 + MAX_ENTRIES && Once(acc) && Sane(env, acc, Rels(listed))
      invariant Stepwise(env, top, listed) && Sourced(env, top, listed, listings + pending)
      invariant Exhaustive(env, acc, listed, listings + pending)
      invariant Failures(env, acc, listed)
      decreases 1 + MAX_ENTRIES - |listed|
    {
      ghost var queue := listings + pending;
      var w;
      ghost var k, width;
      w, listings, pending, k, width := TakeOne(listings, pending, limit);
      peak := Most(peak, width);
      QueuedInside(env, top, whole, acc, listed, queue, k);
      var round := ListOne(env, top, whole, acc, listed, w, queue, k);
      StepwiseStep(env, top, listed, queue, k);
      ListingKnown(env, top, listed, queue, k);
      NowMeets(env, acc, listed, w, round);
      if round.Stop? {
        if round.result.Crawled? { StopGrounded(env, acc, listed, w, round); }
        return round.result, listed + [w], peak;
      }
      SourcedStep(env, top, listed, queue, k, round.more);
      NextRound(env, top, whole, acc, listed, queue, k, round);
      listed := listed + [w];
      Queued(listings, pending, round.more);
      acc, pending := round.found, pending + round.more;
    }
    SomeListed(env, top, listed, listings + pending);
    EndExhaustive(env, acc, listed);
    NoFailures(env, acc, listed);
    AtEnd(env, top, whole, acc, listed);
    EndGrounded(env, acc, listed);
    return Crawled(acc, false), listed, peak;
  }

  lemma FirstRound(env: Env, top: nat)
    ensures Failures(env, Nothing, []) && Once(Nothing) && Sane(env, Nothing, Rels([]))
    ensures Exhaustive(env, Nothing, [], [Work([], top)])
    ensures Stepwise(env, top, []) && Sourced(env, top, [], [Work([], top)])
  {
    BeginsExhaustive(env, top);
    SourcedStart(env, top);
    hide Exhaustive;
  }

  /** One of these directories answers so. */
  ghost predicate Meets(env: Env, listed: seq<Work>, r: Reply) { exists w | w in listed :: Fetch(env, w.rel) == r }

  /** No manifest met so far is invalid, and what could not be listed has been noted. */
  ghost predicate Failures(env: Env, f: Found, listed: seq<Work>) {
    !Meets(env, listed, Invalid) && (ListingFailed in f.finds <==> Meets(env, listed, Unreachable))
  }

  lemma NoFailures(env: Env, f: Found, listed: seq<Work>)
    requires Failures(env, f, listed)
    ensures !Meets(env, listed, Invalid) && (ListingFailed in f.finds <==> Meets(env, listed, Unreachable))
  {
  }

  lemma NowMeets(env: Env, acc: Found, listed: seq<Work>, w: Work, round: Round)
    requires Reads(env, acc, w, round) && (Fetch(env, w.rel).Unreachable? && round.Stop? ==> !round.result.Crawled?)
    requires Failures(env, acc, listed)
             && (round.Stop? ==> (round.result.ManifestInvalid? <==> Fetch(env, w.rel).Invalid?))
    ensures Meets(env, listed + [w], Invalid) <==> round.Stop? && round.result.ManifestInvalid?
    ensures round.Continue? ==> Failures(env, round.found, listed + [w])
    ensures round.Stop? && round.result.Crawled? ==>
              (ListingFailed in round.result.found.finds <==> Meets(env, listed + [w], Unreachable))
  {
    hide Fetch, AddEntries;
    forall x ensures x in listed + [w] <==> x in listed || x == w {}
    if Fetch(env, w.rel).Listing? {
      var es := Fetch(env, w.rel).entries;
      EntriesTaken(env, w.rel, w.depth, AddManifest(w.rel, acc, Fetch(env, w.rel).manifest), es);
      if round.Stop? && round.result.Crawled? {
        var i :| 0 <= i <= |es| && round.result.found == Read(env, w, acc, es[..i]).Add(Truncated);
        EntriesTaken(env, w.rel, w.depth, AddManifest(w.rel, acc, Fetch(env, w.rel).manifest), es[..i]);
      }
    }
  }

  /** What one round that goes on keeps. */
  lemma NextRound(env: Env, top: nat, whole: Found, acc: Found, listed: seq<Work>, queue: seq<Work>, k: nat,
                  round: Round)
    requires k < |queue| && round.Continue? && Reads(env, acc, queue[k], round) && ".." !in queue[k].rel
    requires IsRepodata(env, queue[k].rel) ==> Metadata(env, queue[k].rel)
    requires State(env, top, whole, round.found, listed + [queue[k]], queue[..k] + queue[k + 1..] + round.more)
    requires Sane(env, acc, Rels(listed)) && Exhaustive(env, acc, listed, queue)
    ensures Sane(env, round.found, Rels(listed + [queue[k]]))
    ensures Exhaustive(env, round.found, listed + [queue[k]], queue[..k] + queue[k + 1..] + round.more)
  {
    var dirs := Rels(listed) + Rels(queue);
    hide Sane, Exhausts, Reads, Metadata, IsRepodata, Rels, State;
    NewlyListed(env, top, whole, round.found, listed, queue[k], queue[..k] + queue[k + 1..] + round.more);
    RoundSane(env, acc, listed, queue[k], round);
    RoundExhausts(env, acc, Rels(listed), dirs, queue[k], round);
    RelsTakeOut(queue, k, round.more);
    RelsGrow(listed, queue[k]);
    assert dirs + Rels(round.more) ==
           Rels(listed + [queue[k]]) + Rels(queue[..k] + queue[k + 1..] + round.more);
  }

  /** Listings name the path as a directory and nothing else. */
  ghost predicate OnlyDir(env: Env, p: Path) {
    !ManifestPath(env, p) && forall rel, e | Offers(env, rel, e) && rel + e.path == p :: e.kind.Dir?
  }

  /** From the root down by directories that listings offer. */
  ghost predicate WayDown(env: Env, chain: seq<Path>) {
    && chain != [] && chain[0] == []
    && forall i :: 0 <= i < |chain| - 1 ==> LeadsOn(env, chain[i], chain[i + 1])
  }

  ghost predicate LeadsOn(env: Env, d: Path, p: Path) {
    OnlyDir(env, p) && exists e :: Offers(env, d, e) && d + e.path == p
  }

  /** A complete crawl lists every directory upstream leads to, and knows all that is offered there. */
  lemma {:induction false} EverythingTaken(env: Env, f: Found, listed: set<Path>, chain: seq<Path>)
    requires AllJustified(env, f) && !f.Incomplete() && [] in listed && Exhausts(env, f, listed, listed)
    requires WayDown(env, chain)
    ensures chain[|chain| - 1] in listed
    ensures forall e | Offers(env, chain[|chain| - 1], e) :: Name(chain[|chain| - 1] + e.path) in f.finds
    decreases |chain|
  {
    if |chain| > 1 {
      var init, d, p := chain[..|chain| - 1], chain[|chain| - 2], chain[|chain| - 1];
      forall i | 0 <= i < |init| - 1 ensures LeadsOn(env, init[i], init[i + 1]) {
        assert LeadsOn(env, chain[i], chain[i + 1]);
      }
      EverythingTaken(env, f, listed, init);
      assert LeadsOn(env, chain[|chain| - 2], chain[|chain| - 2 + 1]);
      DirTaken(env, f, listed, d, p);
    }
  }

  lemma PublishedThere(env: Env, f: Found, p: Path, b: Body)
    requires AllJustified(env, f) && Publish(p, b) in f.finds
    ensures ManifestPath(env, p)
  {
    assert Justified(env, f, Publish(p, b));
  }

  lemma DirTaken(env: Env, f: Found, listed: set<Path>, d: Path, p: Path)
    requires AllJustified(env, f) && !f.Incomplete() && Exhausts(env, f, listed, listed)
    requires d in listed && LeadsOn(env, d, p)
    ensures p in listed
  {
    hide Offers, ManifestPath;
    var e :| Offers(env, d, e) && d + e.path == p;
    assert Taken(env, f, listed, listed, p);
    if b :| Publish(p, b) in f.finds { PublishedThere(env, f, p, b); }
    var rel, e2 :| rel in listed && Offers(env, rel, e2) && rel + e2.path == p && Acted(env, f, listed, p, e2);
  }

  /** What is found has its ground, on any server; where listings keep out of metadata directories no
      manifest is an ordinary file, and a complete crawl covers every file a manifest names. */
  ghost predicate Grounded(env: Env, f: Found) {
    && AllJustified(env, f)
    && (MetadataApart(env) ==> Unlisted(env, f) && (!f.Incomplete() ==> Covered(env, f)))
  }

  lemma StopGrounded(env: Env, acc: Found, listed: seq<Work>, w: Work, round: Round)
    requires Sane(env, acc, Rels(listed)) && Reads(env, acc, w, round) && round.Stop? && round.result.Crawled?
    requires ".." !in w.rel
    requires Fetch(env, w.rel).Unreachable? ==> !round.result.Crawled?
    requires IsRepodata(env, w.rel) ==> Metadata(env, w.rel)
    ensures Grounded(env, round.result.found)
  {
    hide AllJustified, Unlisted, Covered, MetadataApart, Sane, Reads, Metadata, Fetch, IsRepodata;
    LastSane(env, acc, Rels(listed), w, round);
  }

  lemma EndGrounded(env: Env, acc: Found, listed: seq<Work>)
    requires Sane(env, acc, Rels(listed))
    ensures Grounded(env, acc)
  {
  }

  /** Directory `w` is an entry of the listing of `v`, one level of the budget further down. */
  ghost predicate FoundBy(env: Env, v: Work, w: Work) {
    v.depth == w.depth + 1 && exists e :: Lists(env, v.rel, e) && e.kind.Dir? && w.rel == v.rel + e.path
  }

  /** Directory `w` was found by one of those listed. */
  ghost predicate Earlier(env: Env, listed: seq<Work>, w: Work) {
    exists v | v in listed :: FoundBy(env, v, w)
  }

  /** The root is listed first, and every other directory was found by one listed before it. */
  ghost predicate Stepwise(env: Env, top: nat, listed: seq<Work>) {
    && (listed != [] ==> listed[0] == Work([], top))
    && (forall j | 0 < j < |listed| :: Earlier(env, listed[..j], listed[j]))
  }

  ghost predicate Sourced(env: Env, top: nat, listed: seq<Work>, queue: seq<Work>) {
    if listed == [] then queue == [Work([], top)] else forall w | w in queue :: Earlier(env, listed, w)
  }

  lemma SomeListed(env: Env, top: nat, listed: seq<Work>, queue: seq<Work>)
    requires Sourced(env, top, listed, queue) && queue == []
    ensures listed != []
  {
  }

  lemma RootListed(env: Env, top: nat, listed: seq<Work>)
    requires Stepwise(env, top, listed) && Bounded(env, top, listed) && listed != []
    ensures listed[0] == Work([], top) && |listed| <= 1 + 1_000_000
  {
  }

  lemma SourcedStart(env: Env, top: nat)
    ensures Stepwise(env, top, []) && Sourced(env, top, [], [Work([], top)])
  {
  }

  lemma EarlierStays(env: Env, listed: seq<Work>, w: Work, x: Work)
    requires Earlier(env, listed, x)
    ensures Earlier(env, listed + [w], x)
  {
    hide FoundBy;
    var v :| v in listed && FoundBy(env, v, x);
    assert v in listed + [w];
  }

  lemma EarlierNow(env: Env, listed: seq<Work>, w: Work, x: Work)
    requires FoundBy(env, w, x)
    ensures Earlier(env, listed + [w], x)
  {
    hide FoundBy;
    assert w in listed + [w];
  }

  lemma StepwiseStep(env: Env, top: nat, listed: seq<Work>, queue: seq<Work>, k: nat)
    requires Stepwise(env, top, listed) && Sourced(env, top, listed, queue) && k < |queue|
    ensures Stepwise(env, top, listed + [queue[k]])
  {
    hide Earlier;
    var n, next := |listed|, listed + [queue[k]];
    assert queue[k] in queue;
    forall j | 0 < j < |next| ensures Earlier(env, next[..j], next[j]) {
      assert next[..j] == listed[..j];
      if j == n { assert listed[..j] == listed; }
    }
  }

  lemma SourcedStep(env: Env, top: nat, listed: seq<Work>, queue: seq<Work>, k: nat, more: seq<Work>)
    requires Sourced(env, top, listed, queue) && k < |queue| && forall x | x in more :: FoundBy(env, queue[k], x)
    ensures Sourced(env, top, listed + [queue[k]], queue[..k] + queue[k + 1..] + more)
  {
    hide Earlier, FoundBy;
    var rest := queue[..k] + queue[k + 1..];
    if listed == [] { assert rest == []; }
    forall x | x in rest + more ensures Earlier(env, listed + [queue[k]], x) {
      if x in more {
        EarlierNow(env, listed, queue[k], x);
      } else {
        assert x in rest && x in queue;
        EarlierStays(env, listed, queue[k], x);
      }
    }
  }

  /** Each listing of the chain was found by the one before it. */
  ghost predicate Chained(env: Env, chain: seq<Work>) {
    forall i | 0 <= i < |chain| - 1 :: FoundBy(env, chain[i], chain[i + 1])
  }

  /** On every server, a chain of listings each found by the one before has no more hops than the
      first one's budget. */
  lemma {:induction false} ChainBound(env: Env, chain: seq<Work>)
    requires chain != [] && Chained(env, chain)
    ensures |chain| - 1 + chain[|chain| - 1].depth == chain[0].depth
    decreases |chain|
  {
    if |chain| > 1 {
      var init := chain[..|chain| - 1];
      assert Chained(env, init) by { hide FoundBy; }
      ChainBound(env, init);
      assert FoundBy(env, chain[|chain| - 2], chain[|chain| - 2 + 1]);
    }
  }

  lemma ChainOfOne(env: Env, chain: seq<Work>)
    requires |chain| == 1
    ensures Chained(env, chain)
  {
  }

  lemma ChainOn(env: Env, chain: seq<Work>, w: Work)
    requires chain != [] && Chained(env, chain) && FoundBy(env, chain[|chain| - 1], w)
    ensures Chained(env, chain + [w])
  {
    hide FoundBy;
  }

  /** So every directory listed lies at most min(depth, 16) hops from the root. */
  lemma {:induction false} HopsBound(env: Env, top: nat, listed: seq<Work>, j: nat) returns (chain: seq<Work>)
    requires Stepwise(env, top, listed) && j < |listed|
    ensures chain != [] && chain[0] == Work([], top) && chain[|chain| - 1] == listed[j] && Chained(env, chain)
    ensures |chain| - 1 == top - listed[j].depth <= top
    decreases j
  {
    hide FoundBy, Chained;
    if j == 0 {
      chain := [listed[0]];
      ChainOfOne(env, chain);
    } else {
      assert Earlier(env, listed[..j], listed[j]);
      var v :| v in listed[..j] && FoundBy(env, v, listed[j]);
      var i :| 0 <= i < j && listed[i] == v;
      var init := HopsBound(env, top, listed, i);
      chain := init + [listed[j]];
      ChainOn(env, init, listed[j]);
    }
    ChainBound(env, chain);
  }

  lemma SubsFound(env: Env, w: Work, start: Found, es: seq<Entry>, subs: seq<Path>)
    requires Fetch(env, w.rel).Listing? && es == Fetch(env, w.rel).entries
    requires subs == AddEntries(env, w.rel, w.depth, start, [], es).1
    ensures forall x | x in WorksOf(subs, Below(w.depth)) :: FoundBy(env, w, x)
  {
    hide AddEntries, Fetch, Skipped;
    EntriesDirs(env, w.rel, w.depth, start, es);
    var ws := WorksOf(subs, Below(w.depth));
    forall x | x in ws ensures FoundBy(env, w, x) {
      var i :| 0 <= i < |ws| && ws[i] == x;
      assert subs[i] in subs;
      var e :| e in es && e.kind.Dir? && !Skipped(env, w.rel, e) && subs[i] == w.rel + e.path;
      assert Lists(env, w.rel, e);
    }
  }

  /** Whatever the server lists, the crawl stays inside the mirror. */
  lemma QueuedInside(env: Env, top: nat, whole: Found, acc: Found, listed: seq<Work>, queue: seq<Work>, k: nat)
    requires State(env, top, whole, acc, listed, queue) && Sane(env, acc, Rels(listed)) && k < |queue|
    ensures ".." !in queue[k].rel
  {
    hide Adds, Spread, SingleNames, MetadataApart, Unlisted, Covered, Inside, Fetch;
    assert (listed + queue)[|listed| + k] == queue[k];
    if queue[k].rel != [] { assert Justified(env, acc, Name(queue[k].rel)); }
  }

  /** What is listed is the root or has been named as a directory. */
  lemma ListingKnown(env: Env, top: nat, listed: seq<Work>, queue: seq<Work>, k: nat)
    requires Sourced(env, top, listed, queue) && k < |queue|
    ensures IsRepodata(env, queue[k].rel) ==> Metadata(env, queue[k].rel)
  {
    hide IsRepodata, Lists;
    assert queue[k] in queue;
    if listed != [] {
      var v :| v in listed && FoundBy(env, v, queue[k]);
      var e :| Lists(env, v.rel, e) && e.kind.Dir? && queue[k].rel == v.rel + e.path;
    }
  }

  // --- what is known stays sane on any server ------------------------------------------------------

  function Read(env: Env, w: Work, acc: Found, es: seq<Entry>): Found
    requires Fetch(env, w.rel).Listing?
  {
    AddEntries(env, w.rel, w.depth, AddManifest(w.rel, acc, Fetch(env, w.rel).manifest), [], es).0
  }

  function ReadDirs(env: Env, w: Work, acc: Found, es: seq<Entry>): seq<Path>
    requires Fetch(env, w.rel).Listing?
  {
    AddEntries(env, w.rel, w.depth, AddManifest(w.rel, acc, Fetch(env, w.rel).manifest), [], es).1
  }

  /** What one finished listing does to what is known. */
  ghost predicate Reads(env: Env, acc: Found, w: Work, round: Round) {
    match Fetch(env, w.rel)
    case Unreachable => round.Continue? ==> round.found == acc.Add(ListingFailed)
    case Invalid => round.Stop? && !round.result.Crawled?
    case Listing(es, _) =>
      match round
      case Continue(f, more) => f == Read(env, w, acc, es) && Rels(more) == Dirs(ReadDirs(env, w, acc, es))
      case Stop(result) =>
        result.Crawled? ==> exists i | 0 <= i <= |es| :: result.found == Read(env, w, acc, es[..i]).Add(Truncated)
  }

  lemma ReadNothing(env: Env, acc: Found, w: Work)
    requires !Fetch(env, w.rel).Listing?
    ensures Fetch(env, w.rel).Unreachable? ==> Reads(env, acc, w, Continue(acc.Add(ListingFailed), []))
    ensures Fetch(env, w.rel).Unreachable? ==> Reads(env, acc, w, Stop(RootFailed))
    ensures Fetch(env, w.rel).Invalid? ==> Reads(env, acc, w, Stop(ManifestInvalid))
  {
    hide Fetch;
  }

  lemma ReadWhole(env: Env, acc: Found, w: Work, f: Found, more: seq<Work>)
    requires Fetch(env, w.rel).Listing? && f == Read(env, w, acc, Fetch(env, w.rel).entries)
    requires more == WorksOf(ReadDirs(env, w, acc, Fetch(env, w.rel).entries), Below(w.depth))
    ensures Reads(env, acc, w, Continue(f, more))
  {
    hide Fetch, Read, ReadDirs;
    RelsOf(ReadDirs(env, w, acc, Fetch(env, w.rel).entries), Below(w.depth));
  }

  lemma RelsOf(subs: seq<Path>, depth: nat)
    ensures Rels(WorksOf(subs, depth)) == Dirs(subs)
  {
    var ws := WorksOf(subs, depth);
    forall i | 0 <= i < |subs| ensures subs[i] in Rels(ws) { assert ws[i] in ws; }
  }

  lemma ReadInPart(env: Env, acc: Found, w: Work, f: Found, i: nat)
    requires Fetch(env, w.rel).Listing? && i <= |Fetch(env, w.rel).entries|
    requires f == Read(env, w, acc, Fetch(env, w.rel).entries[..i])
    ensures Reads(env, acc, w, Stop(Crawled(f.Add(Truncated), true)))
  {
    hide Fetch, Read;
  }

  function Rels(ws: seq<Work>): set<Path> { set w | w in ws :: w.rel }

  lemma RelsGrow(ws: seq<Work>, w: Work)
    ensures Rels(ws + [w]) == Rels(ws) + {w.rel}
  {
    var all := ws + [w];
    assert all[|ws|] == w;
    forall x | x in all ensures x in ws || x == w {}
    forall x | x in ws ensures x in all {}
  }

  ghost predicate Exhaustive(env: Env, f: Found, listed: seq<Work>, queue: seq<Work>) {
    Exhausts(env, f, Rels(listed), Rels(listed) + Rels(queue)) && [] in Rels(listed) + Rels(queue)
  }

  lemma BeginsExhaustive(env: Env, top: nat)
    ensures Exhaustive(env, Nothing, [], [Work([], top)])
  {
    assert Work([], top) in [Work([], top)];
  }

  lemma EndExhaustive(env: Env, f: Found, listed: seq<Work>)
    requires Exhaustive(env, f, listed, [])
    ensures [] in Rels(listed) && Exhausts(env, f, Rels(listed), Rels(listed))
  {
    hide Exhausts;
    assert Rels([]) == {} && Rels(listed) + Rels([]) == Rels(listed);
  }

  lemma RelsTakeOut(queue: seq<Work>, k: nat, more: seq<Work>)
    requires k < |queue|
    ensures Rels(queue) + Rels(more) == Rels(queue[..k] + queue[k + 1..] + more) + {queue[k].rel}
  {
    var rest := queue[..k] + queue[k + 1..];
    assert queue == queue[..k] + [queue[k]] + queue[k + 1..];
    forall w ensures w in queue <==> w in rest || w == queue[k] {}
    forall w ensures w in rest + more <==> w in rest || w in more {}
  }

  /** Between two rounds: all that was offered is taken, directories among it being listed or waiting. */
  ghost predicate Exhausts(env: Env, f: Found, listed: set<Path>, dirs: set<Path>) {
    Thorough(env, f, listed, dirs) && AllOffered(env, f, listed)
  }

  lemma RoundExhausts(env: Env, acc: Found, listed: set<Path>, dirs: set<Path>, w: Work, round: Round)
    requires Exhausts(env, acc, listed, dirs) && Reads(env, acc, w, round) && round.Continue?
    ensures Exhausts(env, round.found, listed + {w.rel}, dirs + Rels(round.more))
  {
    hide Taken, Offers, Fetch, AddEntries;
    var r, dirs2 := Fetch(env, w.rel), dirs + Rels(round.more);
    if r.Listing? {
      ListingExhausts(env, acc, listed, dirs, w.rel, w.depth, r.entries);
      forall p | Taken(env, round.found, listed + {w.rel}, dirs + Dirs(ReadDirs(env, w, acc, r.entries)), p)
        ensures Taken(env, round.found, listed + {w.rel}, dirs2, p) {}
    } else {
      FailureExhausts(env, acc, round.found, listed, dirs, w.rel, dirs2);
    }
  }

  lemma FailureExhausts(env: Env, f: Found, g: Found, listed: set<Path>, dirs: set<Path>, rel: Path, dirs2: set<Path>)
    requires Exhausts(env, f, listed, dirs) && g == f.Add(ListingFailed) && dirs <= dirs2
    requires !Fetch(env, rel).Listing?
    ensures Exhausts(env, g, listed + {rel}, dirs2)
  {
    hide Taken, Fetch, Wanted;
    forall p | Name(p) in g.finds ensures Taken(env, g, listed + {rel}, dirs2, p) {
      TakenGrows(env, f, g, listed, listed + {rel}, dirs, dirs2, p);
    }
  }

  lemma ListingExhausts(env: Env, acc: Found, listed: set<Path>, dirs: set<Path>, rel: Path, depth: nat, es: seq<Entry>)
    requires Exhausts(env, acc, listed, dirs) && Fetch(env, rel).Listing? && es == Fetch(env, rel).entries
    ensures var (f, subs) := AddEntries(env, rel, depth, AddManifest(rel, acc, Fetch(env, rel).manifest), [], es);
            Exhausts(env, f, listed + {rel}, dirs + Dirs(subs))
  {
    var start := AddManifest(rel, acc, Fetch(env, rel).manifest);
    ManifestKnown(env, rel, acc, Fetch(env, rel).manifest);
    EntriesTaken(env, rel, depth, start, es);
    var (f, subs) := AddEntries(env, rel, depth, start, [], es);
    hide AddEntries, AddManifest, Fetch, Wanted, Acted;
    forall x | x in acc.finds ensures x in f.finds { assert x in start.finds; }
    forall p | Name(p) in f.finds ensures Taken(env, f, listed + {rel}, dirs + Dirs(subs), p) {
      if Name(p) in acc.finds {
        TakenGrows(env, acc, f, listed, listed + {rel}, dirs, dirs + Dirs(subs), p);
      } else if Name(p) !in start.finds {
        var e :| e in es && Wanted(env, rel, e) && rel + e.path == p && Acted(env, f, Dirs(subs), p, e);
        ActedGrows(env, f, f, Dirs(subs), dirs + Dirs(subs), p, e);
        assert Offers(env, rel, e);
      } else {
        assert exists b :: Publish(p, b) in start.finds;
      }
    }
    forall r, e | r in listed + {rel} && Offers(env, r, e) ensures Name(r + e.path) in f.finds {
      if r in listed { assert Name(r + e.path) in acc.finds; }
    }
  }

  lemma ManifestKnown(env: Env, rel: Path, acc: Found, manifest: Option<Body>)
    ensures var f := AddManifest(rel, acc, manifest);
            && acc.finds <= f.finds
            && forall p | Name(p) in f.finds && Name(p) !in acc.finds :: exists b :: Publish(p, b) in f.finds
  {
    if manifest.Some? {
      assert Publish(rel + ["repomd.xml"], manifest.value) in AddManifest(rel, acc, manifest).finds;
    }
  }

  lemma RoundSane(env: Env, acc: Found, listed: seq<Work>, w: Work, round: Round)
    requires Sane(env, acc, Rels(listed)) && w.rel !in Rels(listed) && Reads(env, acc, w, round) && round.Continue?
    requires ".." !in w.rel
    requires IsRepodata(env, w.rel) ==> Metadata(env, w.rel)
    ensures Sane(env, round.found, Rels(listed + [w]))
  {
    hide Sane, Metadata, IsRepodata, Fetch;
    RelsGrow(listed, w);
    if Fetch(env, w.rel).Listing? {
      StaysSane(env, w.rel, w.depth, acc, Rels(listed));
    } else {
      FailedSane(env, acc, Rels(listed), w.rel);
    }
  }

  /** Where the crawl stops at the cap, all but coverage still holds. */
  lemma LastSane(env: Env, acc: Found, listed: set<Path>, w: Work, round: Round)
    requires Sane(env, acc, listed) && Reads(env, acc, w, round) && round.Stop? && round.result.Crawled?
    requires ".." !in w.rel
    requires Fetch(env, w.rel).Unreachable? ==> !round.result.Crawled?
    requires IsRepodata(env, w.rel) ==> Metadata(env, w.rel)
    ensures AllJustified(env, round.result.found) && (MetadataApart(env) ==> Unlisted(env, round.result.found))
    ensures round.result.found.Incomplete()
  {
    hide AllJustified, Unlisted, MetadataApart, Metadata, IsRepodata, AddEntries, Fetch, AddManifest;
    var es := Fetch(env, w.rel).entries;
    var i :| 0 <= i <= |es| && round.result.found == Read(env, w, acc, es[..i]).Add(Truncated);
    var f := Read(env, w, acc, es[..i]);
    ListingJustified(env, w.rel, w.depth, acc, es[..i]);
    PlainJustified(env, f, Truncated);
    if MetadataApart(env) {
      StaysUnlisted(env, w.rel, w.depth, acc, es[..i]);
      StillUnlisted(env, f, Truncated);
    }
  }

  lemma StillUnlisted(env: Env, f: Found, x: Find)
    requires Unlisted(env, f) && !x.FileAt?
    ensures Unlisted(env, f.Add(x))
  {
    hide ManifestPath;
  }

  lemma NewlyListed(env: Env, top: nat, whole: Found, acc: Found, listed: seq<Work>, w: Work, queue: seq<Work>)
    requires State(env, top, whole, acc, listed + [w], queue)
    ensures w.rel !in Rels(listed)
  {
    hide Adds, Spread, SingleNames, Fetch;
    var all := (listed + [w]) + queue;
    forall v | v in listed ensures v.rel != w.rel {
      var i :| 0 <= i < |listed| && listed[i] == v;
      assert all[i] == v && all[|listed|] == w;
    }
  }

  /** Waiting directories are listed as soon as there is room. */
  /** Start what there is room for, and wait for one of those in flight. */
  method TakeOne(listings: seq<Work>, pending: seq<Work>, limit: nat)
    returns (w: Work, listings2: seq<Work>, pending2: seq<Work>, ghost k: nat, ghost width: nat)
    requires |listings| <= limit && limit > 0 && listings + pending != []
    ensures var queue := listings + pending;
            k < |queue| && w == queue[k] && listings2 + pending2 == queue[..k] + queue[k + 1..]
    ensures |listings2| < width <= limit
  {
    var started;
    started, pending2 := Refill(listings, pending, limit);
    width := |started|;
    var at :| 0 <= at < |started|;
    k, w := at, started[at];
    Removed(started, pending2, at);
    listings2 := started[..at] + started[at + 1..];
  }

  method Refill(listings: seq<Work>, pending: seq<Work>, limit: nat) returns (listings2: seq<Work>, pending2: seq<Work>)
    requires |listings| <= limit
    ensures listings2 + pending2 == listings + pending && |listings2| <= limit
            && (pending2 == [] || |listings2| == limit)
  {
    listings2, pending2 := listings, pending;
    while |listings2| < limit && pending2 != []
      invariant |listings2| <= limit && listings2 + pending2 == listings + pending
      decreases |pending2|
    {
      listings2, pending2 := listings2 + [pending2[0]], pending2[1..];
    }
  }

  lemma Removed(listings: seq<Work>, pending: seq<Work>, k: nat)
    requires k < |listings|
    ensures listings[..k] + listings[k + 1..] + pending == (listings + pending)[..k] + (listings + pending)[k + 1..]
    ensures listings[k] == (listings + pending)[k]
  {
  }

  lemma Queued(listings: seq<Work>, pending: seq<Work>, more: seq<Work>)
    ensures listings + (pending + more) == (listings + pending) + more
  {
  }

  lemma AtEnd(env: Env, top: nat, whole: Found, acc: Found, listed: seq<Work>)
    requires State(env, top, whole, acc, listed, [])
    ensures Bounded(env, top, listed) && !Fetch(env, []).Unreachable?
    ensures acc.finds[BadManifest] == 0
    ensures SingleNames(env) ==> acc == whole
  {
    assert listed + [] == listed;
  }

  datatype Round = Stop(result: CrawlResult) | Continue(found: Found, more: seq<Work>)

  /** One finished listing. */
  method ListOne(env: Env, top: nat, ghost whole: Found, acc: Found, ghost listed: seq<Work>, w: Work,
                 ghost queue: seq<Work>, ghost k: nat)
    returns (round: Round)
    requires k < |queue| && w == queue[k] && State(env, top, whole, acc, listed, queue) && Once(acc)
    ensures round.Continue? ==> forall x | x in round.more :: FoundBy(env, w, x)
    ensures Reads(env, acc, w, round) && (Fetch(env, w.rel).Unreachable? && round.Stop? ==> !round.result.Crawled?)
    ensures round.Stop? ==> (round.result.ManifestInvalid? <==> Fetch(env, w.rel).Invalid?)
    ensures (round.Continue? ==> Once(round.found))
            && (round.Stop? && round.result.Crawled? ==> Once(round.result.found))
    ensures |listed| + 1 <= 1 + MAX_ENTRIES
    ensures round.Continue? ==>
              State(env, top, whole, round.found, listed + [w], queue[..k] + queue[k + 1..] + round.more)
    ensures round.Stop? ==>
              Bounded(env, top, listed + [w])
              && (round.result.RootFailed? <==> Fetch(env, []).Unreachable?)
    ensures round.Stop? && SingleNames(env) ==>
              (round.result.ManifestInvalid? && BadManifest in whole.finds) || round.result.RootFailed?
              || (round.result.Crawled? && CutShort(round.result, whole))
    ensures round.Stop? && round.result.Crawled? ==> round.result.capped && Truncated in round.result.found.finds
  {
    hide Once, Apart, GoodManifest, Fresh, FoundBy, Reads, SingleNames;
    ghost var rest, single := queue[..k] + queue[k + 1..], SingleNames(env);
    TakeOut(env, top, acc, listed, queue, k, rest);
    if single { TakeOutSpread(top, acc, listed, queue, k, rest); }
    ListedSoFar(acc, listed + [w], rest, top);
    if single { ListedDepths(top, acc, listed + [w], rest); }
    match Fetch(env, w.rel)
    case Unreachable =>
      ReadNothing(env, acc, w);
      if w.rel == [] { return Stop(RootFailed); }
      if single { AfterFailure(env, whole, acc, queue, k); }
      assert rest + [] == rest;
      OtherOnce(acc, ListingFailed);
      return Continue(acc.Add(ListingFailed), []);
    case Invalid =>
      ReadNothing(env, acc, w);
      if single { OutstandingTake(env, queue, k); }
      return Stop(ManifestInvalid);
    case Listing(es, manifest) =>
      var start := AddManifest(w.rel, acc, manifest);
      ManifestBelow(w.rel, acc, manifest);
      ManifestOnce(w.rel, acc, manifest);
      var f, subs, capped;
      ghost var upto;
      f, subs, capped, upto := Absorb(env, w.rel, w.depth, start, es);
      if single {
        var all := AddEntries(env, w.rel, w.depth, start, [], es);
        AfterListingAdds(env, whole, acc, queue, k, all.0, all.1);
        AfterListingSpread(env, top, acc, listed, w, rest, all.0, all.1);
      }
      FreshFrom(w.rel, acc, manifest, f, subs);
      OtherOnce(f, Truncated);
      if capped {
        ReadInPart(env, acc, w, f, upto);
        return Stop(Crawled(f.Add(Truncated), true));
      }
      AfterListing(env, top, acc, listed, w, rest, f, subs);
      SubsFound(env, w, start, es, subs);
      ReadWhole(env, acc, w, f, WorksOf(subs, Below(w.depth)));
      return Continue(f, WorksOf(subs, Below(w.depth)));
  }

  lemma FreshFrom(rel: Path, acc: Found, manifest: Option<Body>, f: Found, subs: seq<Path>)
    requires Fresh(AddManifest(rel, acc, manifest), f, subs)
    ensures Fresh(acc, f, subs)
  {
    ManifestBelow(rel, acc, manifest);
  }

  lemma ListedDepths(top: nat, f: Found, listed: seq<Work>, rest: seq<Work>)
    requires Spread(top, f, listed, rest)
    ensures forall w | w in listed :: |w.rel| + w.depth == top
  {
    forall w | w in listed ensures |w.rel| + w.depth == top { assert w in listed + rest; }
  }

  lemma ListedSoFar(f: Found, listed: seq<Work>, rest: seq<Work>, top: nat)
    requires KnownDirs(f, listed + rest, top)
    ensures forall i, j | 0 <= i < j < |listed| :: listed[i].rel != listed[j].rel
    ensures forall w | w in listed :: w.depth <= top
  {
    forall w | w in listed ensures w.depth <= top { assert w in listed + rest; }
    forall i, j | 0 <= i < j < |listed| ensures listed[i].rel != listed[j].rel {
      assert (listed + rest)[i] == listed[i] && (listed + rest)[j] == listed[j];
    }
  }
}
