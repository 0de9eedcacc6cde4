/** Which plans can show readers a manifest whose files are not there yet, on some server. */
module MirrorOrder {
  import opened Prelude
  import opened MirrorPlan
  import opened MirrorTree
  import opened MirrorApply

  /** What puts a file in place. */
  datatype Move = Land(p: Path) | Release(k: nat)

  /** A file in place at `p`, through its partial file. */
  function Put(t: Tree, p: Path, n: Node): Tree
    requires p != []
  {
    Without(MakeDirs(t, p), Partial(p))[p := n]
  }

  predicate CanPut(t: Tree, p: Path) {
    && p != [] && NoBlock(t, p) && !(p in t && t[p].DirNode?) && !(Partial(p) in t && t[Partial(p)].DirNode?)
  }

  /** Downloads land in any order, each once; then the manifests go out in plan order. */
  ghost predicate MayMove(job: Job, t: Tree, moves: seq<Move>, move: Move) {
    match move
    case Land(p) =>
      p in job.plan.downloads && Land(p) !in moves && |moves| < |job.plan.downloads| && job.served(p).Got?
          && CanPut(t, p)
    case Release(k) =>
      && k < |job.plan.manifests| && k + |job.plan.downloads| == |moves|
      && (forall p | p in job.plan.downloads :: Land(p) in moves) && CanPut(t, job.plan.manifests[k].at)
  }

  function Moved(job: Job, t: Tree, move: Move): Tree {
    match move
    case Land(p) => if p != [] && job.served(p).Got? then Put(t, p, FileNode(job.served(p).data, 1)) else t
    case Release(k) =>
      if k < |job.plan.manifests| && job.plan.manifests[k].at != [] then
        var m := job.plan.manifests[k]; Put(t, m.at, FileNode(Repomd(m.body, m.bytes), 1))
      else t
  }

  function After(job: Job, moves: seq<Move>): Tree {
    if moves == [] then job.start else Moved(job, After(job, moves[..|moves| - 1]), moves[|moves| - 1])
  }

  ghost predicate Possible(job: Job, moves: seq<Move>) {
    moves != [] ==>
      var init := moves[..|moves| - 1];
      Possible(job, init) && MayMove(job, After(job, init), init, moves[|moves| - 1])
  }

  /** Whatever the server answers and in whatever order downloads land, readers never see a manifest
      that names a missing file. */
  ghost predicate NeverIncomplete(start: Tree, plan: Plan) {
    forall served: Path -> Served, moves: seq<Move> ::
      var job := Job(start, plan, served, map[]);
      Possible(job, moves) ==> Complete(job, After(job, moves))
  }

  /** No manifest is an ordinary download, and what manifests name is planned or there already. */
  ghost predicate NamesPlanned(start: Tree, plan: Plan) {
    forall m | m in plan.manifests && m.at != [] && GoodManifest(m.body) ::
      && m.at !in plan.downloads
      && forall n | n in Named(m.body) :: Parent(m.at) + [n] in plan.downloads || Present(start, Parent(m.at) + [n])
  }

  predicate ToPut(plan: Plan, p: Path) { p in plan.downloads || exists m | m in plan.manifests :: m.at == p }

  /** Nothing local and nothing planned is in the way of a planned file. */
  ghost predicate Unblocked(start: Tree, plan: Plan) {
    && (forall p, k | ToPut(plan, p) && 0 <= k < |p| :: !Present(start, p[..k]) && !ToPut(plan, p[..k]))
    && (forall p | ToPut(plan, p) :: p != [] && (p in start ==> !start[p].DirNode?))
    && (forall p | ToPut(plan, p) && p != [] && Partial(p) in start :: !start[Partial(p)].DirNode?)
    && (forall p, r | ToPut(plan, p) && p != [] && ToPut(plan, r) :: !Above(Partial(p), r))
  }

  /** A plan worth asking about: its manifests are good and name no partial files, its downloads are
      distinct, and the mirror it starts from shows nothing incomplete. */
  ghost predicate Askable(start: Tree, plan: Plan) {
    && Unblocked(start, plan)
    && (forall i, j | 0 <= i < j < |plan.downloads| :: plan.downloads[i] != plan.downloads[j])
    && (forall m | m in plan.manifests ::
          && m.at != [] && Leaf(m.at) == "repomd.xml" && GoodManifest(m.body)
          && forall n | n in Named(m.body) :: !ScratchName(n))
    && (forall m, b | m in plan.manifests && m.at != [] && Current(start, m.at, b) :: NamesPresent(start, m.at, b))
  }

  /** The plans that never pass through an incomplete tree, whatever the server. */
  lemma NeverIncompleteIff(start: Tree, plan: Plan)
    requires Askable(start, plan)
    ensures NeverIncomplete(start, plan) <==> NamesPlanned(start, plan)
  {
    hide Askable, Complete, Possible, After;
    if NamesPlanned(start, plan) {
      forall served: Path -> Served, moves: seq<Move> | Possible(Job(start, plan, served, map[]), moves)
        ensures Complete(Job(start, plan, served, map[]), After(Job(start, plan, served, map[]), moves))
      {
        StaysComplete(Job(start, plan, served, map[]), moves);
      }
    } else {
      var m :| m in plan.manifests && m.at != [] && GoodManifest(m.body)
               && !(m.at !in plan.downloads
                    && forall n | n in Named(m.body) ::
                         Parent(m.at) + [n] in plan.downloads || Present(start, Parent(m.at) + [n]));
      if m.at in plan.downloads {
        LandsTooEarly(start, plan, m);
      } else {
        var n :| n in Named(m.body) && Parent(m.at) + [n] !in plan.downloads && !Present(start, Parent(m.at) + [n]);
        NamesNothing(start, plan, m, n);
      }
    }
  }

  // --- plans that are safe ---------------------------------------------------------------------------

  /** The files planned manifests name are there as soon as they can be. */
  ghost predicate Supplied(job: Job, t: Tree, moves: seq<Move>) {
    forall m, n | m in job.plan.manifests && m.at != [] && GoodManifest(m.body) && n in Named(m.body) ::
      Present(job.start, Parent(m.at) + [n]) || Land(Parent(m.at) + [n]) in moves ==> Present(t, Parent(m.at) + [n])
  }

  lemma {:induction false} StaysComplete(job: Job, moves: seq<Move>)
    requires Askable(job.start, job.plan) && NamesPlanned(job.start, job.plan) && job.content == map[]
             && Possible(job, moves)
    ensures Complete(job, After(job, moves)) && Supplied(job, After(job, moves), moves)
    decreases |moves|
  {
    hide Askable, NamesPlanned, Complete, Supplied, MayMove;
    if moves == [] {
      StartComplete(job);
    } else {
      var init, move := moves[..|moves| - 1], moves[|moves| - 1];
      StaysComplete(job, init);
      MoveComplete(job, After(job, init), init, move);
      assert moves == init + [move];
    }
  }

  lemma StartComplete(job: Job)
    requires Askable(job.start, job.plan)
    ensures Complete(job, job.start) && Supplied(job, job.start, [])
  {
    hide Unblocked, GoodManifest, Named;
  }

  lemma MoveComplete(job: Job, t: Tree, moves: seq<Move>, move: Move)
    requires Askable(job.start, job.plan) && NamesPlanned(job.start, job.plan) && job.content == map[]
    requires Complete(job, t) && Supplied(job, t, moves) && MayMove(job, t, moves, move)
    ensures Complete(job, Moved(job, t, move)) && Supplied(job, Moved(job, t, move), moves + [move])
  {
    hide Askable, NamesPlanned, Complete, Supplied, NoBlock;
    match move
    case Land(p) =>
      NoManifestLands(job, p);
      PutComplete(job, t, p, FileNode(job.served(p).data, 1), None);
      PutSupplies(job, t, moves, move, p, FileNode(job.served(p).data, 1));
    case Release(k) =>
      var m := job.plan.manifests[k];
      AllSupplied(job, t, moves, m);
      PutComplete(job, t, m.at, FileNode(Repomd(m.body, m.bytes), 1), Some(m));
      PutSupplies(job, t, moves, move, m.at, FileNode(Repomd(m.body, m.bytes), 1));
  }

  lemma NoManifestLands(job: Job, p: Path)
    requires Askable(job.start, job.plan) && NamesPlanned(job.start, job.plan) && p in job.plan.downloads
    ensures p !in ManifestPaths(job)
  {
    hide Unblocked, Named;
  }

  lemma AllSupplied(job: Job, t: Tree, moves: seq<Move>, m: Manifest)
    requires Askable(job.start, job.plan) && NamesPlanned(job.start, job.plan) && Supplied(job, t, moves)
    requires m in job.plan.manifests && forall p | p in job.plan.downloads :: Land(p) in moves
    ensures m.at != [] && Leaf(m.at) == "repomd.xml" && GoodManifest(m.body) && NamesPresent(t, m.at, m.body)
  {
    hide Unblocked, Named, GoodManifest, Present;
  }

  /** Putting a file in place: an ordinary one, or a manifest whose files are there. */
  lemma PutComplete(job: Job, t: Tree, p: Path, n: Node, m: Option<Manifest>)
    requires Complete(job, t) && job.content == map[] && p != [] && n.FileNode?
    requires match m
             case None => p !in ManifestPaths(job)
             case Some(x) =>
               && x.at == p && n == FileNode(Repomd(x.body, x.bytes), 1) && GoodManifest(x.body)
               && NamesPresent(t, p, x.body)
               && Leaf(p) == "repomd.xml"
    ensures Complete(job, Put(t, p, n))
  {
    hide Complete, GoodManifest, MakeDirs, Without;
    assert Sound(job, t);
    var t1 := MakeDirs(t, p);
    var t2 := Without(t1, Partial(p));
    DirsKeepSound(job, t, p);
    DropSound(job, t1, Partial(p));
    if m.None? {
      SetSound(job, t2, p, n);
    } else {
      PutNames(t, p, n, m.value.body);
      PublishSound(job, t2, m.value);
    }
  }

  /** A file that is not the partial file of what is put in place stays. */
  lemma PutNames(t: Tree, p: Path, n: Node, b: Body)
    requires p != [] && GoodManifest(b) && NamesPresent(t, p, b)
    ensures NamesPresent(Without(MakeDirs(t, p), Partial(p)), p, b)
  {
    hide GoodManifest, Named, MakeDirs;
    MakesDirsOnly(t, p);
    forall x | x in Named(b) ensures !ScratchName(x) && Present(Without(MakeDirs(t, p), Partial(p)), Parent(p) + [x]) {
      assert Leaf(Parent(p) + [x]) == x;
      assert Parent(p) + [x] != Partial(p);
    }
  }

  lemma PutSupplies(job: Job, t: Tree, moves: seq<Move>, move: Move, p: Path, n: Node)
    requires Askable(job.start, job.plan) && Supplied(job, t, moves) && p != [] && n.FileNode?
    requires (move == Land(p)) || move.Release?
    ensures Supplied(job, Put(t, p, n), moves + [move])
  {
    hide GoodManifest, Named, MakeDirs, Unblocked;
    MakesDirsOnly(t, p);
    var t2 := Put(t, p, n);
    forall m, x | m in job.plan.manifests && m.at != [] && GoodManifest(m.body) && x in Named(m.body)
                  && (Present(job.start, Parent(m.at) + [x]) || Land(Parent(m.at) + [x]) in moves + [move])
      ensures Present(t2, Parent(m.at) + [x])
    {
      var q := Parent(m.at) + [x];
      assert Leaf(q) == x && !ScratchName(x);
      assert q != Partial(p);
    }
  }

  // --- plans that are not -------------------------------------------------------------------------------

  /** A name that the tree does not have in this directory. */
  lemma NewName(t: Tree, d: Path) returns (n: string)
    ensures d + [n] !in t && |n| > 10
  {
    var todo, most: nat := t.Keys, 10;
    while todo != {}
      invariant most >= 10 && forall p | p in t && p !in todo && p != [] :: |Leaf(p)| <= most
      decreases |todo|
    {
      var p :| p in todo;
      todo := todo - {p};
      if p != [] && most < |Leaf(p)| { most := |Leaf(p)|; }
    }
    n := seq(most + 1, _ => 'x');
    assert Leaf(d + [n]) == n;
  }

  /** A manifest that names one file. */
  function Naming(n: string): Body { Xml("repomd", [RepoData(Some("primary"), Some(["repodata", n]), None)]) }

  lemma NamingGood(n: string)
    requires |n| > 10
    ensures GoodManifest(Naming(n)) && Named(Naming(n)) == {n}
  {
    var d := Naming(n).items[0];
    assert d.href.value[1..] == [n] && |".."| < |n| && |"repomd.xml"| < |n| && GoodItem(d) && d in Naming(n).items;
  }

  /** A manifest that is an ordinary download may be the first to land. */
  lemma LandsTooEarly(start: Tree, plan: Plan, m: Manifest)
    requires Askable(start, plan) && m in plan.manifests && m.at in plan.downloads
    ensures !NeverIncomplete(start, plan)
  {
    hide GoodManifest, Named, Complete;
    assert m.at != [] && ToPut(plan, m.at);
    var n := NewName(start, Parent(m.at));
    NamingGood(n);
    var served: Path -> Served := p => Got(Repomd(Naming(n), 0));
    var job, moves := Job(start, plan, served, map[]), [Land(m.at)];
    assert moves[..0] == [] && Possible(job, []);
    assert CanPut(start, m.at) by { StartOnly(job); CanPutHere(job, start, m.at); }
    assert Possible(job, moves) && After(job, moves) == Put(start, m.at, FileNode(Repomd(Naming(n), 0), 1));
    ShowsNothing(job, start, m.at, Naming(n), n, 0);
  }

  /** A manifest put in place that names something neither there nor put there. */
  lemma ShowsNothing(job: Job, t: Tree, at: Path, b: Body, n: string, bytes: nat)
    requires at != [] && at in ManifestPaths(job) && GoodManifest(b) && n in Named(b)
    requires !Present(t, Parent(at) + [n]) && Parent(at) + [n] != at
    ensures !Complete(job, Put(t, at, FileNode(Repomd(b, bytes), 1)))
  {
    hide GoodManifest, Named, MakeDirs;
    MakesDirsOnly(t, at);
    var t2 := Put(t, at, FileNode(Repomd(b, bytes), 1));
    assert Current(t2, at, b) && !NamesPresent(t2, at, b);
  }

  /** Downloads in plan order, then manifests. */
  function Script(plan: Plan, i: nat): (moves: seq<Move>)
    ensures |moves| == i
  {
    seq(i, j requires 0 <= j < i =>
        if j < |plan.downloads| then Land(plan.downloads[j]) else Release(j - |plan.downloads|))
  }

  /** Files come from the start or the plan, directories too. */
  ghost predicate Only(job: Job, t: Tree) {
    && (forall x | Present(t, x) :: Present(job.start, x) || ToPut(job.plan, x))
    && (forall x | x in t && t[x].DirNode? ::
          (x in job.start && job.start[x].DirNode?) || exists r :: ToPut(job.plan, r) && Above(x, r))
  }

  lemma StartOnly(job: Job)
    ensures Only(job, job.start)
  {
  }

  lemma CanPutHere(job: Job, t: Tree, p: Path)
    requires Unblocked(job.start, job.plan) && Only(job, t) && ToPut(job.plan, p)
    ensures CanPut(t, p)
  {
    hide ToPut;
    assert forall k | 0 <= k < |p| && p[..k] in t :: Present(t, p[..k]) || t[p[..k]].DirNode?;
    assert forall r | Above(p, r) :: r[..|p|] == p;
  }

  lemma PutOnly(job: Job, t: Tree, p: Path, n: Node)
    requires Only(job, t) && ToPut(job.plan, p) && p != [] && n.FileNode?
    ensures Only(job, Put(t, p, n))
  {
    hide ToPut, MakeDirs;
    var t2 := Put(t, p, n);
    forall q ensures (q in MakeDirs(t, p) <==> q in t || Above(q, p))
                     && (q in MakeDirs(t, p) ==> MakeDirs(t, p)[q] == if q in t then t[q] else DirNode)
    {
      DirsAt(t, p, q);
    }
    forall x | Present(t2, x) ensures Present(job.start, x) || ToPut(job.plan, x) {
      if x != p { assert Present(t, x); }
    }
  }

  lemma {:induction false} ScriptPossible(job: Job, i: nat)
    requires Askable(job.start, job.plan) && (forall p :: job.served(p).Got?)
    requires i <= |job.plan.downloads| + |job.plan.manifests|
    ensures Possible(job, Script(job.plan, i)) && Only(job, After(job, Script(job.plan, i)))
  {
    hide Only, Askable, MayMove, Moved;
    if i == 0 {
      StartOnly(job);
    } else {
      ScriptPossible(job, i - 1);
      assert Script(job.plan, i)[..i - 1] == Script(job.plan, i - 1);
      ScriptStep(job, After(job, Script(job.plan, i - 1)), i - 1);
    }
  }

  lemma ScriptStep(job: Job, t: Tree, i: nat)
    requires Askable(job.start, job.plan) && (forall p :: job.served(p).Got?) && Only(job, t)
    requires i < |job.plan.downloads| + |job.plan.manifests|
    ensures MayMove(job, t, Script(job.plan, i), Script(job.plan, i + 1)[i])
    ensures Only(job, Moved(job, t, Script(job.plan, i + 1)[i]))
  {
    hide Only, CanPut, Put, GoodManifest, Named;
    if i < |job.plan.downloads| {
      var p := job.plan.downloads[i];
      assert ToPut(job.plan, p);
      CanPutHere(job, t, p);
      PutOnly(job, t, p, FileNode(job.served(p).data, 1));
      NotYet(job, i);
    } else {
      var m := job.plan.manifests[i - |job.plan.downloads|];
      assert ToPut(job.plan, m.at);
      CanPutHere(job, t, m.at);
      PutOnly(job, t, m.at, FileNode(Repomd(m.body, m.bytes), 1));
      AllScripted(job.plan, i);
    }
  }

  lemma NotYet(job: Job, i: nat)
    requires Askable(job.start, job.plan) && i < |job.plan.downloads|
    ensures Land(job.plan.downloads[i]) !in Script(job.plan, i)
  {
  }

  lemma AllScripted(plan: Plan, i: nat)
    requires |plan.downloads| <= i
    ensures forall p | p in plan.downloads :: Land(p) in Script(plan, i)
  {
    forall p | p in plan.downloads ensures Land(p) in Script(plan, i) {
      var j :| 0 <= j < |plan.downloads| && plan.downloads[j] == p;
      assert Script(plan, i)[j] == Land(p);
    }
  }

  /** A manifest that names a file neither planned nor there goes out although it is missing. */
  lemma NamesNothing(start: Tree, plan: Plan, m: Manifest, n: string)
    requires Askable(start, plan) && m in plan.manifests && m.at !in plan.downloads && m.at != []
             && GoodManifest(m.body)
    requires n in Named(m.body) && Parent(m.at) + [n] !in plan.downloads && !Present(start, Parent(m.at) + [n])
    ensures !NeverIncomplete(start, plan)
  {
    hide Complete, Askable, Only, Put, Possible;
    var k :| 0 <= k < |plan.manifests| && plan.manifests[k] == m;
    var served: Path -> Served := p => Got(Blob(0, 0));
    var job, i := Job(start, plan, served, map[]), |plan.downloads| + k;
    var q := Parent(m.at) + [n];
    ScriptPossible(job, i);
    ScriptPossible(job, i + 1);
    var moves := Script(plan, i + 1);
    assert moves[..i] == Script(plan, i) && moves[i] == Release(k);
    var t := After(job, Script(plan, i));
    assert After(job, moves) == Put(t, m.at, FileNode(Repomd(m.body, m.bytes), 1));
    NotManifestName(start, plan, m, n);
    NotShown(job, t, q);
    ShowsNothing(job, t, m.at, m.body, n, m.bytes);
  }

  lemma NotManifestName(start: Tree, plan: Plan, m: Manifest, n: string)
    requires Askable(start, plan) && m in plan.manifests && m.at != [] && GoodManifest(m.body) && n in Named(m.body)
    ensures forall x | x in plan.manifests :: x.at != Parent(m.at) + [n]
  {
    hide Unblocked;
    assert n != "repomd.xml" by {
      var d :| d in m.body.items && d.href.value[1] == n;
      assert GoodItem(d);
    }
    assert Leaf(Parent(m.at) + [n]) == n;
  }

  lemma NotShown(job: Job, t: Tree, q: Path)
    requires Only(job, t) && !Present(job.start, q) && q !in job.plan.downloads
             && forall x | x in job.plan.manifests :: x.at != q
    ensures !Present(t, q)
  {
    hide Present;
  }

  /** What the whole run asks of a job to keep its manifests complete (`Execute`) is that condition. */
  lemma OrderlyIff(job: Job)
    requires Proper(job) && Sound(job, job.start) && job.content == map[] && !job.plan.incomplete
    requires forall m, n | m in job.plan.manifests && m.at != [] && GoodManifest(m.body) && n in Named(m.body) ::
               !ScratchName(n) && Parent(m.at) + [n] !in job.plan.deletes
    ensures Orderly(job) <==> NamesPlanned(job.start, job.plan)
  {
    hide Sound, Named, GoodManifest, Present;
    if NamesPlanned(job.start, job.plan) {
      forall m | m in job.plan.manifests ensures ProperManifest(job, m) {
        forall p | p in NamedAt(m.at, m.body)
          ensures !ScratchName(Leaf(p)) && p !in job.plan.deletes && (p in job.plan.downloads || Present(job.start, p))
        {
          var n :| n in Named(m.body) && p == Parent(m.at) + [n];
          assert Leaf(p) == n;
        }
      }
    }
    if Orderly(job) {
      forall m | m in job.plan.manifests && m.at != [] && GoodManifest(m.body)
        ensures m.at !in job.plan.downloads
        ensures forall n | n in Named(m.body) ::
                  Parent(m.at) + [n] in job.plan.downloads || Present(job.start, Parent(m.at) + [n])
      {
        assert ProperManifest(job, m);
        forall n | n in Named(m.body) ensures Parent(m.at) + [n] in NamedAt(m.at, m.body) {}
      }
    }
  }
}
