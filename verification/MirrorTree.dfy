/** The local mirror as a tree of paths, the atomic changes made to it, and the walk that
    looks for files the remote no longer lists. */
module MirrorTree {
  import opened Prelude
  import opened MirrorPlan

  function Parent(p: Path): Path requires p != [] { p[..|p| - 1] }

  ghost predicate WellFormed(t: Tree) {
    && [] in t && t[[]].DirNode?
    && forall p {:trigger Parent(p)} | p in t && p != [] :: Parent(p) in t && t[Parent(p)].DirNode?
  }

  /** `create_dir_all` for the parent of `p`. */
  function MakeDirs(t: Tree, p: Path): Tree {
    t + map q | q in (set k | 0 <= k < |p| :: p[..k]) && q !in t :: DirNode
  }

  predicate EmptyDir(t: Tree, p: Path) { p in t && t[p].DirNode? && forall q | q in t :: !ChildOf(p, q) }

  function Without(t: Tree, p: Path): Tree { t - {p} }

  lemma WithoutWellFormed(t: Tree, p: Path)
    requires WellFormed(t) && p in t && p != [] && (!t[p].DirNode? || EmptyDir(t, p))
    ensures WellFormed(Without(t, p))
  {
    forall q | q in Without(t, p) && q != [] ensures Parent(q) != p {
      if Parent(q) == p { assert ChildOf(p, q); }
    }
  }

  // --- local extras ------------------------------------------------------------

  predicate ExtraFile(t: Tree, remote: set<Path>, hit: Path -> bool, p: Path) {
    p in t && !t[p].DirNode? && !Excluded(hit, p) && p !in remote
  }

  predicate ExtraDir(t: Tree, remote: set<Path>, hit: Path -> bool, p: Path) {
    p in t && t[p].DirNode? && p != [] && !Excluded(hit, p) && p !in remote
  }

  predicate Walked(t: Tree, hit: Path -> bool, p: Path) { p in t && t[p].DirNode? && !Excluded(hit, p) }

  lemma ExcludedBelow(hit: Path -> bool, p: Path, q: Path)
    requires Excluded(hit, p) && (p == q || Above(p, q))
    ensures Excluded(hit, q)
  {
    var k :| 1 <= k <= |p| && hit(p[..k]);
    assert q[..|p|] == p && q[..k] == p[..k];
  }

  /** Every directory that is not excluded is reached, since its ancestors are not either. */
  lemma {:induction false} WalkReaches(t: Tree, hit: Path -> bool, done: set<Path>, p: Path)
    requires WellFormed(t) && [] in done && Reached(t, hit, done, [])
    requires Walked(t, hit, p)
    ensures p in done
    decreases |p|
  {
    if p != [] {
      var d := Parent(p);
      if Excluded(hit, d) { ExcludedBelow(hit, d, p); }
      WalkReaches(t, hit, done, d);
    }
  }

  /** One directory's entries: extra files, extra directories, directories to descend into. */
  method ReadDir(t: Tree, remote: set<Path>, hit: Path -> bool, dir: Path)
    returns (files: set<Path>, dirs: set<Path>, descend: seq<Path>)
    ensures forall p :: p in files <==> ExtraFile(t, remote, hit, p) && ChildOf(dir, p)
    ensures forall p :: p in dirs <==> ExtraDir(t, remote, hit, p) && ChildOf(dir, p)
    ensures forall p :: p in descend <==> Walked(t, hit, p) && ChildOf(dir, p)
    ensures forall i, j | 0 <= i < j < |descend| :: descend[i] != descend[j]
  {
    files, dirs, descend := {}, {}, [];
    var entries := set p | p in t && ChildOf(dir, p);
    while entries != {}
      invariant forall p | p in entries :: p in t && ChildOf(dir, p) && p !in descend
      invariant forall p :: p in files <==> ExtraFile(t, remote, hit, p) && ChildOf(dir, p) && p !in entries
      invariant forall p :: p in dirs <==> ExtraDir(t, remote, hit, p) && ChildOf(dir, p) && p !in entries
      invariant forall p :: p in descend <==> Walked(t, hit, p) && ChildOf(dir, p) && p !in entries
      invariant forall i, j | 0 <= i < j < |descend| :: descend[i] != descend[j]
      decreases |entries|
    {
      var p :| p in entries;
      entries := entries - {p};
      if t[p].DirNode? {
        if !Excluded(hit, p) {
          if p !in remote { dirs := dirs + {p}; }
          descend := descend + [p];
        }
      } else if !Excluded(hit, p) && p !in remote {
        files := files + {p};
      }
    }
  }

  ghost predicate FilesIn(t: Tree, remote: set<Path>, hit: Path -> bool, done: set<Path>, files: set<Path>) {
    forall p :: p in files <==> ExtraFile(t, remote, hit, p) && p != [] && Parent(p) in done
  }

  ghost predicate DirsIn(t: Tree, remote: set<Path>, hit: Path -> bool, done: set<Path>, dirs: set<Path>) {
    forall p :: p in dirs <==> ExtraDir(t, remote, hit, p) && Parent(p) in done
  }

  lemma InDir(dir: Path)
    ensures forall p :: ChildOf(dir, p) <==> p != [] && Parent(p) == dir
  {
  }

  /** The stack walk of `local_extras`: exactly the files and links, and the directories
      deepest first, that are neither listed nor excluded. */
  method LocalExtras(t: Tree, remote: set<Path>, hit: Path -> bool) returns (files: set<Path>, dirs: seq<Path>)
    requires WellFormed(t)
    ensures forall p :: p in files <==> p in t && !t[p].DirNode? && p !in remote && Unhit(hit, p)
    ensures forall p :: p in dirs <==> p in t && t[p].DirNode? && p != [] && p !in remote && Unhit(hit, p)
    ensures forall i, j | 0 <= i < j < |dirs| :: |dirs[i]| >= |dirs[j]|
  {
    forall p ensures Unhit(hit, p) <==> !Excluded(hit, p) { UnhitIff(hit, p); }
    hide Unhit, Excluded;
    files := {};
    var directories: set<Path> := {};
    var stack: seq<Path> := [[]];
    ghost var done: set<Path> := {};
    WalkBegins(t, hit);
    while stack != []
      invariant WalkInv(t, hit, done, stack)
      invariant FilesIn(t, remote, hit, done, files)
      invariant DirsIn(t, remote, hit, done, directories)
      decreases |t.Keys - done|
    {
      var dir := stack[|stack| - 1];
      var fs, ds, descend := ReadDir(t, remote, hit, dir);
      WalkStep(t, hit, done, stack, descend);
      OneFewer(t.Keys, done, dir);
      InDir(dir);
      stack := stack[..|stack| - 1] + descend;
      done := done + {dir};
      files, directories := files + fs, directories + ds;
    }
    WalkEnds(t, hit, done);
    dirs := DeepestFirst(directories);
  }

  lemma OneFewer(all: set<Path>, done: set<Path>, p: Path)
    requires p in all && p !in done
    ensures |all - (done + {p})| < |all - done|
  {
    assert all - (done + {p}) == (all - done) - {p};
  }

  ghost predicate WalkInv(t: Tree, hit: Path -> bool, done: set<Path>, stack: seq<Path>) {
    && Stacked(t, hit, done, stack)
    && (if done == {} then stack == [[]] else [] in done)
    && done <= t.Keys && (forall d | d in done && d != [] :: Parent(d) in done)
    && Reached(t, hit, done, stack)
  }

  ghost predicate Stacked(t: Tree, hit: Path -> bool, done: set<Path>, stack: seq<Path>) {
    && (forall i | 0 <= i < |stack| :: Walked(t, hit, stack[i]) && stack[i] !in done)
    && (forall i | 0 <= i < |stack| :: stack[i] != [] ==> Parent(stack[i]) in done)
    && (forall i, j | 0 <= i < j < |stack| :: stack[i] != stack[j])
  }

  /** Directories below one already read are read or waiting. */
  ghost predicate Reached(t: Tree, hit: Path -> bool, done: set<Path>, stack: seq<Path>) {
    forall c | Walked(t, hit, c) && c != [] && Parent(c) in done :: c in done || c in stack
  }

  lemma WalkBegins(t: Tree, hit: Path -> bool)
    requires WellFormed(t)
    ensures WalkInv(t, hit, {}, [[]])
  {
  }

  lemma WalkEnds(t: Tree, hit: Path -> bool, done: set<Path>)
    requires WellFormed(t) && WalkInv(t, hit, done, [])
    ensures forall p | p in t && p != [] && !Excluded(hit, p) :: Parent(p) in done
  {
    forall p | p in t && p != [] && !Excluded(hit, p) ensures Parent(p) in done {
      if Excluded(hit, Parent(p)) { ExcludedBelow(hit, Parent(p), p); }
      WalkReaches(t, hit, done, Parent(p));
    }
  }

  lemma WalkStep(t: Tree, hit: Path -> bool, done: set<Path>, stack: seq<Path>, descend: seq<Path>)
    requires WalkInv(t, hit, done, stack) && stack != []
    requires forall p :: p in descend <==> Walked(t, hit, p) && ChildOf(stack[|stack| - 1], p)
    requires forall i, j | 0 <= i < j < |descend| :: descend[i] != descend[j]
    ensures stack[|stack| - 1] in t && stack[|stack| - 1] !in done
    ensures WalkInv(t, hit, done + {stack[|stack| - 1]}, stack[..|stack| - 1] + descend)
  {
    var dir, rest := stack[|stack| - 1], stack[..|stack| - 1];
    InDir(dir);
    assert stack == rest + [dir];
    forall i | 0 <= i < |descend| ensures Walked(t, hit, descend[i]) && descend[i] != [] && Parent(descend[i]) == dir {
      assert descend[i] in descend && ChildOf(dir, descend[i]);
    }
    StackedStep(t, hit, done, rest, dir, descend);
    forall c | Walked(t, hit, c) && c != [] && Parent(c) in done + {dir}
      ensures c in done + {dir} || c in rest + descend
    {
      if Parent(c) == dir { assert c in descend; }
    }
  }

  lemma StackedStep(t: Tree, hit: Path -> bool, done: set<Path>, rest: seq<Path>, dir: Path, descend: seq<Path>)
    requires Stacked(t, hit, done, rest + [dir]) && forall d | d in done && d != [] :: Parent(d) in done
    requires forall i | 0 <= i < |descend| ::
               Walked(t, hit, descend[i]) && descend[i] != [] && Parent(descend[i]) == dir
    requires forall i, j | 0 <= i < j < |descend| :: descend[i] != descend[j]
    ensures dir !in done && Stacked(t, hit, done + {dir}, rest + descend)
  {
    var stack, next := rest + [dir], rest + descend;
    assert stack[|rest|] == dir;
    forall i | 0 <= i < |rest| ensures next[i] == stack[i] && stack[i] != dir {}
    forall i, j | 0 <= i < |descend| && 0 <= j < |rest| ensures rest[j] != descend[i] {
      assert stack[j] == rest[j] && (rest[j] != [] ==> Parent(rest[j]) in done);
    }
    forall i | 0 <= i < |descend| ensures descend[i] !in done + {dir} {
      assert |Parent(descend[i])| < |descend[i]|;
    }
  }

  method DeepestFirst(dirs: set<Path>) returns (s: seq<Path>)
    ensures forall p :: p in s <==> p in dirs
    ensures forall i, j | 0 <= i < j < |s| :: |s[i]| >= |s[j]|
  {
    s := [];
    var todo := dirs;
    while todo != {}
      invariant forall p :: p in dirs <==> p in s || p in todo
      invariant forall i, j | 0 <= i < j < |s| :: |s[i]| >= |s[j]|
      decreases |todo|
    {
      var p :| p in todo;
      todo := todo - {p};
      s := InsertByDepth(s, p);
    }
  }

  method InsertByDepth(s: seq<Path>, p: Path) returns (r: seq<Path>)
    requires forall i, j | 0 <= i < j < |s| :: |s[i]| >= |s[j]|
    ensures forall q :: q in r <==> q in s || q == p
    ensures forall i, j | 0 <= i < j < |r| :: |r[i]| >= |r[j]|
  {
    var k := 0;
    while k < |s| && |s[k]| >= |p|
      invariant 0 <= k <= |s|
      invariant forall i | 0 <= i < k :: |s[i]| >= |p|
    {
      k := k + 1;
    }
    r := s[..k] + [p] + s[k..];
    Inserted(s, p, k, r);
  }

  lemma Inserted(s: seq<Path>, p: Path, k: nat, r: seq<Path>)
    requires k <= |s| && r == s[..k] + [p] + s[k..]
    requires forall i, j | 0 <= i < j < |s| :: |s[i]| >= |s[j]|
    requires (forall i | 0 <= i < k :: |s[i]| >= |p|) && (k < |s| ==> |s[k]| < |p|)
    ensures forall q :: q in r <==> q in s || q == p
    ensures forall i, j | 0 <= i < j < |r| :: |r[i]| >= |r[j]|
  {
    assert s == s[..k] + s[k..];
    forall i | 0 <= i < |r| ensures r[i] == if i < k then s[i] else if i == k then p else s[i - 1] {}
  }
}
