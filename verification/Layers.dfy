/** Layered configuration (`crates/config/src/loader.rs`): the include tree in load order and the
    deep merge of its documents. */
module Layers {
  import opened Prelude

  const MAX_INCLUDE_DEPTH: nat := 32
  const MAX_CONFIG_FILES: nat := 1024
  const MAX_CONFIG_BYTES: nat := 16 * 1024 * 1024

  /** A document: tables, and everything that merging replaces whole (scalars, arrays, inline
      tables, arrays of tables). */
  datatype Item = Leaf(value: string) | Table(items: map<string, Item>)

  type Document = d: Item | d.Table? witness Table(map[])

  // --- merging ------------------------------------------------------------------------------

  function Merge(dst: Item, src: Item): Item
    requires dst.Table? && src.Table?
    ensures Merge(dst, src).Table?
    decreases src
  {
    Table(map k | k in dst.items.Keys + src.items.Keys ::
      if k !in src.items then dst.items[k]
      else if k in dst.items && dst.items[k].Table? && src.items[k].Table? then Merge(dst.items[k], src.items[k])
      else src.items[k])
  }

  function Lookup(d: Item, p: seq<string>): Option<Item>
    decreases |p|
  {
    if p == [] then Some(d)
    else if d.Leaf? || p[0] !in d.items then None
    else Lookup(d.items[p[0]], p[1..])
  }

  predicate Holds(d: Item, p: seq<string>, v: string) { Lookup(d, p) == Some(Leaf(v)) }

  /** A later document that sets `p`, or replaces a table on the way to it. */
  predicate Blocks(s: Item, p: seq<string>) {
    Lookup(s, p).Some? || exists k :: 1 <= k < |p| && Lookup(s, p[..k]).Some? && Lookup(s, p[..k]).value.Leaf?
  }

  lemma LookupDown(s: Item, p: seq<string>, k: nat)
    requires 1 <= k <= |p| && s.Table? && p[0] in s.items
    ensures Lookup(s, p[..k]) == Lookup(s.items[p[0]], p[1..][..k - 1])
  {
    assert p[..k][1..] == p[1..][..k - 1];
  }

  lemma BlocksDown(s: Item, p: seq<string>)
    requires p != [] && s.Table?
    ensures Blocks(s, p) <==> p[0] in s.items && (|p| == 1 || s.items[p[0]].Leaf? || Blocks(s.items[p[0]], p[1..]))
  {
    if p[0] in s.items {
      var next, rest := s.items[p[0]], p[1..];
      LookupDown(s, p, 1);
      assert rest[..0] == [];
      if |p| > 1 && next.Leaf? { assert Lookup(s, p[..1]).Some? && Lookup(s, p[..1]).value.Leaf?; }
      if Blocks(s, p) && |p| > 1 && next.Table? && Lookup(s, p).None? {
        var k :| 1 <= k < |p| && Lookup(s, p[..k]).Some? && Lookup(s, p[..k]).value.Leaf?;
        LookupDown(s, p, k);
      }
      if |p| > 1 && Blocks(next, rest) && Lookup(next, rest).None? {
        var k :| 1 <= k < |rest| && Lookup(next, rest[..k]).Some? && Lookup(next, rest[..k]).value.Leaf?;
        LookupDown(s, p, k + 1);
      }
    } else {
      assert forall k | 1 <= k < |p| :: p[..k][0] == p[0];
    }
  }

  lemma MergeAt(d: Item, s: Item, k: string)
    requires d.Table? && s.Table?
    ensures k in Merge(d, s).items <==> k in d.items || k in s.items
    ensures k in d.items && k !in s.items ==> Merge(d, s).items[k] == d.items[k]
    ensures k in s.items && k in d.items && d.items[k].Table? && s.items[k].Table? ==>
              Merge(d, s).items[k] == Merge(d.items[k], s.items[k])
    ensures k in s.items && !(k in d.items && d.items[k].Table? && s.items[k].Table?) ==>
              Merge(d, s).items[k] == s.items[k]
  {
  }

  /** One merge: the later document's value, or the earlier one's if nothing later is in the way. */
  lemma {:induction false} MergeLookup(d: Item, s: Item, p: seq<string>, v: string)
    requires d.Table? && s.Table? && p != []
    ensures Holds(Merge(d, s), p, v) <==> Holds(s, p, v) || (Holds(d, p, v) && !Blocks(s, p))
    decreases |p|
  {
    var k := p[0];
    hide Merge, Blocks;
    BlocksDown(s, p);
    MergeAt(d, s, k);
    var m, rest := Merge(d, s), p[1..];
    if k in d.items { assert Lookup(d, p) == Lookup(d.items[k], rest); }
    if k in s.items { assert Lookup(s, p) == Lookup(s.items[k], rest); }
    if k in m.items { assert Lookup(m, p) == Lookup(m.items[k], rest); }
    if k in s.items && k in d.items && d.items[k].Table? && s.items[k].Table? {
      if |p| > 1 {
        MergeLookup(d.items[k], s.items[k], rest, v);
      } else {
        assert Lookup(m.items[k], rest) == Some(m.items[k]);
        assert Lookup(s.items[k], rest) == Some(s.items[k]);
      }
    } else if k in d.items && d.items[k].Leaf? && |p| > 1 {
      assert Lookup(d.items[k], rest).None?;
    }
  }

  /** `merge_table`: key by key, in any order. */
  method MergeTable(dst: map<string, Item>, src: map<string, Item>) returns (r: map<string, Item>)
    ensures Table(r) == Merge(Table(dst), Table(src))
    decreases Table(src)
  {
    hide Merge;
    r := dst;
    var keys := src.Keys;
    while keys != {}
      invariant keys <= src.Keys && HalfMerged(dst, src, r, keys)
      decreases |keys|
    {
      var k :| k in keys;
      keys := keys - {k};
      MergeAt(Table(dst), Table(src), k);
      if k in r && r[k].Table? && src[k].Table? {
        var m := MergeTable(r[k].items, src[k].items);
        assert Table(src[k].items) == src[k] && Table(r[k].items) == r[k];
        r := r[k := Table(m)];
      } else {
        r := r[k := src[k]];
      }
    }
    WholeMerged(dst, src, r);
  }

  /** Keys still to do are as in the earlier document, the others merged. */
  ghost predicate HalfMerged(dst: map<string, Item>, src: map<string, Item>, r: map<string, Item>, keys: set<string>) {
    && r.Keys == dst.Keys + (src.Keys - keys)
    && forall k | k in r ::
      if k in keys || k !in src then k in dst && r[k] == dst[k]
      else k in Merge(Table(dst), Table(src)).items && r[k] == Merge(Table(dst), Table(src)).items[k]
  }

  lemma WholeMerged(dst: map<string, Item>, src: map<string, Item>, r: map<string, Item>)
    requires HalfMerged(dst, src, r, {})
    ensures Table(r) == Merge(Table(dst), Table(src))
  {
    hide Merge;
    var m := Merge(Table(dst), Table(src)).items;
    forall k ensures k in r <==> k in m { MergeAt(Table(dst), Table(src), k); }
    forall k | k in r ensures r[k] == m[k] { MergeAt(Table(dst), Table(src), k); }
    assert r == m;
  }

  // --- a sequence of documents ---------------------------------------------------------------------

  function MergeAll(docs: seq<Document>): Option<Document> {
    if docs == [] then None
    else
      var init := MergeAll(docs[..|docs| - 1]);
      if init.None? then Some(docs[|docs| - 1]) else Some(Merge(init.value, docs[|docs| - 1]))
  }

  /** File `i` sets `p` to `v` and no later file gets in its way. */
  predicate Decides(docs: seq<Document>, p: seq<string>, v: string, i: nat)
    requires i < |docs|
  {
    Holds(docs[i], p, v) && forall j | i < j < |docs| :: !Blocks(docs[j], p)
  }

  /** After loading, a path holds `v` exactly when the last file that matters sets it so. */
  lemma {:induction false} LayeredLookup(docs: seq<Document>, p: seq<string>, v: string)
    requires docs != [] && p != []
    ensures MergeAll(docs).Some?
    ensures Holds(MergeAll(docs).value, p, v) <==> exists i :: 0 <= i < |docs| && Decides(docs, p, v, i)
    decreases |docs|
  {
    hide Blocks, Merge, Holds;
    var n := |docs| - 1;
    var init := docs[..n];
    if n == 0 {
      assert Decides(docs, p, v, 0) <==> Holds(docs[0], p, v);
    } else {
      LayeredLookup(init, p, v);
      MergeLookup(MergeAll(init).value, docs[n], p, v);
      HoldsBlocks(docs[n], p, v);
      forall i | 0 <= i < n ensures Decides(docs, p, v, i) <==> Decides(init, p, v, i) && !Blocks(docs[n], p) {
        assert docs[i] == init[i];
        if Decides(docs, p, v, i) { assert forall j | i < j < n :: init[j] == docs[j]; }
      }
      assert Decides(docs, p, v, n) <==> Holds(docs[n], p, v);
    }
  }

  lemma HoldsBlocks(d: Item, p: seq<string>, v: string)
    ensures Holds(d, p, v) ==> Blocks(d, p)
  {
  }

  // --- the include tree -------------------------------------------------------------------------------

  /** A file as read: its document without `include`, the files its patterns resolve to, and its
      size before and after expansion. */
  datatype Source = Source(doc: Document, includes: seq<string>, raw: nat, expanded: nat)

  type Sources = map<string, Source>

  /** Load order: a file before what it includes, includes in the order they are listed. */
  function Preorder(fs: Sources, path: string, depth: nat): seq<string>
    decreases MAX_INCLUDE_DEPTH + 1 - depth, 1, 0
  {
    if depth > MAX_INCLUDE_DEPTH || path !in fs then [] else [path] + PreorderAll(fs, fs[path].includes, depth)
  }

  function PreorderAll(fs: Sources, paths: seq<string>, depth: nat): seq<string>
    requires depth <= MAX_INCLUDE_DEPTH
    decreases MAX_INCLUDE_DEPTH + 1 - depth, 0, |paths|
  {
    if paths == [] then []
    else PreorderAll(fs, paths[..|paths| - 1], depth) + Preorder(fs, paths[|paths| - 1], depth + 1)
  }

  function Docs(fs: Sources, order: seq<string>): (docs: seq<Document>)
    requires forall f | f in order :: f in fs
    ensures |docs| == |order| && forall i | 0 <= i < |docs| :: docs[i] == fs[order[i]].doc
  {
    seq(|order|, i requires 0 <= i < |order| => assert order[i] in order; fs[order[i]].doc)
  }

  ghost predicate Chain(fs: Sources, c: seq<string>) {
    forall i | 0 <= i < |c| - 1 :: c[i] in fs && c[i + 1] in fs[c[i]].includes
  }

  ghost predicate NoneTwice(c: seq<string>) { forall i, j | 0 <= i < j < |c| :: c[i] != c[j] }

  /** A chain of at most 32 includes, no file twice, that ends at one that can be read. */
  ghost predicate Fine(fs: Sources, c: seq<string>) {
    c != [] && |c| <= 33 && NoneTwice(c) && c[|c| - 1] in fs
  }

  /** No chain of includes from the end of `c` comes back to itself, gets too deep, or names a file
      that cannot be read. */
  ghost predicate AllFine(fs: Sources, c: seq<string>) {
    forall rest: seq<string> | Chain(fs, c + rest) :: Fine(fs, c + rest)
  }

  /** The expanded size of these files. */
  ghost function Expanded(fs: Sources, order: seq<string>): nat {
    if order == [] then 0
    else var f := order[|order| - 1];
      Expanded(fs, order[..|order| - 1]) + if f in fs then fs[f].expanded else 0
  }

  /** The file can be read and there is room for it, as it is and expanded. */
  ghost predicate RoomFor(fs: Sources, before: seq<string>, f: string) {
    && f in fs
    && Expanded(fs, before) + fs[f].raw <= 16777216 && Expanded(fs, before) + fs[f].expanded <= 16777216
  }

  /** Read in this order, the files are there and never more than 16 MiB, as they are or expanded. */
  ghost predicate Fits(fs: Sources, order: seq<string>) {
    forall i | 0 <= i < |order| :: RoomFor(fs, order[..i], order[i])
  }

  /** When a root file loads. */
  ghost predicate Loadable(fs: Sources, root: string) {
    var order := Preorder(fs, root, 0);
    AllFine(fs, [root]) && |order| <= 1024 && Fits(fs, order)
  }

  lemma FitsStart(fs: Sources, a: seq<string>, b: seq<string>)
    requires a <= b && Fits(fs, b)
    ensures Fits(fs, a)
  {
    hide RoomFor;
    forall i | 0 <= i < |a| ensures RoomFor(fs, a[..i], a[i]) {
      assert a[..i] == b[..i] && RoomFor(fs, b[..i], b[i]);
    }
  }

  lemma OneFits(fs: Sources, order: seq<string>, f: string)
    requires Fits(fs, order) && f in fs
    ensures Expanded(fs, order + [f]) == Expanded(fs, order) + fs[f].expanded
    ensures Fits(fs, order + [f]) <==> RoomFor(fs, order, f)
  {
    var more := order + [f];
    assert more[..|order|] == order && more[|order|] == f;
    hide RoomFor, Expanded;
    forall i | 0 <= i < |order| ensures RoomFor(fs, more[..i], more[i]) {
      assert more[..i] == order[..i] && RoomFor(fs, order[..i], order[i]);
    }
  }

  /** Why a load that has merged `order`, of what should be `whole`, ends in an error: a chain of
      includes from the end of `c` that is too deep, closed, or names a file that cannot be read, or
      a next file that is one too many or too large. */
  ghost predicate Explains(fs: Sources, c: seq<string>, order: seq<string>, whole: seq<string>, e: LoadError) {
    match e
    case TooDeep => exists rest :: Chain(fs, c + rest) && |c + rest| > 33 && NoneTwice((c + rest)[..33])
    case Cycle => exists rest :: Chain(fs, c + rest) && !NoneTwice(c + rest) && |c + rest| <= 33
    case Unreadable => Missing(fs, c)
    case TooMany => |order| >= 1024 && (Missing(fs, c) || exists f :: order + [f] <= whole)
    case TooLarge => exists f :: order + [f] <= whole && !Fits(fs, order + [f])
  }

  ghost predicate Missing(fs: Sources, c: seq<string>) {
    exists rest :: Chain(fs, c + rest) && c + rest != [] && (c + rest)[|c + rest| - 1] !in fs
  }

  datatype LoadError = TooDeep | Cycle | TooMany | Unreadable | TooLarge

  class Loader {
    const fs: Sources
    var stack: set<string>
    var files: nat
    var bytes: nat
    var merged: Option<Document>
    ghost var order: seq<string>

    constructor (fs: Sources)
      ensures this.fs == fs && stack == {} && files == 0 && bytes == 0 && order == [] && Valid()
    {
      this.fs, stack, files, bytes, merged, order := fs, {}, 0, 0, None, [];
    }

    /** What has been merged is what has been loaded, in order. */
    ghost predicate Valid()
      reads this
    {
      && (forall f | f in order :: f in fs) && merged == MergeAll(Docs(fs, order))
      && |order| <= MAX_CONFIG_FILES && Fits(fs, order)
    }

    /** All files so far have been counted. */
    ghost predicate Counted()
      reads this
    {
      files == |order| && bytes == Expanded(fs, order)
    }

    /** `load_file`: own content first, then each include in turn. Success means that nothing below this
        file stands in the way; an error has its reason. */
    method LoadFile(path: string, depth: nat, ghost chain: seq<string>) returns (e: Option<LoadError>)
      requires Valid() && Counted() && depth == |chain| && depth <= MAX_INCLUDE_DEPTH + 1 && Chain(fs, chain + [path])
      requires stack == (set f | f in chain) && NoneTwice(chain)
      modifies this
      ensures Valid() && old(order) <= order
      ensures e.None? ==>
                Counted() && stack == old(stack) && order == old(order) + Preorder(fs, path, depth)
                && AllFine(fs, chain + [path])
      ensures e.Some? ==>
                order <= old(order) + Preorder(fs, path, depth)
                && Explains(fs, chain + [path], order, old(order) + Preorder(fs, path, depth), e.value)
      decreases MAX_INCLUDE_DEPTH + 1 - depth
    {
      hide MergeAll, Docs, AllFine, Merge, Explains, Fits, Expanded;
      ghost var whole := order + Preorder(fs, path, depth);
      Hopeless(fs, chain, path, order, whole);
      if depth > MAX_INCLUDE_DEPTH { return Some(TooDeep); }
      if path in stack { return Some(Cycle); }
      stack := stack + {path};
      files := files + 1;
      if files > MAX_CONFIG_FILES {
        NoRoom(fs, chain, path, order, whole, depth);
        return Some(TooMany);
      }
      if path !in fs { return Some(Unreadable); }
      var source := fs[path];
      OneFits(fs, order, path);
      NextTooLarge(fs, chain + [path], order, whole, path);
      if bytes + source.raw > MAX_CONFIG_BYTES { return Some(TooLarge); }
      bytes := bytes + source.expanded;
      if bytes > MAX_CONFIG_BYTES { return Some(TooLarge); }
      OneMore(fs, order, path);
      merged := if merged.None? then Some(source.doc) else Some(Merge(merged.value, source.doc));
      order := order + [path];
      e := LoadIncludes(path, depth, chain);
      assert whole == old(order) + [path] + PreorderAll(fs, fs[path].includes, depth);
      if e.None? {
        stack := stack - {path};
        BelowFine(fs, chain, path);
      }
    }

    method LoadIncludes(path: string, depth: nat, ghost chain: seq<string>) returns (e: Option<LoadError>)
      requires Valid() && Counted() && depth == |chain| <= MAX_INCLUDE_DEPTH && path in fs && Chain(fs, chain + [path])
      requires stack == (set f | f in chain) + {path} && path !in chain && NoneTwice(chain)
      modifies this
      ensures Valid() && old(order) <= order
      ensures e.None? ==>
                Counted() && stack == old(stack) && order == old(order) + PreorderAll(fs, fs[path].includes, depth)
                && forall f | f in fs[path].includes :: AllFine(fs, chain + [path] + [f])
      ensures e.Some? ==>
                order <= old(order) + PreorderAll(fs, fs[path].includes, depth)
                && Explains(fs, chain + [path], order, old(order) + PreorderAll(fs, fs[path].includes, depth), e.value)
      decreases MAX_INCLUDE_DEPTH + 1 - depth, 0
    {
      hide MergeAll, Docs, AllFine, Fine, Explains, Fits, Expanded, Preorder, PreorderAll;
      var includes := fs[path].includes;
      ghost var here := chain + [path];
      NoneIncluded(fs, depth);
      for i := 0 to |includes|
        invariant Valid() && Counted() && stack == old(stack)
        invariant order == old(order) + PreorderAll(fs, includes[..i], depth)
        invariant forall f | f in includes[..i] :: AllFine(fs, here + [f])
      {
        Deeper(fs, here, includes[i]);
        OneIncluded(fs, includes, i, depth);
        ghost var before := order;
        e := LoadFile(includes[i], depth + 1, here);
        if e.Some? {
          ghost var whole := old(order) + PreorderAll(fs, includes, depth);
          assert before + Preorder(fs, includes[i], depth + 1) <= whole;
          Lengthen(fs, here, includes[i], order, before + Preorder(fs, includes[i], depth + 1), whole, e.value);
          return;
        }
      }
      assert includes[..|includes|] == includes;
      return None;
    }

    /** Loading from a root file succeeds exactly if its includes can all be read, no chain of them is
        closed or more than 32 deep, and they are not too many or too large. Then every path means
        what the last file that touches it says, in the order of their places in the include tree. */
    method Load(root: string) returns (e: Option<LoadError>, ghost at: seq<seq<nat>>)
      requires Valid() && stack == {} && files == 0 && bytes == 0 && order == []
      modifies this
      ensures e.None? <==> Loadable(fs, root)
      ensures e.Some? ==> Explains(fs, [root], order, Preorder(fs, root, 0), e.value)
      ensures e.None? ==>
                order == Preorder(fs, root, 0) && (forall f | f in order :: f in fs) && AllFine(fs, [root])
                && InOrder(fs, root, order, at)
      ensures e.None? ==> merged.Some? && forall p, v | p != [] ::
                Holds(merged.value, p, v) <==> exists i :: 0 <= i < |order| && Decides(Docs(fs, order), p, v, i)
    {
      hide Holds, Blocks, MergeAll, AllFine, Fits, Explains, InOrder;
      at := [];
      e := LoadFile(root, 0, []);
      assert [] + [root] == [root] && [] + Preorder(fs, root, 0) == Preorder(fs, root, 0);
      if e.None? {
        NowFine(fs, [root]);
        at := PreorderPlaced(fs, root, 0, [root]);
        hide Preorder, Decides, Fine;
        forall p, v | p != []
          ensures merged.Some? && (Holds(merged.value, p, v) <==>
                                   exists i :: 0 <= i < |order| && Decides(Docs(fs, order), p, v, i)) {
          LayeredLookup(Docs(fs, order), p, v);
        }
        LayeredLookup(Docs(fs, order), [""], "");
      } else {
        NotLoadable(fs, root, order, e.value);
      }
    }
  }

  // --- why a load fails ---------------------------------------------------------------------------------

  lemma Hopeless(fs: Sources, chain: seq<string>, path: string, order: seq<string>, whole: seq<string>)
    requires Chain(fs, chain + [path]) && NoneTwice(chain) && |chain| <= 33
    ensures |chain| > 32 ==> Explains(fs, chain + [path], order, whole, TooDeep)
    ensures path in chain && |chain| <= 32 ==> Explains(fs, chain + [path], order, whole, Cycle)
    ensures path !in fs ==> Missing(fs, chain + [path]) && Explains(fs, chain + [path], order, whole, Unreadable)
  {
    var c := chain + [path];
    assert c + [] == c && c[..|chain|] == chain && c[|chain|] == path;
    if path in chain {
      var i :| 0 <= i < |chain| && chain[i] == path;
      assert c[i] == c[|chain|];
    }
  }

  lemma NoRoom(fs: Sources, chain: seq<string>, path: string, order: seq<string>, whole: seq<string>, depth: nat)
    requires |order| >= 1024 && whole == order + Preorder(fs, path, depth) && depth <= MAX_INCLUDE_DEPTH
    requires path !in fs ==> Missing(fs, chain + [path])
    ensures Explains(fs, chain + [path], order, whole, TooMany)
  {
    if path in fs { assert order + [path] <= whole; }
  }

  lemma NextTooLarge(fs: Sources, c: seq<string>, order: seq<string>, whole: seq<string>, f: string)
    requires order + [f] <= whole
    ensures !Fits(fs, order + [f]) ==> Explains(fs, c, order, whole, TooLarge)
  {
  }

  /** What explains an error below an include explains it above. */
  lemma Lengthen(fs: Sources, here: seq<string>, f: string, order: seq<string>, part: seq<string>, whole: seq<string>,
                 e: LoadError)
    requires Explains(fs, here + [f], order, part, e) && part <= whole
    ensures Explains(fs, here, order, whole, e)
  {
    hide Fits, Chain, NoneTwice;
    forall rest: seq<string> ensures here + [f] + rest == here + ([f] + rest) {}
  }

  lemma NotLoadable(fs: Sources, root: string, order: seq<string>, e: LoadError)
    requires Explains(fs, [root], order, Preorder(fs, root, 0), e)
    ensures !Loadable(fs, root)
  {
    hide Fits, Preorder;
    var whole := Preorder(fs, root, 0);
    match e
    case TooDeep =>
      var rest :| Chain(fs, [root] + rest) && |[root] + rest| > 33;
      assert !Fine(fs, [root] + rest);
    case Cycle =>
      var rest :| Chain(fs, [root] + rest) && !NoneTwice([root] + rest);
      assert !Fine(fs, [root] + rest);
    case Unreadable => NotAllFine(fs, [root]);
    case TooMany => if Missing(fs, [root]) { NotAllFine(fs, [root]); }
    case TooLarge =>
      var f :| order + [f] <= whole && !Fits(fs, order + [f]);
      if Fits(fs, whole) { FitsStart(fs, order + [f], whole); }
  }

  lemma NotAllFine(fs: Sources, c: seq<string>)
    requires Missing(fs, c)
    ensures !AllFine(fs, c)
  {
    var rest :| Chain(fs, c + rest) && c + rest != [] && (c + rest)[|c + rest| - 1] !in fs;
    assert !Fine(fs, c + rest);
  }

  lemma NoneIncluded(fs: Sources, depth: nat)
    requires depth <= MAX_INCLUDE_DEPTH
    ensures PreorderAll(fs, [], depth) == []
  {
  }

  lemma OneIncluded(fs: Sources, paths: seq<string>, i: nat, depth: nat)
    requires depth <= MAX_INCLUDE_DEPTH && i < |paths|
    ensures PreorderAll(fs, paths[..i + 1], depth) ==
            PreorderAll(fs, paths[..i], depth) + Preorder(fs, paths[i], depth + 1)
    ensures PreorderAll(fs, paths[..i + 1], depth) <= PreorderAll(fs, paths, depth)
  {
    assert paths[..i + 1][..i] == paths[..i];
    MoreIncluded(fs, paths, i + 1, depth);
  }

  lemma {:induction false} MoreIncluded(fs: Sources, paths: seq<string>, i: nat, depth: nat)
    requires depth <= MAX_INCLUDE_DEPTH && i <= |paths|
    ensures PreorderAll(fs, paths[..i], depth) <= PreorderAll(fs, paths, depth)
    decreases |paths| - i
  {
    if i == |paths| {
      assert paths[..i] == paths;
    } else {
      assert paths[..i + 1][..i] == paths[..i];
      MoreIncluded(fs, paths, i + 1, depth);
    }
  }

  // --- places in the include tree -------------------------------------------------------------------------

  /** The file at a place: which include of which include, and so on, of the root. */
  function FileAt(fs: Sources, root: string, a: seq<nat>): Option<string>
    decreases |a|
  {
    if a == [] then Some(root)
    else
      var up, n := FileAt(fs, root, a[..|a| - 1]), a[|a| - 1];
      if up.Some? && up.value in fs && n < |fs[up.value].includes| then Some(fs[up.value].includes[n]) else None
  }

  /** A file comes before all it includes, and they before what is listed after it. */
  ghost predicate Earlier(a: seq<nat>, b: seq<nat>) {
    exists k :: 0 <= k <= |a| && k < |b| && a[..k] == b[..k] && (k == |a| || a[k] < b[k])
  }

  /** `order` holds the files at all places, in this order; `at` says which is where. */
  ghost predicate InOrder(fs: Sources, root: string, order: seq<string>, at: seq<seq<nat>>) {
    && |at| == |order| && (forall i | 0 <= i < |at| :: FileAt(fs, root, at[i]) == Some(order[i]))
    && (forall i, j | 0 <= i < j < |at| :: Earlier(at[i], at[j]))
    && (forall a | FileAt(fs, root, a).Some? :: a in at)
  }

  ghost predicate FilesBelow(fs: Sources, path: string, n: nat, order: seq<string>, at: seq<seq<nat>>) {
    && |at| == |order| && (forall i | 0 <= i < |at| :: at[i] != [] && at[i][0] < n)
    && (forall i | 0 <= i < |at| :: FileAt(fs, path, at[i]) == Some(order[i]))
  }

  /** The same of the places below the first `n` includes of the root. */
  ghost predicate BelowInOrder(fs: Sources, root: string, n: nat, order: seq<string>, at: seq<seq<nat>>) {
    && FilesBelow(fs, root, n, order, at)
    && (forall i, j | 0 <= i < j < |at| :: Earlier(at[i], at[j]))
    && (forall a | FileAt(fs, root, a).Some? && a != [] && a[0] < n :: a in at)
  }

  lemma {:induction false} FileBelow(fs: Sources, root: string, n: nat, a: seq<nat>)
    ensures FileAt(fs, root, [n] + a) ==
            if root in fs && n < |fs[root].includes| then FileAt(fs, fs[root].includes[n], a) else None
    decreases |a|
  {
    var b := [n] + a;
    if a == [] {
      assert b[..0] == [] && FileAt(fs, root, []) == Some(root);
    } else {
      FileBelow(fs, root, n, a[..|a| - 1]);
      assert b[..|b| - 1] == [n] + a[..|a| - 1] && b[|b| - 1] == a[|a| - 1];
    }
  }

  lemma EarlierBelow(n: nat, a: seq<nat>, b: seq<nat>)
    requires Earlier(a, b)
    ensures Earlier([n] + a, [n] + b)
  {
    var k :| 0 <= k <= |a| && k < |b| && a[..k] == b[..k] && (k == |a| || a[k] < b[k]);
    var a2, b2 := [n] + a, [n] + b;
    assert a2[..k + 1] == [n] + a[..k] == [n] + b[..k] == b2[..k + 1];
  }

  lemma EarlierFirst(a: seq<nat>, b: seq<nat>)
    requires b != [] && (a == [] || a[0] < b[0])
    ensures Earlier(a, b)
  {
    assert a[..0] == b[..0];
  }

  lemma {:induction false} PreorderPlaced(fs: Sources, path: string, depth: nat, c: seq<string>)
    returns (at: seq<seq<nat>>)
    requires c != [] && c[|c| - 1] == path && |c| == depth + 1 && Chain(fs, c) && AllFine(fs, c)
    ensures InOrder(fs, path, Preorder(fs, path, depth), at)
    decreases MAX_INCLUDE_DEPTH + 1 - depth, 1, 0
  {
    hide AllFine, FileAt;
    NowFine(fs, c);
    var below := IncludesPlaced(fs, path, depth, c, |fs[path].includes|);
    assert fs[path].includes[..|fs[path].includes|] == fs[path].includes;
    at := RootPlaced(fs, path, PreorderAll(fs, fs[path].includes, depth), below);
  }

  lemma NowFine(fs: Sources, c: seq<string>)
    requires c != [] && Chain(fs, c) && AllFine(fs, c)
    ensures Fine(fs, c)
  {
    assert c + [] == c;
  }

  lemma RootPlaced(fs: Sources, path: string, order: seq<string>, below: seq<seq<nat>>) returns (at: seq<seq<nat>>)
    requires path in fs && BelowInOrder(fs, path, |fs[path].includes|, order, below)
    ensures InOrder(fs, path, [path] + order, at)
  {
    at := [[]] + below;
    assert FileAt(fs, path, []) == Some(path);
    hide FileAt, Earlier;
    RootFirst(below);
    forall a | FileAt(fs, path, a).Some? ensures a in at {
      if a == [] {
        assert at[0] == a;
      } else {
        PlaceBelow(fs, path, a);
        assert a in below;
      }
    }
  }

  lemma PlaceBelow(fs: Sources, path: string, a: seq<nat>)
    requires FileAt(fs, path, a).Some? && a != []
    ensures path in fs && a[0] < |fs[path].includes|
  {
    assert a == [a[0]] + a[1..];
    FileBelow(fs, path, a[0], a[1..]);
  }

  lemma RootFirst(below: seq<seq<nat>>)
    requires forall i | 0 <= i < |below| :: below[i] != []
    requires forall i, j | 0 <= i < j < |below| :: Earlier(below[i], below[j])
    ensures var at := [[]] + below; forall i, j | 0 <= i < j < |at| :: Earlier(at[i], at[j])
  {
    hide Earlier;
    var at := [[]] + below;
    forall i, j | 0 <= i < j < |at| ensures Earlier(at[i], at[j]) {
      if i == 0 { EarlierFirst(at[i], at[j]); } else { assert at[i] == below[i - 1] && at[j] == below[j - 1]; }
    }
  }

  lemma {:induction false} IncludesPlaced(fs: Sources, path: string, depth: nat, c: seq<string>, n: nat)
    returns (at: seq<seq<nat>>)
    requires c != [] && c[|c| - 1] == path && |c| == depth + 1 <= 33 && Chain(fs, c) && AllFine(fs, c)
    requires path in fs && n <= |fs[path].includes|
    ensures BelowInOrder(fs, path, n, PreorderAll(fs, fs[path].includes[..n], depth), at)
    decreases MAX_INCLUDE_DEPTH + 1 - depth, 0, n
  {
    hide AllFine, FileAt, Earlier;
    var includes := fs[path].includes;
    if n == 0 {
      at := [];
    } else {
      var f := includes[n - 1];
      var before := IncludesPlaced(fs, path, depth, c, n - 1);
      Deeper(fs, c, f);
      StillFine(fs, c, f);
      var below := PreorderPlaced(fs, f, depth + 1, c + [f]);
      OneIncluded(fs, includes, n - 1, depth);
      at := IncludePlaced(fs, path, n - 1, PreorderAll(fs, includes[..n - 1], depth), before,
                          Preorder(fs, f, depth + 1),
                          below);
    }
  }

  lemma StillFine(fs: Sources, c: seq<string>, f: string)
    requires c != [] && AllFine(fs, c) && Chain(fs, c + [f])
    ensures AllFine(fs, c + [f])
  {
    forall rest: seq<string> | Chain(fs, c + [f] + rest) ensures Fine(fs, c + [f] + rest) {
      assert c + [f] + rest == c + ([f] + rest);
    }
  }

  /** Places below the `n`th include. */
  function Under(n: nat, below: seq<seq<nat>>): (r: seq<seq<nat>>)
    ensures |r| == |below| && forall i | 0 <= i < |r| :: r[i] == [n] + below[i]
  {
    seq(|below|, i requires 0 <= i < |below| => [n] + below[i])
  }

  lemma IncludePlaced(fs: Sources, path: string, n: nat, order: seq<string>, at: seq<seq<nat>>, more: seq<string>,
                      below: seq<seq<nat>>) returns (at2: seq<seq<nat>>)
    requires path in fs && n < |fs[path].includes| && BelowInOrder(fs, path, n, order, at)
    requires InOrder(fs, fs[path].includes[n], more, below)
    ensures BelowInOrder(fs, path, n + 1, order + more, at2)
  {
    hide FileAt, Earlier, Under;
    at2 := at + Under(n, below);
    UnderFiles(fs, path, n, more, below);
    FilesMore(fs, path, n + 1, order, at, more, Under(n, below));
    UnderLater(n, at, below);
    forall a | FileAt(fs, path, a).Some? && a != [] && a[0] < n + 1 ensures a in at2 {
      if a[0] == n { UnderAll(fs, path, n, more, below, a); } else { assert a in at; }
    }
  }

  lemma FilesMore(fs: Sources, path: string, n: nat, order: seq<string>, at: seq<seq<nat>>, more: seq<string>,
                  last: seq<seq<nat>>)
    requires FilesBelow(fs, path, n, order, at) && FilesBelow(fs, path, n, more, last)
    ensures FilesBelow(fs, path, n, order + more, at + last)
  {
    hide FileAt;
  }

  lemma UnderFiles(fs: Sources, path: string, n: nat, more: seq<string>, below: seq<seq<nat>>)
    requires path in fs && n < |fs[path].includes| && InOrder(fs, fs[path].includes[n], more, below)
    ensures FilesBelow(fs, path, n + 1, more, Under(n, below))
  {
    hide FileAt, Earlier;
    forall i | 0 <= i < |below| ensures FileAt(fs, path, [n] + below[i]) == Some(more[i]) {
      FileBelow(fs, path, n, below[i]);
    }
  }

  lemma UnderAll(fs: Sources, path: string, n: nat, more: seq<string>, below: seq<seq<nat>>, a: seq<nat>)
    requires path in fs && n < |fs[path].includes| && InOrder(fs, fs[path].includes[n], more, below)
    requires FileAt(fs, path, a).Some? && a != [] && a[0] == n
    ensures a in Under(n, below)
  {
    hide FileAt, Earlier;
    assert a == [n] + a[1..];
    FileBelow(fs, path, n, a[1..]);
    var i :| 0 <= i < |below| && below[i] == a[1..];
    assert Under(n, below)[i] == a;
  }

  lemma UnderLater(n: nat, at: seq<seq<nat>>, below: seq<seq<nat>>)
    requires forall i | 0 <= i < |at| :: at[i] != [] && at[i][0] < n
    requires forall i, j | 0 <= i < j < |at| :: Earlier(at[i], at[j])
    requires forall i, j | 0 <= i < j < |below| :: Earlier(below[i], below[j])
    ensures var at2 := at + Under(n, below); forall i, j | 0 <= i < j < |at2| :: Earlier(at2[i], at2[j])
  {
    hide Earlier, Under;
    var at2 := at + Under(n, below);
    forall i, j | 0 <= i < j < |at2| ensures Earlier(at2[i], at2[j]) {
      if j >= |at| {
        assert at2[j] == [n] + below[j - |at|];
        if i >= |at| {
          assert at2[i] == [n] + below[i - |at|];
          EarlierBelow(n, below[i - |at|], below[j - |at|]);
        } else {
          EarlierFirst(at2[i], at2[j]);
        }
      }
    }
  }

  lemma OneMore(fs: Sources, order: seq<string>, path: string)
    requires path in fs && forall f | f in order :: f in fs
    ensures forall f | f in order + [path] :: f in fs
    ensures MergeAll(Docs(fs, order + [path])) ==
              if MergeAll(Docs(fs, order)).None? then Some(fs[path].doc)
              else Some(Merge(MergeAll(Docs(fs, order)).value, fs[path].doc))
  {
    hide Merge;
    assert Docs(fs, order + [path])[..|order|] == Docs(fs, order);
  }

  lemma Deeper(fs: Sources, here: seq<string>, f: string)
    requires here != [] && Chain(fs, here) && here[|here| - 1] in fs && f in fs[here[|here| - 1]].includes
    ensures Chain(fs, here + [f])
  {
  }

  lemma BelowFine(fs: Sources, chain: seq<string>, path: string)
    requires path in fs && path !in chain && |chain| <= MAX_INCLUDE_DEPTH && NoneTwice(chain)
    requires forall f | f in fs[path].includes :: AllFine(fs, chain + [path] + [f])
    ensures AllFine(fs, chain + [path])
  {
    var here := chain + [path];
    forall rest: seq<string> | Chain(fs, here + rest) ensures Fine(fs, here + rest) {
      if rest == [] {
        assert here + rest == here;
      } else {
        var c := here + rest;
        assert c[|chain|] == path && c[|chain| + 1] == rest[0];
        assert rest[0] in fs[path].includes;
        assert here + [rest[0]] + rest[1..] == c;
      }
    }
  }
}
