/** Validated access logs (`synora-scripts/pypi-runtime/logs.py`): records cached per file, and
    the window of recent ones put together from cached files. */
module AccessLogs {
  import opened Prelude

  const WINDOW: real := 604800.0
  const SKEW: real := 300.0

  /** A normalized request, as it is written to a cache file. */
  datatype Request = Request(stamp: real, text: string)

  /** What one line of a log is. */
  datatype Line = Blank | Unusable | Invalid | Good(request: Request)

  /** Device, inode, size and times of a file, in whatever form they compare. */
  type Fingerprint = seq<int>

  /** A cache entry's name: the file's path and whether it has the legacy format. */
  datatype Key = Key(path: string, legacy: bool)

  datatype Summary = Summary(identity: Fingerprint, count: nat, rejected: nat, earliest: real, latest: real, bytes: nat)

  datatype Disk = Disk(data: map<Key, seq<Request>>, metadata: map<Key, Summary>, output: Option<seq<Request>>)

  /** How lines parse, how long a request is when written, and the content behind a fingerprint. */
  datatype World = World(parse: (bool, string) -> Line, size: Request -> nat, content: Fingerprint -> seq<string>)

  // --- validation -------------------------------------------------------------------------

  /** The requests of a file: nothing if any line is invalid, unusable and blank lines apart. */
  function Validated(w: World, legacy: bool, lines: seq<string>): Option<seq<Request>> {
    if lines == [] then Some([])
    else
      var init := Validated(w, legacy, lines[..|lines| - 1]);
      if init.None? then None
      else match w.parse(legacy, lines[|lines| - 1])
        case Invalid => None
        case Good(r) => Some(init.value + [r])
        case _ => init
  }

  function Size(w: World, rs: seq<Request>): nat {
    if rs == [] then 0 else Size(w, rs[..|rs| - 1]) + w.size(rs[|rs| - 1])
  }

  /** Timestamps are positive: others make a line invalid. */
  ghost predicate Positive(w: World) { forall b, l | w.parse(b, l).Good? :: w.parse(b, l).request.stamp > 0.0 }

  /** A summary describes the requests beside it. */
  ghost predicate Describes(w: World, s: Summary, rs: seq<Request>) {
    && s.count == |rs| && s.bytes == Size(w, rs) && 0.0 <= s.latest
    && (forall i | 0 <= i < |rs| :: s.earliest <= rs[i].stamp <= s.latest)
    && (rs == [] ==> s.earliest == 0.0 && s.latest == 0.0)
    && (rs != [] ==>
         (exists i | 0 <= i < |rs| :: rs[i].stamp == s.earliest)
         && exists i | 0 <= i < |rs| :: rs[i].stamp == s.latest)
  }

  // --- the window ---------------------------------------------------------------------------

  predicate InWindow(now: real, r: Request) { now - WINDOW <= r.stamp <= now + SKEW }

  function Recent(now: real, rs: seq<Request>): seq<Request> {
    if rs == [] then []
    else Recent(now, rs[..|rs| - 1]) + if InWindow(now, rs[|rs| - 1]) then [rs[|rs| - 1]] else []
  }

  lemma {:induction false} AllRecent(now: real, rs: seq<Request>)
    requires forall i | 0 <= i < |rs| :: InWindow(now, rs[i])
    ensures Recent(now, rs) == rs
  {
    if rs != [] { AllRecent(now, rs[..|rs| - 1]); }
  }

  lemma {:induction false} NoneRecent(now: real, rs: seq<Request>)
    requires forall i | 0 <= i < |rs| :: !InWindow(now, rs[i])
    ensures Recent(now, rs) == []
  {
    if rs != [] { NoneRecent(now, rs[..|rs| - 1]); }
  }

  // --- line by line -----------------------------------------------------------------------------

  /** `out` holds, in order, the requests to keep of all the good lines; `at` says where they are. */
  ghost predicate Picked(w: World, keep: Request -> bool, legacy: bool, lines: seq<string>, out: seq<Request>,
                         at: seq<nat>)
  {
    && |at| == |out| && (forall k | 0 <= k < |at| :: at[k] < |lines|)
    && (forall k | 0 <= k < |at| :: w.parse(legacy, lines[at[k]]) == Good(out[k]) && keep(out[k]))
    && (forall k, l | 0 <= k < l < |at| :: at[k] < at[l])
    && (forall j | 0 <= j < |lines| && w.parse(legacy, lines[j]).Good? && keep(w.parse(legacy, lines[j]).request) ::
          j in at)
  }

  ghost predicate AnyInvalid(w: World, legacy: bool, lines: seq<string>) {
    exists j | 0 <= j < |lines| :: w.parse(legacy, lines[j]).Invalid?
  }

  function Everything(): Request -> bool { (r: Request) => true }

  function Last7Days(now: real): Request -> bool { (r: Request) => now - 604800.0 <= r.stamp <= now + 300.0 }

  lemma PickedOne(w: World, keep: Request -> bool, legacy: bool, lines: seq<string>, line: string, out: seq<Request>,
                  at: seq<nat>, r: Request)
    requires Picked(w, keep, legacy, lines, out, at) && w.parse(legacy, line) == Good(r) && keep(r)
    ensures Picked(w, keep, legacy, lines + [line], out + [r], at + [|lines|])
  {
    var lines2, at2 := lines + [line], at + [|lines|];
    forall k | 0 <= k < |at2| ensures w.parse(legacy, lines2[at2[k]]) == Good((out + [r])[k]) && keep((out + [r])[k]) {
      if k < |at| { assert lines2[at[k]] == lines[at[k]]; }
    }
    forall j | 0 <= j < |lines2| && w.parse(legacy, lines2[j]).Good? && keep(w.parse(legacy, lines2[j]).request)
      ensures j in at2 {
      if j < |lines| {
        assert lines2[j] == lines[j] && j in at;
      } else {
        assert at2[|at|] == j;
      }
    }
  }

  lemma PickedNone(w: World, keep: Request -> bool, legacy: bool, lines: seq<string>, line: string, out: seq<Request>,
                   at: seq<nat>)
    requires Picked(w, keep, legacy, lines, out, at)
    requires w.parse(legacy, line).Good? ==> !keep(w.parse(legacy, line).request)
    ensures Picked(w, keep, legacy, lines + [line], out, at)
  {
    var lines2 := lines + [line];
    forall k | 0 <= k < |at| ensures lines2[at[k]] == lines[at[k]] {}
    forall j | 0 <= j < |lines2| && w.parse(legacy, lines2[j]).Good? && keep(w.parse(legacy, lines2[j]).request)
      ensures j in at {
      assert j < |lines| && lines2[j] == lines[j];
    }
  }

  lemma PickedMore(w: World, keep: Request -> bool, legacy: bool, lines: seq<string>, out: seq<Request>, at: seq<nat>)
    returns (at2: seq<nat>)
    requires lines != [] && Picked(w, keep, legacy, lines[..|lines| - 1], out, at)
    ensures var n := w.parse(legacy, lines[|lines| - 1]);
            Picked(w, keep, legacy, lines, if n.Good? && keep(n.request) then out + [n.request] else out, at2)
  {
    hide Picked;
    var i := |lines| - 1;
    var n := w.parse(legacy, lines[i]);
    assert lines[..i] + [lines[i]] == lines;
    if n.Good? && keep(n.request) {
      PickedOne(w, keep, legacy, lines[..i], lines[i], out, at, n.request);
      at2 := at + [|lines[..i]|];
    } else {
      PickedNone(w, keep, legacy, lines[..i], lines[i], out, at);
      at2 := at;
    }
  }

  lemma RecentMore(now: real, rs: seq<Request>, r: Request)
    ensures Recent(now, rs + [r]) == if Last7Days(now)(r) then Recent(now, rs) + [r] else Recent(now, rs)
  {
    assert (rs + [r])[..|rs|] == rs;
  }

  /** Validation fails exactly at an invalid line; else it gives every request, and the window filter
      those of the last seven days, in the order of the lines. */
  lemma {:induction false} LinesAre(w: World, now: real, legacy: bool, lines: seq<string>)
    returns (all: seq<nat>, recent: seq<nat>)
    ensures Validated(w, legacy, lines).None? <==> AnyInvalid(w, legacy, lines)
    ensures Validated(w, legacy, lines).Some? ==>
              var rs := Validated(w, legacy, lines).value;
              && Picked(w, Everything(), legacy, lines, rs, all)
              && Picked(w, Last7Days(now), legacy, lines, Recent(now, rs), recent)
  {
    hide Picked, Recent, AnyInvalid;
    if lines == [] {
      all, recent := [], [];
      NothingPicked(w, now, legacy);
    } else {
      var i := |lines| - 1;
      all, recent := LinesAre(w, now, legacy, lines[..i]);
      OneInvalid(w, legacy, lines);
      var init := Validated(w, legacy, lines[..i]);
      if init.Some? {
        all := PickedMore(w, Everything(), legacy, lines, init.value, all);
        recent := PickedMore(w, Last7Days(now), legacy, lines, Recent(now, init.value), recent);
        match w.parse(legacy, lines[i]) {
          case Good(r) => RecentMore(now, init.value, r);
          case _ =>
        }
      }
    }
  }

  lemma OneInvalid(w: World, legacy: bool, lines: seq<string>)
    requires lines != []
    ensures AnyInvalid(w, legacy, lines) <==>
            AnyInvalid(w, legacy, lines[..|lines| - 1]) || w.parse(legacy, lines[|lines| - 1]).Invalid?
  {
    var i := |lines| - 1;
    forall j | 0 <= j < i ensures lines[..i][j] == lines[j] {}
  }

  lemma NothingPicked(w: World, now: real, legacy: bool)
    ensures Picked(w, Everything(), legacy, [], [], [])
    ensures Picked(w, Last7Days(now), legacy, [], Recent(now, []), [])
    ensures !AnyInvalid(w, legacy, [])
  {
  }

  // --- the cache on disk ------------------------------------------------------------------------

  /** Metadata never describes other data than its own file's. */
  ghost predicate Sound(w: World, d: Disk) {
    forall k | k in d.metadata && k in d.data :: Matches(w, k, d.metadata[k], d.data[k])
  }

  ghost predicate Matches(w: World, k: Key, s: Summary, rs: seq<Request>) {
    Describes(w, s, rs) && Validated(w, k.legacy, w.content(s.identity)) == Some(rs)
  }

  /** Reading a file: its fingerprint, the lines (if it could be read), its fingerprint after. */
  datatype Reading = Reading(before: Fingerprint, lines: Option<seq<string>>, after: Fingerprint)

  /** An unchanged fingerprint means the content behind it was read. */
  ghost predicate Steady(w: World, r: Reading) {
    r.lines.Some? && r.after == r.before ==> r.lines.value == w.content(r.before)
  }

  /** A log file found by the search, in search order. */
  datatype LogFile = LogFile(key: Key, regular: bool, mtime: real)

  predicate Selected(now: real, f: LogFile) { f.regular && f.mtime >= now - WINDOW }

  datatype Prepared = Ready(count: nat) | Empty | Failed

  /** What the file held: the content behind its fingerprint, or what was read while it changed. */
  ghost predicate Reflects(w: World, r: Reading, lines: seq<string>) {
    (lines == w.content(r.before) || r.lines == Some(lines)) && (r.after == r.before ==> lines == w.content(r.before))
  }

  /** The plain definition: validate every selected file, keep what is in the window. */
  function PlainWindow(w: World, now: real, files: seq<LogFile>, seen: seq<seq<string>>): Option<seq<Request>>
    requires |seen| == |files|
    decreases |files|
  {
    if files == [] then Some([])
    else
      var n := |files| - 1;
      var init := PlainWindow(w, now, files[..n], seen[..n]);
      if init.None? || !Selected(now, files[n]) then init
      else
        var rs := Validated(w, files[n].key.legacy, seen[n]);
        if rs.None? then None else Some(init.value + Recent(now, rs.value))
  }

  /** The file is one to read, and the entry is its own. */
  predicate FileRead(now: real, f: LogFile, k: Key) { f.regular && f.mtime >= now - 604800.0 && f.key == k }

  datatype Place = Place(file: nat, line: nat)

  /** A line of a file to read that holds a request of the last seven days. */
  ghost predicate Counts(w: World, now: real, files: seq<LogFile>, seen: seq<seq<string>>, at: Place, r: Request) {
    && at.file < |files| == |seen| && files[at.file].regular && files[at.file].mtime >= now - 604800.0
    && at.line < |seen[at.file]| && w.parse(files[at.file].key.legacy, seen[at.file][at.line]) == Good(r)
    && now - 604800.0 <= r.stamp <= now + 300.0
  }

  predicate Before(a: Place, b: Place) { a.file < b.file || (a.file == b.file && a.line < b.line) }

  /** `out` holds those requests, all of them, in the order of files and lines. */
  ghost predicate WindowOf(w: World, now: real, files: seq<LogFile>, seen: seq<seq<string>>, out: seq<Request>,
                           at: seq<Place>)
  {
    && |at| == |out| && (forall k | 0 <= k < |at| :: Counts(w, now, files, seen, at[k], out[k]))
    && (forall k, l | 0 <= k < l < |at| :: Before(at[k], at[l]))
    && (forall p, r | Counts(w, now, files, seen, p, r) :: p in at)
  }

  /** A file to read that cannot be used. */
  ghost predicate Rotten(w: World, now: real, f: LogFile, lines: seq<string>) {
    f.regular && f.mtime >= now - 604800.0 && AnyInvalid(w, f.key.legacy, lines)
  }

  /** The plain definition, line by line. */
  lemma {:induction false} PlainIs(w: World, now: real, files: seq<LogFile>, seen: seq<seq<string>>)
    returns (at: seq<Place>)
    requires |seen| == |files|
    ensures PlainWindow(w, now, files, seen).None? <==> exists i | 0 <= i < |files| :: Rotten(w, now, files[i], seen[i])
    ensures PlainWindow(w, now, files, seen).Some? ==>
              WindowOf(w, now, files, seen, PlainWindow(w, now, files, seen).value, at)
    decreases |files|
  {
    hide Validated, Recent, Picked, AnyInvalid, WindowOf;
    if files == [] {
      at := [];
      NoWindow(w, now, seen);
    } else {
      var n := |files| - 1;
      at := PlainIs(w, now, files[..n], seen[..n]);
      forall i | 0 <= i < n ensures files[..n][i] == files[i] && seen[..n][i] == seen[i] {}
      var init := PlainWindow(w, now, files[..n], seen[..n]);
      if init.Some? {
        var all, recent := LinesAre(w, now, files[n].key.legacy, seen[n]);
        var rs := Validated(w, files[n].key.legacy, seen[n]);
        if Selected(now, files[n]) && rs.Some? {
          at := FileAdded(w, now, files, seen, init.value, at, Recent(now, rs.value), recent);
        } else if !Selected(now, files[n]) {
          FilePassed(w, now, files, seen, init.value, at);
        }
      }
    }
  }

  lemma NoneCount(w: World, now: real, files: seq<LogFile>, seen: seq<seq<string>>, at: seq<Place>)
    requires WindowOf(w, now, files, seen, [], at)
    ensures forall p, r :: !Counts(w, now, files, seen, p, r)
  {
  }

  lemma NoWindow(w: World, now: real, seen: seq<seq<string>>)
    ensures WindowOf(w, now, [], seen, [], [])
  {
  }

  lemma FilePassed(w: World, now: real, files: seq<LogFile>, seen: seq<seq<string>>, out: seq<Request>, at: seq<Place>)
    requires |seen| == |files| > 0 && !Selected(now, files[|files| - 1])
    requires WindowOf(w, now, files[..|files| - 1], seen[..|files| - 1], out, at)
    ensures WindowOf(w, now, files, seen, out, at)
  {
    var n := |files| - 1;
    forall p, r ensures Counts(w, now, files[..n], seen[..n], p, r) <==> Counts(w, now, files, seen, p, r) {}
  }

  lemma FileAdded(w: World, now: real, files: seq<LogFile>, seen: seq<seq<string>>, out: seq<Request>, at: seq<Place>,
                  more: seq<Request>, js: seq<nat>) returns (at2: seq<Place>)
    requires |seen| == |files| > 0 && Selected(now, files[|files| - 1])
    requires WindowOf(w, now, files[..|files| - 1], seen[..|files| - 1], out, at)
    requires Picked(w, Last7Days(now), files[|files| - 1].key.legacy, seen[|files| - 1], more, js)
    ensures WindowOf(w, now, files, seen, out + more, at2)
  {
    var n := |files| - 1;
    at2 := at + seq(|js|, k requires 0 <= k < |js| => Place(n, js[k]));
    forall p: Place, r | p.file < n
      ensures Counts(w, now, files[..n], seen[..n], p, r) <==> Counts(w, now, files, seen, p, r) {}
    forall k | 0 <= k < |at2| ensures Counts(w, now, files, seen, at2[k], (out + more)[k]) {
      if k >= |at| { assert at2[k] == Place(n, js[k - |at|]); }
    }
    forall p, r | Counts(w, now, files, seen, p, r) ensures p in at2 {
      if p.file < n {
        assert p in at;
      } else {
        assert p.line in js;
        var k :| 0 <= k < |js| && js[k] == p.line;
        assert at2[|at| + k] == p;
      }
    }
  }

  class Cache {
    const w: World
    var disk: Disk
    ghost var history: seq<Disk>

    /** On what an earlier call left; an empty cache is always sound. */
    constructor (w: World, disk: Disk)
      requires Positive(w) && (Sound(w, disk) || disk.metadata == map[])
      ensures Valid() && this.w == w && this.disk == disk && history == [disk]
    {
      this.w, this.disk, history := w, disk, [disk];
    }

    ghost predicate Valid()
      reads this
    {
      && Positive(w) && history != [] && history[|history| - 1] == disk
      && forall i | 0 <= i < |history| :: Sound(w, history[i])
    }

    lemma ValidSound()
      requires Valid()
      ensures Sound(w, disk)
    {
    }

    /** One atomic change on disk. */
    method Commit(d: Disk)
      requires Valid() && Sound(w, d)
      modifies this`disk, this`history
      ensures Valid() && disk == d && old(history) <= history
    {
      disk, history := d, history + [d];
    }

    /** The validation loop, with the counters of the summary. */
    method Validate(legacy: bool, identity: Fingerprint, lines: seq<string>)
      returns (ok: bool, rs: seq<Request>, s: Summary)
      requires Positive(w)
      ensures ok <==> Validated(w, legacy, lines).Some?
      ensures ok ==> Validated(w, legacy, lines) == Some(rs) && Describes(w, s, rs) && s.identity == identity
      ensures ok <==> !AnyInvalid(w, legacy, lines)
      ensures ok ==>
                && (exists at :: Picked(w, Everything(), legacy, lines, rs, at))
                && s.rejected == |Unusables(w, legacy, lines, |lines|)|
    {
      hide Validated, Describes, Counted, Positive, Unusables, Picked, AnyInvalid;
      ghost var all, recent := LinesAre(w, 0.0, legacy, lines);
      rs, s := [], Summary(identity, 0, 0, 0.0, 0.0, 0);
      NothingYet(w, legacy, s, lines);
      for i := 0 to |lines|
        invariant Validated(w, legacy, lines[..i]) == Some(rs) && Describes(w, s, rs) && s.identity == identity
        invariant s.rejected == |Unusables(w, legacy, lines, i)|
      {
        OneUnusable(w, legacy, lines, i);
        OneLine(w, legacy, lines, i, rs);
        Rejected(w, s, rs);
        match w.parse(legacy, lines[i]) {
          case Blank =>
          case Unusable => s := s.(rejected := s.rejected + 1);
          case Invalid =>
            InvalidStays(w, legacy, lines, i + 1);
            return false, rs, s;
          case Good(r) =>
            Stamped(w, legacy, lines[i]);
            OneMore(w, s, rs, r);
            s := Counted(w, s, r);
            rs := rs + [r];
        }
      }
      assert lines[..|lines|] == lines;
      return true, rs, s;
    }

    /** `validated_file`: reuse what matches; else validate, and leave metadata only for a file
        that did not change meanwhile. */
    method ValidatedFile(k: Key, r: Reading) returns (ok: bool, rs: seq<Request>, s: Summary, ghost seen: seq<string>)
      requires Valid() && Steady(w, r)
      modifies this`disk, this`history
      ensures Valid() && old(history) <= history && disk.output == old(disk).output
      ensures ok ==> k in disk.data && disk.data[k] == rs && Describes(w, s, rs)
      ensures ok ==> Validated(w, k.legacy, seen) == Some(rs) && (seen == w.content(r.before) || r.lines == Some(seen))
      ensures ok && r.after == r.before ==> seen == w.content(r.before)
      ensures var fits := k in old(disk).metadata && k in old(disk).data && old(disk).metadata[k].identity == r.before
                          && Size(w, old(disk).data[k]) == old(disk).metadata[k].bytes;
              && (ok <==> fits || (r.lines.Some? && !AnyInvalid(w, k.legacy, r.lines.value)))
              && (fits || !ok ==> disk == old(disk))
              && (!fits && ok ==>
                    disk.data == old(disk).data[k := rs]
                    && disk.metadata == if r.after == r.before then old(disk).metadata[k := s]
                                        else old(disk).metadata - {k})
    {
      hide Describes, Validated, Positive, AnyInvalid, Picked, Unusables;
      if k in disk.metadata && k in disk.data && disk.metadata[k].identity == r.before
          && Size(w, disk.data[k]) == disk.metadata[k].bytes {
        assert Matches(w, k, disk.metadata[k], disk.data[k]);
        return true, disk.data[k], disk.metadata[k], w.content(r.before);
      }
      rs, s, seen := [], Summary(r.before, 0, 0, 0.0, 0.0, 0), [];
      if r.lines.None? { return false, rs, s, seen; }
      seen := r.lines.value;
      ok, rs, s := Validate(k.legacy, r.before, r.lines.value);
      if !ok { return; }
      if k in disk.metadata { Commit(disk.(metadata := disk.metadata - {k})); }
      Commit(disk.(data := disk.data[k := rs]));
      if r.after == r.before {
        assert Matches(w, k, s, rs);
        Commit(disk.(metadata := disk.metadata[k := s]));
      }
    }

    /** The line filter over one cached file. */
    method FilterWindow(now: real, rs: seq<Request>) returns (out: seq<Request>)
      ensures out == Recent(now, rs)
    {
      out := [];
      for i := 0 to |rs|
        invariant out == Recent(now, rs[..i])
      {
        assert rs[..i + 1][..i] == rs[..i];
        if now - WINDOW <= rs[i].stamp <= now + SKEW { out := out + [rs[i]]; }
      }
      assert rs[..|rs|] == rs;
    }

    /** Whole-file copy, line filter or nothing, as the summary allows: always the window. */
    method Contribution(now: real, rs: seq<Request>, s: Summary) returns (out: seq<Request>)
      requires Describes(w, s, rs)
      ensures out == Recent(now, rs)
    {
      if s.count > 0 && now - WINDOW <= s.earliest && s.latest <= now + SKEW {
        AllRecent(now, rs);
        out := rs;
      } else if s.latest >= now - WINDOW && s.earliest <= now + SKEW {
        out := FilterWindow(now, rs);
      } else {
        NoneRecent(now, rs);
        out := [];
      }
    }

    /** `prepare`: the output is what filtering every selected file line by line would give, and
        it is replaced only when there is something in it. */
    method Prepare(files: seq<LogFile>, now: real, readings: nat -> Reading)
      returns (r: Prepared, ghost seen: seq<seq<string>>)
      requires Valid() && forall i :: Steady(w, readings(i))
      modifies this`disk, this`history
      ensures Valid() && old(history) <= history
      ensures r.Ready? ==>
                |seen| == |files| && disk.output == PlainWindow(w, now, files, seen) && disk.output.Some?
                && r.count == |disk.output.value| > 0
      ensures r.Empty? ==> |seen| == |files| && PlainWindow(w, now, files, seen) == Some([])
      ensures !r.Ready? ==> disk.output == old(disk).output
      ensures !r.Failed? ==>
                |seen| == |files|
                && forall i | 0 <= i < |files| && Selected(now, files[i]) :: Reflects(w, readings(i), seen[i])
      ensures r.Ready? ==>
                && (exists at :: WindowOf(w, now, files, seen, disk.output.value, at))
                && (forall k :: k in disk.data <==> exists i | 0 <= i < |files| :: FileRead(now, files[i], k))
                && disk.metadata.Keys <= disk.data.Keys
      ensures r.Empty? ==> forall p, q :: !Counts(w, now, files, seen, p, q)
      ensures r.Failed? ==>
                exists i | 0 <= i < |files| ::
                  && files[i].regular && files[i].mtime >= now - 604800.0
                  && (readings(i).lines.None? || AnyInvalid(w, files[i].key.legacy, readings(i).lines.value))
    {
      hide Validated, Recent, Describes, Steady, AnyInvalid, Counts, WindowOf;
      var out: seq<Request>, used: set<Key> := [], {};
      seen := [];
      for i := 0 to |files|
        invariant Valid() && old(history) <= history && disk.output == old(disk).output
        invariant |seen| == i && PlainWindow(w, now, files[..i], seen) == Some(out)
        invariant forall j | 0 <= j < i && Selected(now, files[j]) :: Reflects(w, readings(j), seen[j])
        invariant used <= disk.data.Keys
                  && forall k :: k in used <==> exists j | 0 <= j < i :: FileRead(now, files[j], k)
      {
        var k := files[i].key;
        ghost var lines: seq<string> := [];
        assert files[..i + 1][..i] == files[..i];
        if Selected(now, files[i]) {
          var ok, rs, s;
          ok, rs, s, lines := ValidatedFile(k, readings(i));
          if !ok { return Failed, seen; }
          var more := Contribution(now, rs, s);
          out, used := out + more, used + {k};
        }
        assert (seen + [lines])[..i] == seen;
        seen := seen + [lines];
      }
      assert files[..|files|] == files;
      ghost var at := PlainIs(w, now, files, seen);
      if out == [] {
        NoneCount(w, now, files, seen, at);
        return Empty, seen;
      }
      Commit(disk.(output := Some(out)));
      DropUnused(used);
      return Ready(|out|), seen;
    }

    /** Entries of files no longer selected, one unlink each, in any order. */
    method DropUnused(used: set<Key>)
      requires Valid()
      modifies this`disk, this`history
      ensures Valid() && old(history) <= history && disk.output == old(disk).output
      ensures disk.data == old(disk).data - (old(disk).data.Keys - used)
              && disk.metadata == old(disk).metadata - (old(disk).metadata.Keys - used)
    {
      hide Sound, Valid, Left;
      var data, metadata := disk.data.Keys - used, disk.metadata.Keys - used;
      ghost var d0, data0, metadata0 := disk, data, metadata;
      NothingDropped(d0, data0, metadata0);
      while data != {} || metadata != {}
        invariant Valid() && old(history) <= history
        invariant Left(disk, d0, data0, metadata0, data, metadata)
        decreases |data| + |metadata|
      {
        var first: bool := *;
        ValidSound();
        if data != {} && (first || metadata == {}) {
          var k :| k in data;
          DataDropped(w, disk, d0, data0, metadata0, data, metadata, k);
          Commit(disk.(data := disk.data - {k}));
          data := data - {k};
        } else {
          var k :| k in metadata;
          MetadataDropped(w, disk, d0, data0, metadata0, data, metadata, k);
          Commit(disk.(metadata := disk.metadata - {k}));
          metadata := metadata - {k};
        }
      }
      AllDropped(disk, d0, data0, metadata0);
    }
  }

  /** Of the entries to drop, `data` and `metadata` are still there. */
  ghost predicate Left(d: Disk, d0: Disk, data0: set<Key>, metadata0: set<Key>, data: set<Key>, metadata: set<Key>) {
    && data <= data0 && metadata <= metadata0
    && d == d0.(data := d0.data - (data0 - data), metadata := d0.metadata - (metadata0 - metadata))
  }

  lemma NothingDropped(d: Disk, data: set<Key>, metadata: set<Key>)
    ensures Left(d, d, data, metadata, data, metadata)
  {
    assert data - data == {} && metadata - metadata == {};
    assert d.data - {} == d.data && d.metadata - {} == d.metadata;
  }

  lemma AllDropped(d: Disk, d0: Disk, data0: set<Key>, metadata0: set<Key>)
    requires Left(d, d0, data0, metadata0, {}, {})
    ensures d == d0.(data := d0.data - data0, metadata := d0.metadata - metadata0)
  {
    assert data0 - {} == data0 && metadata0 - {} == metadata0;
  }

  lemma DataDropped(w: World, d: Disk, d0: Disk, data0: set<Key>, metadata0: set<Key>, data: set<Key>,
                    metadata: set<Key>, k: Key)
    requires Sound(w, d) && Left(d, d0, data0, metadata0, data, metadata) && k in data
    ensures Sound(w, d.(data := d.data - {k}))
            && Left(d.(data := d.data - {k}), d0, data0, metadata0, data - {k}, metadata)
  {
    hide Matches;
    assert data0 - (data - {k}) == (data0 - data) + {k};
  }

  lemma MetadataDropped(w: World, d: Disk, d0: Disk, data0: set<Key>, metadata0: set<Key>, data: set<Key>,
                        metadata: set<Key>, k: Key)
    requires Sound(w, d) && Left(d, d0, data0, metadata0, data, metadata) && k in metadata
    ensures Sound(w, d.(metadata := d.metadata - {k}))
            && Left(d.(metadata := d.metadata - {k}), d0, data0, metadata0, data, metadata - {k})
  {
    hide Matches;
    assert metadata0 - (metadata - {k}) == (metadata0 - metadata) + {k};
  }

  function Counted(w: World, s: Summary, r: Request): Summary {
    s.(count := s.count + 1, bytes := s.bytes + w.size(r),
       earliest := if s.count == 0 || r.stamp < s.earliest then r.stamp else s.earliest,
       latest := if s.latest < r.stamp then r.stamp else s.latest)
  }

  /** The lines left out for their path, among the first `n`. */
  ghost function Unusables(w: World, legacy: bool, lines: seq<string>, n: nat): set<nat>
    requires n <= |lines|
  {
    set i: nat | i < n && w.parse(legacy, lines[i]).Unusable?
  }

  lemma OneUnusable(w: World, legacy: bool, lines: seq<string>, n: nat)
    requires n < |lines|
    ensures |Unusables(w, legacy, lines, n + 1)| ==
            |Unusables(w, legacy, lines, n)| + if w.parse(legacy, lines[n]).Unusable? then 1 else 0
  {
    assert Unusables(w, legacy, lines, n + 1) ==
           Unusables(w, legacy, lines, n) + if w.parse(legacy, lines[n]).Unusable? then {n} else {};
  }

  lemma NothingYet(w: World, legacy: bool, s: Summary, lines: seq<string>)
    requires s.count == 0 && s.bytes == 0 && s.earliest == 0.0 && s.latest == 0.0
    ensures Validated(w, legacy, []) == Some([]) && Describes(w, s, []) && Unusables(w, legacy, lines, 0) == {}
  {
  }

  lemma OneLine(w: World, legacy: bool, lines: seq<string>, i: nat, rs: seq<Request>)
    requires i < |lines| && Validated(w, legacy, lines[..i]) == Some(rs)
    ensures Validated(w, legacy, lines[..i + 1]) ==
            match w.parse(legacy, lines[i]) { case Invalid => None case Good(r) => Some(rs + [r]) case _ => Some(rs) }
  {
    assert lines[..i + 1][..i] == lines[..i];
  }

  lemma Rejected(w: World, s: Summary, rs: seq<Request>)
    requires Describes(w, s, rs)
    ensures Describes(w, s.(rejected := s.rejected + 1), rs)
  {
  }

  lemma Stamped(w: World, legacy: bool, line: string)
    requires Positive(w) && w.parse(legacy, line).Good?
    ensures w.parse(legacy, line).request.stamp > 0.0
  {
  }

  lemma OneMore(w: World, s: Summary, rs: seq<Request>, r: Request)
    requires Describes(w, s, rs) && r.stamp > 0.0
    ensures Describes(w, Counted(w, s, r), rs + [r]) && Counted(w, s, r).identity == s.identity
    ensures Counted(w, s, r).rejected == s.rejected
  {
    var rs2, s2 := rs + [r], Counted(w, s, r);
    assert rs2[..|rs|] == rs && rs2[|rs|] == r;
    forall i | 0 <= i < |rs| ensures rs2[i] == rs[i] {}
    if rs != [] {
      var i :| 0 <= i < |rs| && rs[i].stamp == s.earliest;
      var j :| 0 <= j < |rs| && rs[j].stamp == s.latest;
      assert rs2[if s2.earliest == r.stamp then |rs| else i].stamp == s2.earliest;
      assert rs2[if s2.latest == r.stamp then |rs| else j].stamp == s2.latest;
    }
  }

  lemma {:induction false} InvalidStays(w: World, legacy: bool, lines: seq<string>, i: nat)
    requires i <= |lines| && Validated(w, legacy, lines[..i]).None?
    ensures Validated(w, legacy, lines).None?
    decreases |lines|
  {
    if i == |lines| {
      assert lines[..i] == lines;
    } else {
      assert lines[..|lines| - 1][..i] == lines[..i];
      InvalidStays(w, legacy, lines[..|lines| - 1], i);
    }
  }
}
