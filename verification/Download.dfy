/** Resumable downloads (`do_download` in `synora-scripts/github-release.py`) against a server
    whose object may change between any two requests, with a crash possible after any step. */
module Download {
  import opened Prelude

  type Bytes = seq<bv8>

  const DOWNLOAD_ATTEMPTS: nat := 5

  /** `remote_digest`: absent or empty, not of the form `sha256:` and 64 hex digits, or usable. */
  datatype Digest = NoDigest | Malformed(text: string) | Sha256(hex: string)

  /** What identifies a download; a negative size is unknown. */
  datatype Source = Source(url: string, timestamp: int, size: int, digest: Digest)

  datatype State = State(source: Source, validator: Option<string>)

  /** The `.json` file beside the part file. */
  datatype Metadata = Missing | Unreadable | Saved(state: State)

  datatype Disk = Disk(part: Option<Bytes>, metadata: Metadata, published: Option<Bytes>)

  // --- the server ------------------------------------------------------------------------

  /** Every version an object ever has, the version a validator stands for, and SHA-256. */
  datatype World = World(content: (string, nat) -> Bytes, owner: (string, string) -> nat, hash: Bytes -> string)

  /** `offset` asks for a range if positive; `ifRange` goes with it if the state has a validator. */
  datatype Request = Request(url: string, offset: nat, ifRange: Option<string>)

  datatype Range = Range(first: nat, last: nat, total: nat)

  /** No usable response (with the HTTP status if there was one), or headers and a body that
      arrives in chunks and may end in an error. */
  datatype Response =
    | Failed(cause: Option<nat>)
    | Reply(status: nat, encoded: bool, validator: Option<string>, range: Option<Range>, chunks: seq<Bytes>,
            broken: bool)

  function Flatten(chunks: seq<Bytes>): Bytes {
    if chunks == [] then [] else Flatten(chunks[..|chunks| - 1]) + chunks[|chunks| - 1]
  }

  /** Sections 13.1.5 (If-Range) and 15.3.7 (206) of RFC 9110: the body is one version's, from
      the start or from the stated offset; a 206 to a conditional range is of the version its
      validator stands for; a validator sent along stands for the version sent. */
  ghost predicate Honest(w: World, q: Request, r: Response) {
    r.Reply? && !r.encoded ==> exists v :: OfVersion(w, q, r, v)
  }

  predicate OfVersion(w: World, q: Request, r: Response, v: nat)
    requires r.Reply?
  {
    var c := w.content(q.url, v);
    && (r.validator.Some? ==> w.owner(q.url, r.validator.value) == v)
    && (r.status == 200 ==> Flatten(r.chunks) <= c)
    && (r.status == 206 && r.range.Some? ==>
        r.range.value.first <= |c| && Flatten(r.chunks) <= c[r.range.value.first..])
    && (r.status == 206 && q.offset > 0 && q.ifRange.Some? ==> w.owner(q.url, q.ifRange.value) == v)
  }

  // --- what the files mean ---------------------------------------------------------------------

  ghost predicate PrefixOfSome(w: World, url: string, part: Bytes) { exists v :: part <= w.content(url, v) }

  /** Without a digest to fall back on, the part file is the beginning of one version, of the
      validator's version if the state has one. */
  ghost predicate Genuine(w: World, s: State, part: Bytes) {
    s.source.digest.Sha256? || (
      && PrefixOfSome(w, s.source.url, part)
      && (s.validator.Some? ==> part <= w.content(s.source.url, w.owner(s.source.url, s.validator.value))))
  }

  ghost predicate Sound(w: World, d: Disk) {
    d.part.Some? && d.metadata.Saved? ==> Genuine(w, d.metadata.state, d.part.value)
  }

  /** What a published file promises. */
  ghost predicate Faithful(w: World, source: Source, file: Bytes) {
    && (source.size >= 0 ==> |file| == source.size)
    && (if source.digest.Sha256? then w.hash(file) == source.digest.hex else PrefixOfSome(w, source.url, file))
  }

  ghost predicate SafeStep(w: World, source: Source, published: Option<Bytes>, d: Disk) {
    Sound(w, d) && (d.published == published || (d.published.Some? && Faithful(w, source, d.published.value)))
  }

  /** Without a digest, a file of known size is the beginning of some version, and it is all of a
      version it begins exactly when that version has the advertised size. */
  lemma WholeVersion(w: World, source: Source, file: Bytes)
    requires Faithful(w, source, file) && source.size >= 0 && !source.digest.Sha256?
    ensures exists v :: file <= w.content(source.url, v)
    ensures forall v | file <= w.content(source.url, v) ::
              file == w.content(source.url, v) <==> |w.content(source.url, v)| == source.size
    ensures (exists v :: file == w.content(source.url, v)) <==>
              exists v :: file <= w.content(source.url, v) && |w.content(source.url, v)| == source.size
  {
    if v :| file == w.content(source.url, v) { assert file <= w.content(source.url, v); }
  }

  /** An attempt that gets as far as publishing: the headers are accepted, the body ends without an
      error at the advertised size, and the digest is right. */
  predicate Completes(w: World, source: Source, at: Option<nat>, part: Option<Bytes>, r: Response)
    requires r.Reply? && (at.Some? && at.value > 0 ==> part.Some?)
  {
    at.Some? && !r.broken
    && var file := (if at.value == 0 then [] else part.value) + Flatten(r.chunks);
       (source.size >= 0 ==> |file| == source.size) && (source.digest.Sha256? ==> w.hash(file) == source.digest.hex)
  }

  /** A server whose object has three bytes where two are advertised, and a connection that ends
      after two: what `Take` publishes then is no version the object ever has. */
  lemma TruncatedVersion() returns (w: World, source: Source, q: Request, r: Response)
    ensures q == Request(source.url, 0, None) && Honest(w, q, r) && r.Reply?
            && Accept(source, State(source, None), 0, r) == Some(0)
    ensures Completes(w, source, Some(0), None, r)
    ensures forall v :: Flatten(r.chunks) != w.content(source.url, v) && Flatten(r.chunks) <= w.content(source.url, v)
  {
    var body: Bytes := [1, 2, 3];
    w := World((_, _) => body, (_, _) => 0, _ => "");
    source := Source("u", 0, 2, NoDigest);
    q := Request("u", 0, None);
    r := Reply(200, false, None, None, [body[..2]], false);
    assert r.chunks[..0] == [] && Flatten(r.chunks) == [] + body[..2] == body[..2];
    assert OfVersion(w, q, r, 0);
  }

  /** With a digest and no collisions, the file is the object the digest was taken of. */
  lemma DigestDecides(w: World, source: Source, file: Bytes, v: nat)
    requires Faithful(w, source, file) && source.digest.Sha256? && w.hash(w.content(source.url, v)) == source.digest.hex
    requires forall a, b | w.hash(a) == w.hash(b) :: a == b
    ensures file == w.content(source.url, v)
  {
  }

  // --- the transfer ------------------------------------------------------------------------------

  datatype Outcome = Published | IntegrityError | HttpError | Exhausted

  datatype Attempt = Done | Retry | Raise(o: Outcome)

  /** A range as asked for: from the offset on, inside an object of the advertised size. */
  predicate Sent(range: Range, source: Source, offset: nat) {
    range.first == offset && offset <= range.last < range.total && (source.size < 0 || range.total == source.size)
  }

  /** The checks on a response's headers; the offset at which its body belongs. */
  function Accept(source: Source, s: State, offset: nat, r: Response): (at: Option<nat>)
    requires r.Reply?
    ensures at.Some? ==> !r.encoded && (r.status == 200 || r.status == 206)
    ensures at.Some? && r.status == 200 ==> at.value == 0
    ensures at.Some? && r.status == 206 ==> at.value == offset && r.range.Some? && r.range.value.first == offset
    ensures at.Some? && r.status == 206 && source.size >= 0 ==> r.range.value.total == source.size
    ensures !r.encoded && r.status == 200 ==> at == Some(0)
    ensures !r.encoded && r.status == 206 && r.range.Some? && Sent(r.range.value, source, offset)
            && (offset == 0 || r.validator.None? || s.validator.None? || r.validator == s.validator) ==>
                 at == Some(offset)
  {
    if r.encoded then None
    else if r.status == 206 then
      if r.range.None? || r.range.value.first != offset || r.range.value.last < offset then None
      else if r.range.value.last >= r.range.value.total || (source.size >= 0 && r.range.value.total != source.size)
          then None
      else if offset > 0 && r.validator.Some? && s.validator.Some? && r.validator != s.validator then None
      else Some(offset)
    else if r.status == 200 then Some(0)
    else None
  }

  /** Statuses worth another attempt. */
  predicate Transient(status: Option<nat>) { status.None? || status.value in {408, 429} || status.value >= 500 }

  /** All that is promised of a published file: the advertised size, if there is one, and the digest. */
  predicate Right(w: World, source: Source, file: Bytes) {
    && (source.size >= 0 ==> |file| == source.size)
    && (source.digest.Sha256? ==> w.hash(file) == source.digest.hex)
  }

  /** A whole response to a request from the start, or from `offset` on. */
  predicate Full(source: Source, s: State, offset: nat, r: Response) {
    && r.Reply? && !r.encoded && !r.broken
    && if offset == 0 then r.status == 200
       else && r.status == 206 && r.range.Some? && Sent(r.range.value, source, offset)
            && (r.validator.None? || s.validator.None? || r.validator == s.validator)
  }

  /** What `Try` does when the part file is there in full, or the answer to its request is whole: what
      it has, and where it goes on from. */
  predicate Finishes(w: World, source: Source, s: State, part: Option<Bytes>, answers: Request -> Response, file: Bytes)
  {
    var has := if part.Some? then part.value else [];
    if part.Some? && source.size >= 0 && |has| == source.size then file == has && Right(w, source, file)
    else if source.size >= 0 && 0 < |has| < source.size && (s.validator.Some? || source.digest.Sha256?) then
      var r := answers(Request(source.url, |has|, s.validator));
      Full(source, s, |has|, r) && file == has + Flatten(r.chunks) && Right(w, source, file)
    else
      var r := answers(Request(source.url, 0, None));
      Full(source, s, 0, r) && file == Flatten(r.chunks) && Right(w, source, file)
  }

  /** The server answers everything with this status. */
  ghost predicate Refuses(answers: Request -> Response, code: nat) {
    forall q :: answers(q) == Failed(Some(code))
  }

  class Downloader {
    const w: World
    var disk: Disk
    ghost var history: seq<Disk>
    ghost var before: Option<Bytes>

    /** On what an earlier call left; without a part file any disk will do. */
    constructor (w: World, disk: Disk)
      requires Sound(w, disk) || disk.part.None?
      ensures this.w == w && this.disk == disk && Sound(w, this.disk)
      ensures forall source :: Safe(source)
    {
      this.w, this.disk := w, disk;
      history, before := [disk], disk.published;
    }

    /** Every state of the disk since the call began keeps the promises, so a crash after any
        step leaves files a later call can start from. */
    ghost predicate Safe(source: Source)
      reads this
    {
      && history != [] && history[|history| - 1] == disk
      && forall i | 0 <= i < |history| :: SafeStep(w, source, before, history[i])
    }

    method Commit(d: Disk, ghost source: Source)
      requires Safe(source) && SafeStep(w, source, before, d)
      modifies this`disk, this`history
      ensures Safe(source) && disk == d && history == old(history) + [d]
    {
      disk, history := d, history + [d];
    }

    /** `publish`. */
    method Publish(source: Source) returns (ok: bool)
      requires Safe(source) && disk.part.Some? && (source.size >= 0 ==> |disk.part.value| == source.size)
      requires !source.digest.Malformed? && (source.digest.NoDigest? ==> PrefixOfSome(w, source.url, disk.part.value))
      modifies this`disk, this`history
      ensures Safe(source) && old(history) <= history
      ensures ok ==>
                disk.published == old(disk).part && Faithful(w, source, disk.published.value) && disk.part.None?
                && disk.metadata.Missing?
      ensures !ok ==> disk == old(disk).(part := None, metadata := Missing)
      ensures ok <==> source.digest.Sha256? ==> w.hash(old(disk).part.value) == source.digest.hex
    {
      hide Genuine, PrefixOfSome;
      if source.digest.Sha256? && w.hash(disk.part.value) != source.digest.hex {
        Commit(disk.(part := None), source);
        Commit(disk.(metadata := Missing), source);
        return false;
      }
      Commit(disk.(part := None, published := disk.part), source);
      Commit(disk.(metadata := Missing), source);
      return true;
    }

    /** The body is appended chunk by chunk until it ends or grows past the advertised size. */
    method Receive(source: Source, s: State, at: nat, r: Response, ghost v: nat) returns (tooLong: bool)
      requires Safe(source) && s.source == source && !source.digest.Malformed? && r.Reply? && disk.part.Some?
               && |disk.part.value| == at && disk.metadata == Saved(s)
      requires source.digest.NoDigest? ==> Fits(w, s, disk.part.value, r, v)
      modifies this`disk, this`history
      ensures Safe(source) && old(history) <= history && disk.part.Some? && disk.metadata == Saved(s)
      ensures Genuine(w, s, disk.part.value) && disk.published == old(disk).published
      ensures !tooLong ==> disk.part.value == old(disk).part.value + Flatten(r.chunks)
      ensures tooLong ==>
                source.size >= 0 && |old(disk).part.value + Flatten(r.chunks)| >= |disk.part.value| > source.size
    {
      ghost var start := disk.part.value;
      assert start + Flatten(r.chunks[..0]) == start;
      for i := 0 to |r.chunks|
        invariant Safe(source) && old(history) <= history && disk.metadata == Saved(s)
                  && disk.published == old(disk).published
        invariant disk.part == Some(start + Flatten(r.chunks[..i]))
      {
        Grow(start, r.chunks, i);
        if source.digest.NoDigest? { FitsPart(w, s, start, r, v, i + 1); }
        if r.chunks[i] != [] {
          Commit(disk.(part := Some(disk.part.value + r.chunks[i])), source);
        }
        if source.size >= 0 && |disk.part.value| > source.size && r.chunks[i] != [] {
          FlattenPrefix(r.chunks, i + 1);
          return true;
        }
      }
      assert r.chunks[..|r.chunks|] == r.chunks;
      if source.digest.NoDigest? { FitsPart(w, s, start, r, v, |r.chunks|); }
      return false;
    }

    /** One attempt: publish what is already complete, or ask for the rest. */
    method Try(source: Source, s: State, answers: Request -> Response) returns (a: Attempt, s2: State)
      requires Safe(source) && s.source == source && !source.digest.Malformed?
               && (disk.part.Some? ==> disk.metadata == Saved(s))
      requires forall q :: Honest(w, q, answers(q))
      modifies this`disk, this`history
      ensures Safe(source) && old(history) <= history && s2.source == source
      ensures a.Retry? ==> disk.part.Some? ==> disk.metadata == Saved(s2)
      ensures a.Done? ==>
                disk.published.Some? && Faithful(w, source, disk.published.value) && disk.part.None?
                && disk.metadata.Missing?
      ensures !a.Done? ==> disk.published == old(disk).published
      ensures a.Raise? ==> a.o.IntegrityError? || a.o.HttpError?
      ensures forall file | Finishes(w, source, s, old(disk).part, answers, file) ::
                a.Done? && disk.published == Some(file)
      ensures forall code | Refuses(answers, code) && code < 500 && code != 408 && code != 429 :: !a.Retry?
      ensures a == Raise(HttpError) ==>
                exists q: Request :: q.url == source.url && answers(q).Failed? && answers(q).cause.Some?
                            && answers(q).cause.value < 500 && answers(q).cause.value !in {408, 429}
    {
      hide SafeStep, PrefixOfSome, Honest, Accept, Fits;
      s2 := s;
      var offset := if disk.part.Some? then |disk.part.value| else 0;
      KnownGenuine(w, source, before, disk);
      if source.size >= 0 && offset > source.size {
        NoPart(w, source, before, disk);
        Commit(disk.(part := None), source);
        offset := 0;
      }
      if source.size >= 0 && disk.part.Some? && offset == source.size {
        var ok := Publish(source);
        return if ok then Done else Raise(IntegrityError), s;
      }
      if source.size < 0 || !(s.validator.Some? || source.digest.Sha256?) { offset := 0; }
      var q := Request(source.url, offset, if offset > 0 then s.validator else None);
      var r := answers(q);
      assert Honest(w, q, r);
      if r.Failed? { return if Transient(r.cause) then Retry else Raise(HttpError), s; }
      ghost var kept := disk.part;
      a, s2 := Take(source, s, offset, q, r);
      forall file | Finishes(w, source, s, old(disk).part, answers, file)
        ensures a.Done? && disk.published == Some(file) {
        assert Full(source, s, offset, r);
        assert offset > 0 ==> Accept(source, s, offset, r) == Some(offset);
        assert offset == 0 ==> Accept(source, s, offset, r) == Some(0);
        assert file == (if offset == 0 then [] else kept.value) + Flatten(r.chunks);
      }
    }

    /** What is done with a response. */
    method Take(source: Source, s: State, offset: nat, ghost q: Request, r: Response) returns (a: Attempt, s2: State)
      requires Safe(source) && s.source == source && !source.digest.Malformed?
               && (disk.part.Some? ==> disk.metadata == Saved(s))
      requires r.Reply? && Honest(w, q, r) && q == Request(source.url, offset, if offset > 0 then s.validator else None)
      requires offset > 0 ==>
                 disk.part.Some? && |disk.part.value| == offset
                 && (s.validator.Some? || source.digest.Sha256?)
      modifies this`disk, this`history
      ensures Safe(source) && old(history) <= history && s2.source == source
      ensures a.Retry? ==> disk.part.Some? ==> disk.metadata == Saved(s2)
      ensures a.Done? <==> Completes(w, source, Accept(source, s, offset, r), old(disk).part, r)
      ensures a.Done? ==> disk.published == Some((if Accept(source, s, offset, r) == Some(0) then []
                                                  else old(disk).part.value) + Flatten(r.chunks))
      ensures a.Done? ==> Faithful(w, source, disk.published.value) && disk.part.None? && disk.metadata.Missing?
      ensures !a.Done? ==> disk.published == old(disk).published
      ensures a.Raise? ==> a.o.IntegrityError?
    {
      hide SafeStep, PrefixOfSome, Honest, Accept, Fits;
      s2 := s;
      KnownGenuine(w, source, before, disk);
      var at := Accept(source, s, offset, r);
      if at.None? { return Raise(IntegrityError), s; }
      s2 := s.(validator := r.validator);
      ghost var v := TheVersion(w, source, s, offset, q, r, at.value, disk.part);
      if at.value == 0 {
        EmptyPart(w, source, before, disk);
        Commit(disk.(part := Some([])), source);
      }
      SaveState(w, source, before, disk, s2, r, v);
      Commit(disk.(metadata := Saved(s2)), source);
      var tooLong := Receive(source, s2, at.value, r, v);
      if tooLong { return Raise(IntegrityError), s2; }
      if r.broken || (source.size >= 0 && |disk.part.value| != source.size) { return Retry, s2; }
      var ok := Publish(source);
      return if ok then Done else Raise(IntegrityError), s2;
    }

    /** `do_download`: at most five attempts, each starting from what the last one left. A first answer
        that is whole is published, after what was kept of an earlier call; every answer but a final
        one is worth another attempt. */
    method DoDownload(source: Source, answers: nat -> Request -> Response) returns (o: Outcome, ghost tries: nat)
      requires Sound(w, disk)
      requires forall i: nat, q :: Honest(w, q, answers(i)(q))
      modifies this
      ensures Safe(source) && before == old(disk).published && history[0] == old(disk)
      ensures if o.Published? then disk.published.Some? && Faithful(w, source, disk.published.value)
              else disk.published == before
      ensures tries <= 5 && (o.Exhausted? ==> tries == 5)
      ensures !source.digest.Malformed? ==>
                var kept := old(disk).metadata.Saved? && old(disk).metadata.state.source == source;
                var s := if kept then old(disk).metadata.state else State(source, None);
                forall file | Finishes(w, source, s, if kept then old(disk).part else None, answers(0), file) ::
                  o.Published? && disk.published == Some(file)
      ensures source.digest.Malformed? ==> o.IntegrityError?
      ensures o.HttpError? ==>
                exists i: nat, q: Request :: q.url == source.url && answers(i)(q).Failed? && answers(i)(q).cause.Some?
                                    && answers(i)(q).cause.value < 500 && answers(i)(q).cause.value !in {408, 429}
    {
      before, history := disk.published, [disk];
      var s := State(source, None);
      if disk.metadata.Saved? && disk.metadata.state.source == source {
        s := disk.metadata.state;
      } else {
        Commit(disk.(part := None), source);
      }
      if source.digest.Malformed? { return IntegrityError, 0; }
      tries := 0;
      ghost var s0, part0 := s, disk.part;
      for attempt: nat := 0 to DOWNLOAD_ATTEMPTS
        invariant Safe(source) && s.source == source && history[0] == old(disk)
        invariant disk.part.Some? ==> disk.metadata == Saved(s)
        invariant disk.published == before == old(disk).published && tries == attempt
        invariant attempt > 0 ==> forall file :: !Finishes(w, source, s0, part0, answers(0), file)
        invariant attempt == 0 ==> s == s0 && disk.part == part0
      {
        var a;
        a, s := Try(source, s, answers(attempt));
        tries := tries + 1;
        if a.Done? { return Published, tries; }
        if a.Raise? { return a.o, tries; }
      }
      return Exhausted, tries;
    }
  }

  /** The part file and the whole body are the beginning of version `v`. */
  ghost predicate Fits(w: World, s: State, part: Bytes, r: Response, v: nat)
    requires r.Reply?
  {
    && part + Flatten(r.chunks) <= w.content(s.source.url, v)
    && (s.validator.Some? ==> w.owner(s.source.url, s.validator.value) == v)
  }

  lemma {:induction false} FlattenPrefix(chunks: seq<Bytes>, i: nat)
    requires i <= |chunks|
    ensures Flatten(chunks[..i]) <= Flatten(chunks)
    decreases |chunks|
  {
    if i < |chunks| {
      assert chunks[..|chunks| - 1][..i] == chunks[..i];
      FlattenPrefix(chunks[..|chunks| - 1], i);
    } else {
      assert chunks[..i] == chunks;
    }
  }

  lemma KnownGenuine(w: World, source: Source, before: Option<Bytes>, d: Disk)
    requires SafeStep(w, source, before, d)
    ensures d.part.Some? && d.metadata.Saved? ==> Genuine(w, d.metadata.state, d.part.value)
  {
  }

  lemma NoPart(w: World, source: Source, before: Option<Bytes>, d: Disk)
    requires SafeStep(w, source, before, d)
    ensures SafeStep(w, source, before, d.(part := None))
  {
  }

  lemma EmptyPart(w: World, source: Source, before: Option<Bytes>, d: Disk)
    requires SafeStep(w, source, before, d)
    ensures SafeStep(w, source, before, d.(part := Some([])))
  {
    if d.metadata.Saved? {
      assert [] <= w.content(d.metadata.state.source.url, 0);
      assert PrefixOfSome(w, d.metadata.state.source.url, []);
    }
  }

  /** The version a response is of; what is kept of the part file belongs to it. */
  lemma TheVersion(w: World, source: Source, s: State, offset: nat, q: Request, r: Response, at: nat,
                   part: Option<Bytes>) returns (v: nat)
    requires s.source == source && r.Reply? && Honest(w, q, r) && Accept(source, s, offset, r) == Some(at)
    requires q == Request(source.url, offset, if offset > 0 then s.validator else None)
    requires offset > 0 ==> part.Some? && |part.value| == offset && (s.validator.Some? || source.digest.Sha256?)
    requires part.Some? ==> Genuine(w, s, part.value)
    ensures r.validator.Some? ==> w.owner(source.url, r.validator.value) == v
    ensures source.digest.NoDigest? ==> Fits(w, s.(validator := r.validator), if at == 0 then [] else part.value, r, v)
  {
    v :| OfVersion(w, q, r, v);
    var c := w.content(source.url, v);
    if source.digest.NoDigest? {
      if at == 0 {
        assert c[0..] == c;
        assert [] + Flatten(r.chunks) == Flatten(r.chunks);
      } else {
        Continues(part.value, Flatten(r.chunks), c);
      }
    }
  }

  lemma Continues(part: Bytes, rest: Bytes, c: Bytes)
    requires part <= c && rest <= c[|part|..]
    ensures part + rest <= c
  {
    assert c == part + c[|part|..];
  }

  lemma SaveState(w: World, source: Source, before: Option<Bytes>, d: Disk, s: State, r: Response, v: nat)
    requires SafeStep(w, source, before, d) && d.part.Some? && s.source == source && r.Reply?
    requires source.digest.NoDigest? ==> Fits(w, s, d.part.value, r, v)
    requires !source.digest.Malformed?
    ensures SafeStep(w, source, before, d.(metadata := Saved(s)))
  {
    if source.digest.NoDigest? {
      assert d.part.value + Flatten(r.chunks[..0]) == d.part.value;
      FitsPart(w, s, d.part.value, r, v, 0);
    }
  }

  lemma Grow(start: Bytes, chunks: seq<Bytes>, i: nat)
    requires i < |chunks|
    ensures start + Flatten(chunks[..i + 1]) == start + Flatten(chunks[..i]) + chunks[i]
    ensures chunks[i] == [] ==> start + Flatten(chunks[..i + 1]) == start + Flatten(chunks[..i])
  {
    assert chunks[..i + 1][..i] == chunks[..i];
    assert start + (Flatten(chunks[..i]) + chunks[i]) == start + Flatten(chunks[..i]) + chunks[i];
  }

  lemma FitsPart(w: World, s: State, part: Bytes, r: Response, v: nat, i: nat)
    requires r.Reply? && Fits(w, s, part, r, v) && i <= |r.chunks|
    ensures Genuine(w, s, part + Flatten(r.chunks[..i]))
  {
    FlattenPrefix(r.chunks, i);
    var some := part + Flatten(r.chunks[..i]);
    assert some <= part + Flatten(r.chunks) <= w.content(s.source.url, v);
    assert PrefixOfSome(w, s.source.url, some);
  }
}
