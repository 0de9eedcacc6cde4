/** Rolling logs (`crates/command-runner/src/log_tail.rs`): at the cap the file restarts with a
    marker and the recent tail. A byte is written as a `char`. */
module LogTail {
  const LIMIT: nat := 16 * 1024 * 1024
  function Marker(): string { "[synora: older output discarded; retaining recent log tail]\n" }

  function Less(a: nat, b: nat): nat { if a < b then 0 else a - b }

  function Last(s: string, n: nat): string { s[Less(|s|, n)..] }

  predicate Suffix(a: string, b: string) { |a| <= |b| && b[|b| - |a|..] == a }

  /** Only the end of an oversized chunk is written. */
  function Clipped(data: string, limit: nat): string { Last(data, limit / 2) }

  function Kept(content: string, limit: nat): string { Last(content, Less(limit / 2, |Marker()|)) }

  /** From the start of the first whole line, if there is one. */
  function AfterFirstLine(tail: string): string
    ensures Suffix(AfterFirstLine(tail), tail)
  {
    if '\n' !in tail then tail else if tail[0] == '\n' then tail[1..] else AfterFirstLine(tail[1..])
  }

  /** The chunk no longer fits. */
  predicate Rolls(content: string, data: string, limit: nat) { |content| + |Clipped(data, limit)| > limit }

  function Appended(content: string, data: string, limit: nat): string {
    var chunk := Clipped(data, limit);
    if Rolls(content, data, limit) then Marker() + AfterFirstLine(Kept(content, limit)) + chunk else content + chunk
  }

  /** What the file is to hold: the new chunk, or the last half limit of it, after all that was there
      if that fits; else after the marker and the recent output that leaves room for, from its first
      line start on if it has one. */
  ghost predicate Becomes(content: string, data: string, limit: nat, now: string) {
    var half := limit / 2;
    var chunk := if |data| <= half then data else data[|data| - half..];
    if |content| + |chunk| <= limit then
      now == content + chunk
    else
      var room := if half <= 60 then 0 else half - 60;
      var tail := if |content| <= room then content else content[|content| - room..];
      exists line, rest | now == "[synora: older output discarded; retaining recent log tail]\n" + rest + chunk ::
        '\n' !in line && if '\n' in tail then tail == line + "\n" + rest else tail == line == rest
  }

  lemma LineSplit(tail: string) returns (line: string)
    ensures '\n' !in line
    ensures if '\n' in tail then tail == line + "\n" + AfterFirstLine(tail) else tail == line == AfterFirstLine(tail)
  {
    hide AfterFirstLine;
    var n := 0;
    while n < |tail| && tail[n] != '\n'
      invariant n <= |tail| && '\n' !in tail[..n]
    {
      n := n + 1;
    }
    FirstLine(tail, n);
    line := tail[..n];
    if n < |tail| {
      assert tail == tail[..n] + [tail[n]] + tail[n + 1..];
    } else {
      assert tail[..n] == tail;
    }
  }

  lemma AppendedBecomes(content: string, data: string, limit: nat)
    ensures Becomes(content, data, limit, Appended(content, data, limit))
  {
    hide AfterFirstLine;
    if |content| + |Clipped(data, limit)| > limit {
      MarkerShape();
      var line := LineSplit(Kept(content, limit));
    }
  }

  /** A line that starts later in the tail is in what follows the first one. */
  lemma LaterLine(tail: string, at: nat)
    requires at < |tail| && tail[at] == '\n'
    ensures Suffix(tail[at + 1..], AfterFirstLine(tail))
  {
    var line := LineSplit(tail);
    var rest := AfterFirstLine(tail);
    assert tail[..|line|] == line && tail[|line| + 1..] == rest;
  }

  /** The whole lines there is room for survive a rollover: `b` may be any of the old content's ends
      that start a line. */
  lemma LinesKept(content: string, data: string, limit: nat, a: string, b: string)
    requires |content| + |data| > limit && |data| <= limit / 2
    requires content == a + "\n" + b && |b| + 61 <= limit / 2
    ensures Suffix(b + data, Appended(content, data, limit))
  {
    hide Marker, AfterFirstLine;
    MarkerShape();
    var tail := Kept(content, limit);
    assert content[|content| - |b|..] == b && content[|content| - |b| - 1] == '\n';
    var at := |tail| - |b| - 1;
    assert tail[at] == '\n' && tail[at + 1..] == b;
    var rest := AfterFirstLine(tail);
    LaterLine(tail, at);
    SuffixAppend(b, rest, data);
    SuffixTrans(b + data, rest + data, Marker() + (rest + data));
    assert Marker() + rest + data == Marker() + (rest + data);
  }

  method FirstWholeLine(tail: string) returns (start: nat)
    ensures start <= |tail| && tail[start..] == AfterFirstLine(tail)
  {
    start := 0;
    while start < |tail| && tail[start] != '\n'
      invariant start <= |tail| && '\n' !in tail[..start]
    {
      start := start + 1;
    }
    FirstLine(tail, start);
    start := if start < |tail| then start + 1 else 0;
  }

  /** What an append can leave behind, wherever it stops: a beginning of the new content, after
      all of the old one if nothing is rolled over. */
  ghost predicate Stage(content: string, data: string, limit: nat, now: string) {
    now == content || (now <= Appended(content, data, limit) && (!Rolls(content, data, limit) ==> content <= now))
  }

  class LogFile {
    var content: string
    /** Every content the file has had. */
    ghost var history: seq<string>

    constructor ()
      ensures content == "" && history == [""]
    {
      content, history := "", [""];
    }

    ghost predicate Current()
      reads this
    {
      history != [] && history[|history| - 1] == content
    }

    /** `write_all`: piece by piece, until all is written or a write fails. */
    method WriteAll(data: string, faults: bool) returns (ok: bool)
      requires Current()
      modifies this
      ensures Current() && old(history) <= history && (ok ==> content == old(content) + data)
      ensures !faults ==> ok
      ensures forall i | |old(history)| <= i < |history| :: old(content) <= history[i] <= old(content) + data
    {
      var done: nat := 0;
      assert old(content) + data[..0] == old(content);
      while done < |data|
        invariant done <= |data| && Current() && old(history) <= history
        invariant content == old(content) + data[..done]
        invariant forall i | |old(history)| <= i < |history| :: old(content) <= history[i] <= old(content) + data
      {
        var ioFails: bool := *;
        if faults && ioFails { return false; }
        var n :| done < n <= |data|;
        assert data[..done] + data[done..n] == data[..n];
        assert old(content) + data[..n] <= old(content) + data;
        content := content + data[done..n];
        history := history + [content];
        done := n;
      }
      assert data[..done] == data;
      ok := true;
    }

    /** Truncate and rewrite: the marker, then the whole lines of the recent tail. */
    method Restart(limit: nat, faults: bool) returns (ok: bool)
      requires Current()
      modifies this
      ensures Current() && old(history) <= history && Truncated(old(history), history)
      ensures var next := Marker() + AfterFirstLine(Kept(old(content), limit));
              && (ok ==> content == next) && (!faults ==> ok)
              && forall i | |old(history)| <= i < |history| :: history[i] <= next
    {
      hide AfterFirstLine, Marker, Current;
      var room := Less(limit / 2, |Marker()|);
      var retained := if room < |content| then room else |content|;
      var tail := content[|content| - retained..];
      assert tail == Kept(content, limit);
      hide Kept, Less;
      var firstLine := FirstWholeLine(tail);
      ok := Rewrite(Marker(), tail[firstLine..], faults);
    }

    method Rewrite(first: string, second: string, faults: bool) returns (ok: bool)
      requires Current()
      modifies this
      ensures Current() && old(history) <= history && Truncated(old(history), history)
      ensures (ok ==> content == first + second) && (!faults ==> ok)
      ensures forall i | |old(history)| <= i < |history| :: history[i] <= first + second
    {
      content, history := "", history + [""];
      ok := WriteAll(first, faults);
      assert "" + first == first <= first + second;
      if ok { ok := WriteAll(second, faults); }
    }

    /** `append_with_limit`, with `faults` if the lock or a write may fail. A rollover goes through the
        empty file, and nothing else ever takes away what is there already. */
    method Append(data: string, limit: nat, faults: bool) returns (ok: bool)
      requires Current()
      modifies this
      ensures Current() && old(history) <= history && (ok ==> content == Appended(old(content), data, limit))
      ensures (ok ==> Becomes(old(content), data, limit, content)) && (!faults ==> ok)
      ensures forall i | |old(history)| <= i < |history| :: Stage(old(content), data, limit, history[i])
      ensures ok && Rolls(old(content), data, limit) ==> Truncated(old(history), history)
      ensures ok && old(content) != "" ==>
                ((exists i | |old(history)| <= i < |history| :: !(old(content) <= history[i])) <==>
                 Rolls(old(content), data, limit))
    {
      hide AfterFirstLine, Marker, Kept, Clipped, Becomes;
      AppendedBecomes(content, data, limit);
      var locked: bool := *;
      if faults && !locked { return false; }
      var chunk := Clipped(data, limit);
      if |content| + |chunk| > limit {
        ok := Restart(limit, faults);
        if !ok { return; }
      }
      ok := WriteAll(chunk, faults);
    }
  }

  /** The first thing to happen is that the file is emptied. */
  ghost predicate Truncated(before: seq<string>, history: seq<string>) {
    |before| < |history| && history[|before|] == ""
  }

  /** A rollover cut short shows that output is missing exactly if all of the marker was written. */
  lemma CutShowsLossIff(content: string, data: string, limit: nat, now: string)
    requires Rolls(content, data, limit) && now <= Appended(content, data, limit)
    ensures Marker() <= now <==> |now| >= |Marker()|
    ensures |now| < |Marker()| ==> now <= Marker()
  {
    hide Marker, AfterFirstLine, Kept, Clipped;
    var rest := AfterFirstLine(Kept(content, limit)) + Clipped(data, limit);
    assert Appended(content, data, limit) == Marker() + rest;
  }

  lemma {:induction false} FirstLine(tail: string, n: nat)
    requires n <= |tail| && '\n' !in tail[..n] && (n < |tail| ==> tail[n] == '\n')
    ensures AfterFirstLine(tail) == if n < |tail| then tail[n + 1..] else tail
    decreases n
  {
    if n == |tail| {
      assert tail[..n] == tail;
    } else if n > 0 {
      assert tail[1..][..n - 1] == tail[..n][1..];
      FirstLine(tail[1..], n - 1);
    }
  }

  // --- the cap -------------------------------------------------------------------------------------

  lemma MarkerShape()
    ensures |Marker()| == 60
  {
  }

  ghost predicate NeverExceeds(limit: nat) {
    forall content, data | |content| <= limit :: |Appended(content, data, limit)| <= limit
  }

  /** Appending keeps every file within the limit exactly when the limit is at least twice the
      marker length less one, or so small that nothing is ever written. */
  lemma CapHoldsIff(limit: nat)
    ensures NeverExceeds(limit) <==> limit <= 1 || limit >= 2 * |Marker()| - 1
  {
    hide Marker, Appended;
    MarkerShape();
    if limit <= 1 || limit >= 2 * |Marker()| - 1 {
      forall content, data | |content| <= limit ensures |Appended(content, data, limit)| <= limit {
        CapHolds(content, data, limit);
      }
    } else {
      CapFails(limit, seq(limit, i => 'x'), seq(limit / 2, i => 'x'));
    }
  }

  lemma CapHolds(content: string, data: string, limit: nat)
    requires |content| <= limit && (limit <= 1 || limit >= 2 * |Marker()| - 1)
    ensures |Appended(content, data, limit)| <= limit
  {
    hide Marker, AfterFirstLine;
    var tail := Kept(content, limit);
    assert Suffix(AfterFirstLine(tail), tail);
  }

  lemma CapFails(limit: nat, content: string, data: string)
    requires 2 <= limit < 2 * |Marker()| - 1 && |content| == limit && |data| == limit / 2
    ensures |Appended(content, data, limit)| > limit
  {
    hide Marker, AfterFirstLine;
    assert Clipped(data, limit) == data;
  }

  lemma DefaultCap()
    ensures NeverExceeds(LIMIT)
  {
    MarkerShape();
    CapHoldsIff(LIMIT);
  }

  // --- what is in the file ---------------------------------------------------------------------------

  /** Everything written so far, or the marker and the end of it. */
  ghost predicate TailOf(content: string, stream: string) {
    content == stream || exists s :: content == Marker() + s && Suffix(s, stream)
  }

  lemma SuffixTrans(a: string, b: string, c: string)
    requires Suffix(a, b) && Suffix(b, c)
    ensures Suffix(a, c)
  {
  }

  lemma SuffixAppend(a: string, b: string, d: string)
    requires Suffix(a, b)
    ensures Suffix(a + d, b + d)
  {
    assert (b + d)[|b| - |a|..] == b[|b| - |a|..] + d;
  }

  lemma LastOfSuffix(m: string, s: string, n: nat)
    requires n <= |s|
    ensures Last(m + s, n) == Last(s, n)
  {
  }

  lemma KeptTail(content: string, stream: string, limit: nat, chunk: nat)
    requires TailOf(content, stream) && |content| + chunk > limit && chunk <= limit / 2
    ensures Suffix(Kept(content, limit), stream)
  {
    hide Marker;
    MarkerShape();
    if content != stream {
      var s :| content == Marker() + s && Suffix(s, stream);
      LastOfSuffix(Marker(), s, Less(limit / 2, |Marker()|));
      SuffixTrans(Kept(content, limit), s, stream);
    }
  }

  lemma Rolled(content: string, stream: string, chunk: string, limit: nat)
    requires TailOf(content, stream) && |content| + |chunk| > limit && |chunk| <= limit / 2
    ensures TailOf(Marker() + AfterFirstLine(Kept(content, limit)) + chunk, stream + chunk)
  {
    hide Marker, AfterFirstLine, Kept;
    var rest := AfterFirstLine(Kept(content, limit));
    KeptTail(content, stream, limit, |chunk|);
    SuffixTrans(rest, Kept(content, limit), stream);
    SuffixAppend(rest, stream, chunk);
    assert Marker() + rest + chunk == Marker() + (rest + chunk);
  }

  lemma Fitted(content: string, stream: string, chunk: string)
    requires TailOf(content, stream)
    ensures TailOf(content + chunk, stream + chunk)
  {
    hide Marker;
    if content != stream {
      var s :| content == Marker() + s && Suffix(s, stream);
      SuffixAppend(s, stream, chunk);
      assert content + chunk == Marker() + (s + chunk);
    }
  }

  /** Whatever the limits and chunks: the file holds what was written, or the marker and the end
      of it, and ends with the last chunk. An old marker cannot survive a rollover: the kept
      tail is shorter than what follows the marker. */
  lemma TailKept(content: string, stream: string, data: string, limit: nat)
    requires TailOf(content, stream)
    ensures TailOf(Appended(content, data, limit), stream + Clipped(data, limit))
    ensures Suffix(Clipped(data, limit), Appended(content, data, limit))
  {
    hide Marker, AfterFirstLine, Kept, TailOf;
    var chunk := Clipped(data, limit);
    if |content| + |chunk| > limit {
      Rolled(content, stream, chunk, limit);
    } else {
      Fitted(content, stream, chunk);
    }
  }

  function Written(chunks: seq<string>, limit: nat): string {
    if chunks == [] then "" else Written(chunks[..|chunks| - 1], limit) + Clipped(chunks[|chunks| - 1], limit)
  }

  function Stream(chunks: seq<string>): string {
    if chunks == [] then "" else Stream(chunks[..|chunks| - 1]) + chunks[|chunks| - 1]
  }

  function Replay(chunks: seq<string>, limit: nat): string {
    if chunks == [] then "" else Appended(Replay(chunks[..|chunks| - 1], limit), chunks[|chunks| - 1], limit)
  }

  lemma {:induction false} ReplayTail(chunks: seq<string>, limit: nat)
    ensures TailOf(Replay(chunks, limit), Written(chunks, limit))
    ensures limit <= 1 || limit >= 2 * |Marker()| - 1 ==> |Replay(chunks, limit)| <= limit
  {
    if chunks != [] {
      var init, last := chunks[..|chunks| - 1], chunks[|chunks| - 1];
      ReplayTail(init, limit);
      TailKept(Replay(init, limit), Written(init, limit), last, limit);
      CapHoldsIff(limit);
    }
  }

  /** A whole run of chunks of at most half the limit: nothing but old output is ever lost, and
      what is left is always the end of the stream. */
  lemma {:induction false} RunTail(chunks: seq<string>, limit: nat)
    requires forall c | c in chunks :: |c| <= limit / 2
    ensures TailOf(Replay(chunks, limit), Stream(chunks))
    ensures chunks != [] ==> Suffix(chunks[|chunks| - 1], Replay(chunks, limit))
    ensures |Stream(chunks)| <= limit ==> Replay(chunks, limit) == Stream(chunks)
  {
    hide Marker, AfterFirstLine, Kept, TailOf;
    WrittenAll(chunks, limit);
    ReplayTail(chunks, limit);
    if chunks != [] {
      var init, last := chunks[..|chunks| - 1], chunks[|chunks| - 1];
      ReplayTail(init, limit);
      TailKept(Replay(init, limit), Written(init, limit), last, limit);
      RunTail(init, limit);
    }
  }

  lemma {:induction false} WrittenAll(chunks: seq<string>, limit: nat)
    requires forall c | c in chunks :: |c| <= limit / 2
    ensures Written(chunks, limit) == Stream(chunks)
  {
    if chunks != [] { WrittenAll(chunks[..|chunks| - 1], limit); }
  }

  /** Output is lost without a marker exactly when a chunk of more than half the limit comes while
      its last half limit still fits; then its beginning is what is lost. */
  lemma SilentLossIff(content: string, data: string, limit: nat)
    ensures !Rolls(content, data, limit) && Appended(content, data, limit) != content + data
            <==> |data| > limit / 2 && |content| + limit / 2 <= limit
    ensures |data| > limit / 2 && |content| + limit / 2 <= limit ==>
              Appended(content, data, limit) == content + data[|data| - limit / 2..]
    ensures Rolls(content, data, limit) ==> Marker() <= Appended(content, data, limit)
  {
    hide Marker, AfterFirstLine;
    if |data| <= limit / 2 {
      assert Clipped(data, limit) == data;
    } else {
      assert |Appended(content, data, limit)| < |content + data| || Rolls(content, data, limit);
    }
    if Rolls(content, data, limit) {
      var rest := AfterFirstLine(Kept(content, limit));
      assert Marker() + rest + Clipped(data, limit) == Marker() + (rest + Clipped(data, limit));
    }
  }
}
