/** When jobs are due: the persisted schedule rows, the ticks that dispatch them and move them
    on, and the reloads that replace them. */
module Schedule {
  import opened Prelude

  /** `Interval` carries whole seconds; `Calendar` stands for cron, daily and weekly times. */
  datatype Kind = Interval(every: nat) | Calendar(expr: string) | Manual | Startup

  datatype Misfire = Skip | RunImmediately | RunNext

  datatype Spec = Spec(kind: Kind, timezone: string, misfire: Misfire)

  /** A row of `schedules`. */
  datatype Row = Row(kind: Kind, timezone: string, misfire: Misfire, next: Option<int>, anchor: Option<int>)

  /** Calendar times: the next one strictly after an instant, if any. */
  type Calendars = f: (Kind, string, int) -> Option<int> | forall k, z, t :: f(k, z, t).Some? ==> f(k, z, t).value > t
    witness (k, z, t) => None

  function Period(every: nat): nat { if every < 1 then 1 else every }

  predicate OnGrid(anchor: int, every: nat, t: int) { t >= anchor && (t - anchor) % Period(every) == 0 }

  // --- the next slot of an interval ------------------------------------------------------

  function GridNext(anchor: int, every: nat, now: int): int {
    var span := if now - anchor < 0 then 0 else now - anchor;
    anchor + (span / Period(every) + 1) * Period(every)
  }

  lemma Multiple(k: int, p: nat)
    requires p > 0
    ensures (k * p) % p == 0
  {
    ModuloUnique(k * p, p, k, 0);
  }

  lemma ModuloUnique(a: int, p: nat, q: int, r: int)
    requires p > 0 && 0 <= r < p && a == q * p + r
    ensures a % p == r
  {
    var q2, r2 := a / p, a % p;
    assert a == p * q2 + r2;
    assert (q2 - q) * p == r - r2;
    BigMultiple(q2 - q, p);
  }

  lemma BigMultiple(d: int, p: int)
    requires p > 0
    ensures d >= 1 ==> d * p >= p
    ensures d <= -1 ==> d * p <= -p
  {
    if d >= 1 { assert (d - 1) * p >= 0; }
    if d <= -1 { assert (-d - 1) * p >= 0; }
  }

  /** On the grid and strictly later than now; the least such slot once the anchor has passed,
      and one period after an anchor still to come. */
  lemma GridNextIs(anchor: int, every: nat, now: int)
    ensures var next := GridNext(anchor, every, now);
            && OnGrid(anchor, every, next) && next > now
            && (anchor <= now ==> forall t | now < t < next :: !OnGrid(anchor, every, t))
            && (anchor > now ==> next == anchor + Period(every))
  {
    var p := Period(every);
    var span := if now - anchor < 0 then 0 else now - anchor;
    var k := span / p;
    assert span == k * p + span % p;
    assert (k + 1) * p == k * p + p;
    Multiple(k + 1, p);
    if anchor <= now {
      forall t | now < t < anchor + (k + 1) * p ensures !OnGrid(anchor, every, t) {
        ModuloUnique(t - anchor, p, k, t - anchor - k * p);
      }
    }
  }

  // --- rows -----------------------------------------------------------------------------------

  function NextAfter(cal: Calendars, kind: Kind, zone: string, now: int, anchor: Option<int>): Option<int> {
    match kind
    case Interval(every) => Some(GridNext(if anchor.Some? then anchor.value else now, every, now))
    case Calendar(_) => cal(kind, zone, now)
    case Manual | Startup => None
  }

  predicate Unchanged(was: Option<Row>, spec: Spec) {
    was.Some? && was.value.kind == spec.kind && was.value.timezone == spec.timezone
  }

  /** `sync_schedule_for`: an unchanged schedule keeps its due time and anchor; a changed
      interval is anchored anew, due at once at boot and one period later on a reload. The
      upsert keeps the stored anchor when it is given none. */
  function SyncedRow(cal: Calendars, was: Option<Row>, spec: Spec, now: int, immediate: bool): Row {
    var kept := if was.Some? then was.value.anchor else None;
    if Unchanged(was, spec) then was.value.(misfire := spec.misfire)
    else match spec.kind
      case Manual | Startup => Row(spec.kind, spec.timezone, spec.misfire, None, kept)
      case Interval(every) =>
        Row(spec.kind, spec.timezone, spec.misfire, Some(if immediate then now else now + Period(every)), Some(now))
      case Calendar(_) =>
        Row(spec.kind, spec.timezone, spec.misfire, NextAfter(cal, spec.kind, spec.timezone, now, None), kept)
  }

  /** `recompute_next`: from the wall clock and the stored anchor, by the job's live schedule. */
  function Recomputed(cal: Calendars, row: Row, spec: Spec, now: int): Row {
    row.(next := NextAfter(cal, spec.kind, row.timezone, now, row.anchor))
  }

  /** An interval row has an anchor and is due on the anchor's grid. */
  predicate Aligned(row: Row) {
    row.kind.Interval? ==>
      row.anchor.Some? && row.next.Some?
      && OnGrid(row.anchor.value, row.kind.every, row.next.value)
  }

  lemma SyncKeepsGrid(cal: Calendars, was: Option<Row>, spec: Spec, now: int, immediate: bool)
    requires was.Some? ==> Aligned(was.value)
    ensures Aligned(SyncedRow(cal, was, spec, now, immediate))
    ensures !Unchanged(was, spec) && SyncedRow(cal, was, spec, now, immediate).next.Some? ==>
              SyncedRow(cal, was, spec, now, immediate).next.value >= now
  {
    if spec.kind.Interval? {
      var p := Period(spec.kind.every);
      assert 0 * p == 0 && 1 * p == p;
      Multiple(0, p);
      Multiple(1, p);
    }
  }

  lemma RecomputeKeepsGrid(cal: Calendars, row: Row, spec: Spec, now: int)
    ensures Aligned(row) && row.kind == spec.kind ==> Aligned(Recomputed(cal, row, spec, now))
    ensures Recomputed(cal, row, spec, now).next.Some? ==> Recomputed(cal, row, spec, now).next.value > now
  {
    if spec.kind.Interval? {
      GridNextIs(if row.anchor.Some? then row.anchor.value else now, spec.kind.every, now);
    }
  }

  /** What `sync_schedule_for` writes for a job: the due time and the anchor there were, if neither the
      schedule nor the time zone has changed; else an interval anchored now and first due at `first`,
      or the next calendar time, or nothing. */
  ghost predicate Written(cal: Calendars, was: Option<Row>, spec: Spec, now: int, first: int, row: Row) {
    && row.kind == spec.kind && row.timezone == spec.timezone && row.misfire == spec.misfire
    && if was.Some? && was.value.kind == spec.kind && was.value.timezone == spec.timezone
       then row.next == was.value.next && row.anchor == was.value.anchor
       else match spec.kind
         case Interval(_) => row.next == Some(first) && row.anchor == Some(now)
         case Calendar(_) => row.next == cal(spec.kind, spec.timezone, now)
         case Manual | Startup => row.next == None
  }

  /** An interval is due at once at boot, and one period, at least a second, later on a reload. */
  function FirstDue(spec: Spec, now: int, boot: bool): int {
    if boot || !spec.kind.Interval? then now else if spec.kind.every < 1 then now + 1 else now + spec.kind.every
  }

  lemma SyncWrites(cal: Calendars, was: Option<Row>, spec: Spec, now: int, boot: bool)
    ensures Written(cal, was, spec, now, FirstDue(spec, now, boot), SyncedRow(cal, was, spec, now, boot))
  {
  }

  /** A tick changes nothing of a row but its due time, to the first slot of the live schedule after
      now: of an interval, the first instant after now and after the anchor that is a whole number of
      periods from it. */
  lemma TickWrites(cal: Calendars, row: Row, spec: Spec, now: int)
    ensures var row2 := Recomputed(cal, row, spec, now);
            && row2 == Row(row.kind, row.timezone, row.misfire, row2.next, row.anchor)
            && match spec.kind
               case Interval(every) =>
                 && row2.next.Some?
                 && FirstSlotAfter(if row.anchor.Some? then row.anchor.value else now, every, now, row2.next.value)
               case Calendar(_) => row2.next == cal(spec.kind, row.timezone, now)
               case Manual | Startup => row2.next == None
  {
    hide GridNext, FirstSlotAfter;
    if spec.kind.Interval? { NextIsFirst(if row.anchor.Some? then row.anchor.value else now, spec.kind.every, now); }
  }

  predicate Slot(anchor: int, every: nat, t: int) { t > anchor && (t - anchor) % (if every < 1 then 1 else every) == 0 }

  ghost predicate FirstSlotAfter(anchor: int, every: nat, now: int, slot: int) {
    slot > now && Slot(anchor, every, slot) && forall t | now < t < slot :: !Slot(anchor, every, t)
  }

  lemma NextIsFirst(anchor: int, every: nat, now: int)
    ensures FirstSlotAfter(anchor, every, now, GridNext(anchor, every, now))
  {
    GridNextIs(anchor, every, now);
    hide GridNext;
    var next := GridNext(anchor, every, now);
    if anchor > now {
      assert next == anchor + Period(every);
      forall t | now < t < next ensures !Slot(anchor, every, t) {
        if t > anchor { ModuloUnique(t - anchor, Period(every), 0, t - anchor); }
      }
    } else {
      forall t | now < t < next ensures !Slot(anchor, every, t) { assert !OnGrid(anchor, every, t); }
    }
  }

  function RowOf(rows: map<string, Row>, job: string): Option<Row> { if job in rows then Some(rows[job]) else None }

  predicate Follows(row: Row, spec: Spec) { row.kind == spec.kind && row.timezone == spec.timezone }

  lemma SyncDue(cal: Calendars, was: Option<Row>, spec: Spec, now: int, immediate: bool)
    ensures var row := SyncedRow(cal, was, spec, now, immediate);
            Follows(row, spec) && ((row.next.Some? ==> row.next.value >= now)
                                   || (was.Some? && Unchanged(was, spec) && row.next == was.value.next))
  {
  }

  lemma MultipleOfMultiple(k: int, q: int, p: int)
    requires p > 0 && q % p == 0
    ensures (k * q) % p == 0
  {
    var m := q / p;
    assert q == m * p;
    assert k * q == (k * m) * p;
    Multiple(k * m, p);
  }

  /** By another period on the same anchor every next slot is on the grid exactly when that
      period is a multiple of the row's own. */
  lemma OffGridIff(anchor: int, own: nat, other: nat)
    ensures (forall now :: OnGrid(anchor, own, GridNext(anchor, other, now))) <==> Period(other) % Period(own) == 0
  {
    if Period(other) % Period(own) == 0 {
      forall now ensures OnGrid(anchor, own, GridNext(anchor, other, now)) { StaysOnGrid(anchor, own, other, now); }
    }
    FirstSlot(anchor, other);
    if forall now :: OnGrid(anchor, own, GridNext(anchor, other, now)) {
      assert OnGrid(anchor, own, GridNext(anchor, other, anchor));
    }
  }

  lemma FirstSlot(anchor: int, other: nat)
    ensures GridNext(anchor, other, anchor) == anchor + Period(other)
  {
  }

  lemma StaysOnGrid(anchor: int, own: nat, other: nat, now: int)
    requires Period(other) % Period(own) == 0
    ensures OnGrid(anchor, own, GridNext(anchor, other, now))
  {
    MultipleOfMultiple((if now - anchor < 0 then 0 else now - anchor) / Period(other) + 1, Period(other), Period(own));
    assert GridNext(anchor, other, now) >= anchor by { hide OnGrid; GridNextAhead(anchor, other, now); }
  }

  lemma GridNextAhead(anchor: int, every: nat, now: int)
    ensures GridNext(anchor, every, now) >= anchor
  {
    GridNextIs(anchor, every, now);
  }

  /** A tick that reads another interval from the live configuration than the row's: every such
      tick keeps the row on its grid exactly when the live period is a multiple of the row's. */
  lemma StrangeTickIff(cal: Calendars, row: Row, spec: Spec, own: nat, other: nat)
    requires row.kind == Interval(own) && spec.kind == Interval(other) && row.anchor.Some?
    ensures (forall now :: Aligned(Recomputed(cal, row, spec, now))) <==> Period(other) % Period(own) == 0
  {
    var a := row.anchor.value;
    OffGridIff(a, own, other);
    forall now ensures Aligned(Recomputed(cal, row, spec, now)) <==> OnGrid(a, own, GridNext(a, other, now)) {}
  }

  // --- one job over any run of boots, reloads and ticks -----------------------------------------

  /** What the table and the daemon's memory hold about one job. */
  datatype Seat = Seat(row: Option<Row>, live: Option<Spec>)

  /** What can happen to it. `reached`: the boot or reload got as far as this job's row; `up`: it
      went well altogether. A boot that fails ends the daemon; `Forgotten` is a removal by a reload,
      whose purge may fail before the row is gone. A tick whose write fails is no event. */
  datatype Event =
    | Booted(wanted: Option<Spec>, now: int, reached: bool, up: bool)
    | Reloaded(spec: Spec, now: int, reached: bool, up: bool)
    | Forgotten(gone: bool)
    | Ticked(now: int)

  predicate Possible(e: Event) {
    match e
    case Booted(_, _, reached, up) => up ==> reached
    case Reloaded(_, _, reached, up) => up ==> reached
    case _ => true
  }

  function Happens(cal: Calendars, e: Event, s: Seat): Seat {
    match e
    case Booted(None, _, reached, up) => Seat(if reached then None else s.row, None)
    case Booted(Some(spec), now, reached, up) =>
      Seat(if reached then Some(SyncedRow(cal, s.row, spec, now, true)) else s.row, if up then Some(spec) else None)
    case Reloaded(spec, now, reached, up) =>
      if s.live == Some(spec) then s
      else Seat(if reached then Some(SyncedRow(cal, s.row, spec, now, false)) else s.row,
                if up then Some(spec) else s.live)
    case Forgotten(gone) => Seat(if gone then None else s.row, None)
    case Ticked(now) =>
      if s.row.Some? && s.live.Some? then s.(row := Some(Recomputed(cal, s.row.value, s.live.value, now))) else s
  }

  function After(cal: Calendars, s: Seat, es: seq<Event>): Seat {
    if es == [] then s else Happens(cal, es[|es| - 1], After(cal, s, es[..|es| - 1]))
  }

  predicate Anchored(s: Seat) { s.row.Some? && s.row.value.kind.Interval? ==> s.row.value.anchor.Some? }

  predicate OffGrid(s: Seat) { s.row.Some? && !Aligned(s.row.value) }

  /** The row was written for another kind of schedule than the one the daemon follows. */
  predicate Ahead(s: Seat) { s.row.Some? && s.live.Some? && s.row.value.kind != s.live.value.kind }

  /** A tick on a row ahead of the daemon's schedule, which yields no slot of the row's grid. */
  predicate Strays(cal: Calendars, e: Event, s: Seat) {
    && e.Ticked? && Ahead(s) && s.row.value.kind.Interval?
    && var slot := NextAfter(cal, s.live.value.kind, s.row.value.timezone, e.now, s.row.value.anchor);
       slot.None? || (s.row.value.anchor.Some? && !OnGrid(s.row.value.anchor.value, s.row.value.kind.every, slot.value))
  }

  /** The row is given a new due time, or goes. */
  predicate Rewrites(e: Event, s: Seat) {
    match e
    case Booted(spec, _, reached, _) => reached && (spec.None? || !Unchanged(s.row, spec.value))
    case Reloaded(spec, _, reached, _) => reached && s.live != Some(spec) && !Unchanged(s.row, spec)
    case Forgotten(gone) => gone
    case Ticked(_) => s.row.Some? && s.live.Some?
  }

  /** A reload that wrote the job's row and failed later, so that its schedule never came to be
      followed. */
  predicate Splits(e: Event, s: Seat) {
    e.Reloaded? && e.reached && !e.up && s.live.Some? && e.spec.kind != s.live.value.kind
  }

  /** One step: a row is off its grid after it exactly when the step strays, or the row was off
      its grid and is not rewritten. */
  lemma StepOffGridIff(cal: Calendars, e: Event, s: Seat)
    requires Anchored(s)
    ensures Anchored(Happens(cal, e, s))
    ensures OffGrid(Happens(cal, e, s)) <==> Strays(cal, e, s) || (OffGrid(s) && !Rewrites(e, s))
  {
    hide GridNext, OnGrid;
    match e
    case Booted(spec, now, reached, _) =>
      if reached && spec.Some? { SyncedAligned(cal, s.row, spec.value, now, true); }
    case Reloaded(spec, now, reached, _) =>
      if reached { SyncedAligned(cal, s.row, spec, now, false); }
    case Forgotten(_) =>
    case Ticked(now) =>
      if s.row.Some? && s.live.Some? && !Ahead(s) { TickedAligned(cal, s.row.value, s.live.value, now); }
  }

  lemma SyncedAligned(cal: Calendars, was: Option<Row>, spec: Spec, now: int, immediate: bool)
    ensures var row := SyncedRow(cal, was, spec, now, immediate);
            if Unchanged(was, spec) then Aligned(row) == Aligned(was.value) && row.kind == was.value.kind
                && row.anchor == was.value.anchor
            else Aligned(row) && (row.kind.Interval? ==> row.anchor.Some?)
  {
    if !Unchanged(was, spec) { SyncKeepsGrid(cal, None, spec, now, immediate); }
  }

  lemma TickedAligned(cal: Calendars, row: Row, spec: Spec, now: int)
    requires row.kind == spec.kind && (row.kind.Interval? ==> row.anchor.Some?)
    ensures Aligned(Recomputed(cal, row, spec, now))
  {
    if row.kind.Interval? { GridNextIs(row.anchor.value, row.kind.every, now); }
  }

  lemma {:induction false} AnchoredAlways(cal: Calendars, s: Seat, es: seq<Event>)
    requires Anchored(s)
    ensures Anchored(After(cal, s, es))
  {
    if es != [] {
      AnchoredAlways(cal, s, es[..|es| - 1]);
      StepOffGridIff(cal, es[|es| - 1], After(cal, s, es[..|es| - 1]));
    }
  }

  /** Nothing from the `from`-th event on rewrites the row. */
  ghost predicate Untouched(cal: Calendars, s: Seat, es: seq<Event>, from: nat) {
    forall j | from <= j < |es| :: !Rewrites(es[j], After(cal, s, es[..j]))
  }

  /** The `i`-th event is a tick that strayed, and nothing has rewritten the row since. */
  ghost predicate StrayedAt(cal: Calendars, s: Seat, es: seq<Event>, i: nat) {
    i < |es| && Strays(cal, es[i], After(cal, s, es[..i])) && Untouched(cal, s, es, i + 1)
  }

  /** Any run: the row is off its grid at the end exactly when some tick strayed and nothing has
      rewritten the row since. */
  lemma {:induction false} OffGridAfterIff(cal: Calendars, s: Seat, es: seq<Event>)
    requires Anchored(s) && !OffGrid(s)
    ensures OffGrid(After(cal, s, es)) <==> exists i :: StrayedAt(cal, s, es, i)
  {
    hide StrayedAt, Strays, OffGrid, Rewrites, Happens, Anchored;
    if es == [] {
      forall i ensures !StrayedAt(cal, s, es, i) { NeverStrayed(cal, s, i); }
    } else {
      var n := |es| - 1;
      OffGridAfterIff(cal, s, es[..n]);
      AnchoredAlways(cal, s, es[..n]);
      StepOffGridIff(cal, es[n], After(cal, s, es[..n]));
      if OffGrid(After(cal, s, es)) {
        if Strays(cal, es[n], After(cal, s, es[..n])) {
          StrayedStep(cal, s, es, n);
        } else {
          var i :| StrayedAt(cal, s, es[..n], i);
          AtSomeEvent(cal, s, es[..n], i);
          StrayedStep(cal, s, es, i);
        }
      }
      if i :| StrayedAt(cal, s, es, i) { StrayedStep(cal, s, es, i); }
    }
  }

  lemma NeverStrayed(cal: Calendars, s: Seat, i: nat)
    ensures !StrayedAt(cal, s, [], i)
  {
  }

  lemma AtSomeEvent(cal: Calendars, s: Seat, es: seq<Event>, i: nat)
    requires StrayedAt(cal, s, es, i)
    ensures i < |es|
  {
  }

  lemma StrayedStep(cal: Calendars, s: Seat, es: seq<Event>, i: nat)
    requires es != []
    ensures var n := |es| - 1;
            StrayedAt(cal, s, es, i) <==>
              if i == n then Strays(cal, es[n], After(cal, s, es[..n]))
              else StrayedAt(cal, s, es[..n], i) && !Rewrites(es[n], After(cal, s, es[..n]))
  {
    hide Rewrites, After, Strays, Untouched;
    var n := |es| - 1;
    if i < n {
      assert es[..n][..i] == es[..i] && es[..n][i] == es[i];
      UntouchedStep(cal, s, es, i + 1);
    } else if i == n {
      UntouchedNow(cal, s, es);
    }
  }

  lemma UntouchedNow(cal: Calendars, s: Seat, es: seq<Event>)
    ensures Untouched(cal, s, es, |es|)
  {
  }

  lemma UntouchedStep(cal: Calendars, s: Seat, es: seq<Event>, from: nat)
    requires 0 < |es| && from < |es|
    ensures var n := |es| - 1; Untouched(cal, s, es, from) <==>
              Untouched(cal, s, es[..n], from) && !Rewrites(es[n], After(cal, s, es[..n]))
  {
    hide Rewrites, After;
    var n := |es| - 1;
    forall j | 0 <= j < n ensures es[..n][..j] == es[..j] && es[..n][j] == es[j] {}
    if Untouched(cal, s, es, from) {
      forall j | from <= j < n
        ensures !Rewrites(es[..n][j], After(cal, s, es[..n][..j])) { assert !Rewrites(es[j], After(cal, s, es[..j])); }
    }
    if Untouched(cal, s, es[..n], from) && !Rewrites(es[n], After(cal, s, es[..n])) {
      forall j | from <= j < |es| ensures !Rewrites(es[j], After(cal, s, es[..j])) {
        if j < n { assert !Rewrites(es[..n][j], After(cal, s, es[..n][..j])); }
      }
    }
  }

  /** A row gets ahead of the daemon exactly by a reload that fails after writing it. */
  lemma GetsAheadIff(cal: Calendars, e: Event, s: Seat)
    requires Possible(e) && !Ahead(s)
    ensures Ahead(Happens(cal, e, s)) <==> Splits(e, s)
  {
    hide GridNext;
  }

  /** What can be read off before any tick: by this live schedule some tick leaves the grid of this
      anchor and period. */
  ghost predicate Strange(cal: Calendars, live: Kind, zone: string, anchor: int, own: nat) {
    match live
    case Manual | Startup => true
    case Interval(other) => Period(other) % Period(own) != 0
    case Calendar(_) => exists now :: OffCalendar(cal(live, zone, now), anchor, own)
  }

  predicate OffCalendar(slot: Option<int>, anchor: int, own: nat) { slot.None? || !OnGrid(anchor, own, slot.value) }

  /** On a row ahead of the daemon some tick strays exactly if the live schedule is of that kind. */
  lemma CanStrayIff(cal: Calendars, s: Seat)
    requires Ahead(s) && Anchored(s) && s.row.value.kind.Interval?
    ensures (exists now :: Strays(cal, Ticked(now), s)) <==>
              Strange(cal, s.live.value.kind, s.row.value.timezone, s.row.value.anchor.value, s.row.value.kind.every)
  {
    hide OnGrid, GridNext;
    var row, kind := s.row.value, s.live.value.kind;
    var a, own := row.anchor.value, row.kind.every;
    match kind
    case Manual | Startup => assert Strays(cal, Ticked(0), s);
    case Interval(other) =>
      OffGridIff(a, own, other);
      forall now ensures Strays(cal, Ticked(now), s) <==> !OnGrid(a, own, GridNext(a, other, now)) {}
    case Calendar(_) =>
      forall now ensures Strays(cal, Ticked(now), s) <==> OffCalendar(cal(kind, row.timezone, now), a, own) {}
  }

  /** So a reload that fails after writing a new interval can lead to drift exactly if the schedule
      still followed is strange to the new one, anchored at the reload. */
  lemma FailedReloadStraysIff(cal: Calendars, s: Seat, spec: Spec, now: int)
    requires s.live.Some? && spec.kind.Interval? && !Unchanged(s.row, spec) && s.live.value.kind != spec.kind
    ensures var e := Reloaded(spec, now, true, false);
            && Possible(e) && Splits(e, s)
            && ((exists t :: Strays(cal, Ticked(t), Happens(cal, e, s))) <==>
                Strange(cal, s.live.value.kind, spec.timezone, now, spec.kind.every))
  {
    hide Strange, GridNext;
    CanStrayIff(cal, Happens(cal, Reloaded(spec, now, true, false), s));
  }

  /** So on any run in which no reload fails that way, every row stays on its grid. */
  lemma {:induction false} NoDrift(cal: Calendars, s: Seat, es: seq<Event>)
    requires Anchored(s) && !OffGrid(s) && !Ahead(s)
    requires forall i | 0 <= i < |es| :: Possible(es[i]) && !Splits(es[i], After(cal, s, es[..i]))
    ensures !OffGrid(After(cal, s, es)) && !Ahead(After(cal, s, es))
  {
    hide OffGrid, Rewrites, Happens, Anchored, Splits, Possible;
    if es != [] {
      var n := |es| - 1;
      forall i | 0 <= i < n ensures Possible(es[..n][i]) && !Splits(es[..n][i], After(cal, s, es[..n][..i])) {
        assert es[..n][..i] == es[..i] && Possible(es[i]) && !Splits(es[i], After(cal, s, es[..i]));
      }
      NoDrift(cal, s, es[..n]);
      AnchoredAlways(cal, s, es[..n]);
      StepOffGridIff(cal, es[n], After(cal, s, es[..n]));
      GetsAheadIff(cal, es[n], After(cal, s, es[..n]));
    }
  }

  /** A reload that fails half way leaves a row ahead of its job's live schedule; a tick then
      moves it by the old period on the new anchor, and the next successful reload finds the
      row unchanged and keeps it, off its grid. */
  lemma FailedReloadDrifts(cal: Calendars) returns (s: Seat, es: seq<Event>)
    ensures !OffGrid(s) && !Ahead(s) && OffGrid(After(cal, s, es)) && !Ahead(After(cal, s, es))
            && es[|es| - 1].Reloaded? && es[|es| - 1].up
  {
    var before, later := Spec(Interval(60), "UTC", Skip), Spec(Interval(100), "UTC", Skip);
    s := Seat(Some(Row(Interval(60), "UTC", Skip, Some(1060), Some(1000))), Some(before));
    es := [Reloaded(later, 1010, true, false), Ticked(1110), Reloaded(later, 1112, true, true)];
    assert es[..2][..1] == [es[0]] && [es[0]][..0] == [] && es[..2][1] == es[1];
    var failed := Seat(Some(Row(Interval(100), "UTC", Skip, Some(1110), Some(1010))), Some(before));
    assert After(cal, s, [es[0]]) == failed;
    assert GridNext(1010, 60, 1110) == 1130;
    assert After(cal, s, es[..2]) == Seat(Some(Row(Interval(100), "UTC", Skip, Some(1130), Some(1010))), Some(before));
  }

  /** From one seat to another by at most one event. */
  ghost predicate AtMostOne(cal: Calendars, s: Seat, s2: Seat) {
    s2 == s || exists e | Possible(e) :: s2 == Happens(cal, e, s)
  }

  // --- firings ------------------------------------------------------------------------------------

  /** One dispatch by the clock: the slot that was due, when it was dispatched, how often the
      job's schedule had been changed by then, and whether the row was moved on afterwards. */
  datatype Firing = Firing(job: string, slot: int, at: int, epoch: nat, moved: bool)

  function EpochOf(epochs: map<string, nat>, job: string): nat { if job in epochs then epochs[job] else 0 }

  /** Between two dispatches of a job the later one's slot had not come when the earlier one was
      made, if the row was moved on after it: however many slots pass unattended, one dispatch
      answers for all of them. */
  ghost predicate OnePerSlot(log: seq<Firing>) {
    forall i, j | 0 <= i < j < |log| && log[i].job == log[j].job && log[i].moved ::
      log[i].at <= log[j].slot && (log[i].epoch == log[j].epoch ==> log[i].at < log[j].slot)
  }

  ghost predicate Answered(f: Firing, rows: map<string, Row>, epochs: map<string, nat>, clock: int) {
    && f.slot <= f.at <= clock && f.epoch <= EpochOf(epochs, f.job)
    && (f.moved && f.job in rows && rows[f.job].next.Some? ==>
      f.at <= rows[f.job].next.value && (f.epoch == EpochOf(epochs, f.job) ==> f.at < rows[f.job].next.value))
  }

  ghost predicate Ordered(log: seq<Firing>, rows: map<string, Row>, epochs: map<string, nat>, clock: int) {
    OnePerSlot(log) && forall i | 0 <= i < |log| :: Answered(log[i], rows, epochs, clock)
  }

  /** A slot is dispatched again under the same schedule only if the row could not be moved on. */
  lemma RepeatNeedsFailure(log: seq<Firing>, rows: map<string, Row>, epochs: map<string, nat>, clock: int, i: nat,
                           j: nat)
    requires Ordered(log, rows, epochs, clock) && i < j < |log|
    requires log[i].job == log[j].job && log[i].slot == log[j].slot && log[i].epoch == log[j].epoch
    ensures !log[i].moved
  {
    assert Answered(log[i], rows, epochs, clock);
  }

  lemma Fired(log: seq<Firing>, rows: map<string, Row>, epochs: map<string, nat>, clock: int, job: string, at: int,
              row: Row, moved: bool)
    requires Ordered(log, rows, epochs, clock) && job in rows && rows[job].next.Some?
             && rows[job].next.value <= at <= clock
    requires if moved then row.next.Some? ==> row.next.value > clock else row == rows[job]
    ensures Ordered(log + [Firing(job, rows[job].next.value, at, EpochOf(epochs, job), moved)], rows[job := row],
                    epochs, clock)
  {
    var f := Firing(job, rows[job].next.value, at, EpochOf(epochs, job), moved);
    var log2 := log + [f];
    forall i | 0 <= i < |log2| ensures Answered(log2[i], rows[job := row], epochs, clock) {
      if i < |log| { assert Answered(log[i], rows, epochs, clock); }
    }
    forall i, j | 0 <= i < j < |log2| && log2[i].job == log2[j].job && log2[i].moved
      ensures log2[i].at <= log2[j].slot && (log2[i].epoch == log2[j].epoch ==> log2[i].at < log2[j].slot)
    {
      if j == |log| { assert Answered(log[i], rows, epochs, clock); }
    }
  }

  lemma Moved(log: seq<Firing>, rows: map<string, Row>, epochs: map<string, nat>, clock: int, job: string, row: Row,
              clock2: int)
    requires Ordered(log, rows, epochs, clock) && clock <= clock2 && (row.next.Some? ==> row.next.value > clock2)
    ensures Ordered(log, rows[job := row], epochs, clock2)
  {
    forall i | 0 <= i < |log| ensures Answered(log[i], rows[job := row], epochs, clock2) {
      assert Answered(log[i], rows, epochs, clock);
    }
  }

  lemma Rescheduled(log: seq<Firing>, rows: map<string, Row>, epochs: map<string, nat>, clock: int, job: string,
                    row: Row)
    requires Ordered(log, rows, epochs, clock)
    requires (row.next.Some? ==> row.next.value >= clock) || (job in rows && row.next == rows[job].next)
    ensures Ordered(log, rows[job := row], epochs[job := EpochOf(epochs, job) + 1], clock)
    ensures job in rows && row.next == rows[job].next ==> Ordered(log, rows[job := row], epochs, clock)
  {
    forall i | 0 <= i < |log| ensures Answered(log[i], rows, epochs, clock) {}
  }

  lemma Later(log: seq<Firing>, rows: map<string, Row>, epochs: map<string, nat>, clock: int, clock2: int,
              rows2: map<string, Row>)
    requires Ordered(log, rows, epochs, clock) && clock <= clock2
    requires forall n | n in rows2 :: n in rows && rows2[n] == rows[n]
    ensures Ordered(log, rows2, epochs, clock2)
  {
    forall i | 0 <= i < |log| ensures Answered(log[i], rows2, epochs, clock2) {
      assert Answered(log[i], rows, epochs, clock);
    }
  }

  ghost predicate Agree(rows: map<string, Row>, live: map<string, Spec>) {
    forall n | n in rows :: n in live && Follows(rows[n], live[n])
  }

  // --- the scheduler ----------------------------------------------------------------------------------

  class Scheduler {
    const cal: Calendars
    const zones: set<string>
    /** Whether reads and writes may fail, and names be refused. */
    const faults: bool
    var live: map<string, Spec>
    var rows: map<string, Row>
    var clock: int
    ghost var log: seq<Firing>
    ghost var epochs: map<string, nat>

    /** A daemon not yet up, on the rows an earlier one left. */
    constructor (cal: Calendars, zones: set<string>, faults: bool, rows: map<string, Row>, clock: int)
      requires forall n | n in rows :: rows[n].timezone in zones
      ensures Valid() && InZones() && this.cal == cal && this.zones == zones && this.faults == faults
      ensures this.rows == rows && this.clock == clock && live == map[] && log == []
    {
      this.cal, this.zones, this.faults, this.rows, this.clock := cal, zones, faults, rows, clock;
      live, log, epochs := map[], [], map[];
    }

    /** What holds however reloads end. */
    ghost predicate Valid()
      reads this`log, this`rows, this`epochs, this`clock
    {
      Ordered(log, rows, epochs, clock)
    }

    ghost predicate OnGrids()
      reads this`rows
    {
      forall n | n in rows :: Aligned(rows[n])
    }

    /** The rows are those of the live jobs, unless a reload stopped half way. */
    ghost predicate InStep()
      reads this`rows, this`live
    {
      Agree(rows, live)
    }

    /** `unix_now`: time never goes back. */
    method Now() returns (now: int)
      requires Valid()
      modifies this`clock
      ensures Valid() && now == clock && clock >= old(clock)
    {
      var passed: int :| passed >= 0;
      Later(log, rows, epochs, clock, clock + passed, rows);
      clock := clock + passed;
      now := clock;
    }

    /** One overdue row: a dispatch if wanted, then the move to a later slot. Rows of unknown jobs
        are neither dispatched nor moved, and the row stays as it was when reading or writing it
        back fails. */
    method Fire(job: string, at: int, dispatch: bool) returns (moved: bool)
      requires Valid() && job in rows && Due(rows, job, at) && at <= clock && InZones()
      modifies this`rows, this`clock, this`log
      ensures Valid() && clock >= old(clock) && InZones() && (moved ==> job in live)
      ensures !faults && job in live ==> moved
      ensures rows == if moved then old(rows)[job := Recomputed(cal, old(rows)[job], live[job], clock)] else old(rows)
      ensures moved && rows[job].next.Some? ==> rows[job].next.value > clock
      ensures log == if dispatch && job in live
                     then old(log) + [Firing(job, old(rows)[job].next.value, at, EpochOf(epochs, job), moved)]
                         else old(log)
      ensures old(OnGrids()) && old(InStep()) ==> OnGrids() && InStep()
    {
      var ioFails: bool := *;
      moved := job in live && !(faults && ioFails);
      if job in live {
        var now := Now();
        var row := if moved then Recomputed(cal, rows[job], live[job], now) else rows[job];
        RecomputeKeepsGrid(cal, rows[job], live[job], now);
        assert rows[job := rows[job]] == rows;
        if dispatch {
          Fired(log, rows, epochs, clock, job, at, row, moved);
          log := log + [Firing(job, rows[job].next.value, at, EpochOf(epochs, job), moved)];
        } else if moved {
          Moved(log, rows, epochs, clock, job, row, clock);
        }
        if moved { rows := rows[job := row]; }
      }
    }

    ghost predicate InZones()
      reads this`rows
    {
      forall n | n in rows :: rows[n].timezone in zones
    }

    /** The loop shared by both passes: every row in `due` is moved on but the stuck ones, those
        in `fire` after one dispatch. */
    method Pass(now: int, due: set<string>, fire: set<string>)
      returns (ghost fired: seq<Firing>, ghost stuck: set<string>)
      requires Valid() && InZones() && now <= clock && due <= rows.Keys && forall n | n in due :: Due(rows, n, now)
      modifies this`rows, this`clock, this`log
      ensures Valid() && InZones() && clock >= old(clock) && Passed(cal, old(rows), rows, live, now, clock, due, stuck)
      ensures log == old(log) + fired && OncePer(fired, old(rows), live, epochs, now, due * fire, stuck)
      ensures !faults ==> stuck !! live.Keys
      ensures old(OnGrids()) && old(InStep()) ==> OnGrids() && InStep()
    {
      hide Valid, OnGrids, InStep, InZones, Halfway, OncePer, Passed;
      var before, todo := rows, due;
      fired, stuck := [], {};
      ghost var agreed := OnGrids() && InStep();
      HalfwayStarts(cal, before, live, epochs, now, clock, fire);
      while todo != {}
        invariant Valid() && InZones() && clock >= old(clock) && todo <= due && log == old(log) + fired
        invariant Halfway(cal, before, rows, live, epochs, now, clock, due - todo, fire, stuck, fired)
        invariant (agreed ==> OnGrids() && InStep()) && (!faults ==> stuck !! live.Keys)
        decreases |todo|
      {
        var n :| n in todo;
        ghost var rows1, clock1 := rows, clock;
        SameYet(cal, before, rows, live, epochs, now, clock, due - todo, fire, stuck, fired, n);
        var moved := Fire(n, now, n in fire);
        HalfwayStep(cal, before, rows1, rows, live, epochs, now, clock1, clock, due - todo, fire, stuck, fired, n,
                    moved);
        if n in fire && n in live {
          fired := fired + [Firing(n, before[n].next.value, now, EpochOf(epochs, n), moved)];
        }
        if !moved { stuck := stuck + {n}; }
        assert due - (todo - {n}) == due - todo + {n};
        todo := todo - {n};
      }
      assert due - todo == due;
      HalfwayEnds(cal, before, rows, live, epochs, now, clock, due, fire, stuck, fired);
    }

    /** `dispatch_due`: unless the rows cannot be read, each live job that is due is dispatched once
        and no other is, and every live job is due strictly later afterwards, but for the stuck
        rows, which are as they were. */
    method DispatchDue(now: int) returns (read: bool, ghost fired: seq<Firing>, ghost stuck: set<string>)
      requires Valid() && InZones() && now <= clock
      modifies this`rows, this`clock, this`log
      ensures Valid() && InZones() && clock >= old(clock)
      ensures if read then Passed(cal, old(rows), rows, live, now, clock, Overdue(old(rows), now), stuck)
              else rows == old(rows)
      ensures read ==> forall n | n in rows && n in live && n !in stuck && rows[n].next.Some? ::
                rows[n].next.value > now
      ensures log == old(log) + fired && (!read ==> fired == []) && (!faults ==> read && stuck !! live.Keys)
      ensures read ==> OncePer(fired, old(rows), live, epochs, now, Overdue(old(rows), now), stuck)
      ensures read ==> forall n :: Fires(fired, n) <==>
                n in live && n in old(rows) && old(rows)[n].next.Some? && old(rows)[n].next.value <= now
      ensures rows.Keys == old(rows).Keys
      ensures read ==>
                forall n | n in rows && (old(rows)[n].next.None? || old(rows)[n].next.value > now || n !in live) ::
                  rows[n] == old(rows)[n]
      ensures old(OnGrids()) && old(InStep()) ==> OnGrids() && InStep()
    {
      hide Valid, OnGrids, InStep, OncePer, InZones, Fires;
      read := *;
      read := read || !faults;
      if !read { return false, [], {}; }
      var due := Overdue(rows, now);
      assert due * due == due;
      ghost var before := rows;
      fired, stuck := Pass(now, due, due);
      FiresWanted(fired, before, live, epochs, now, due, stuck);
    }

    /** `boot_pass`: rows that fell due before the boot are dispatched once if their policy says
        so, and moved on either way; rows due since, and rows stuck, wait for the next tick. */
    method BootPass(boot: int) returns (now: int, read: bool, ghost fired: seq<Firing>, ghost stuck: set<string>)
      requires Valid() && InZones()
      modifies this`rows, this`clock, this`log
      ensures Valid() && InZones() && clock >= now >= old(clock)
      ensures if read then Passed(cal, old(rows), rows, live, now, clock, Missed(old(rows), now, boot), stuck)
              else rows == old(rows)
      ensures read ==>
                forall n | n in rows && n in live && n !in stuck && rows[n].next.Some? && rows[n].next.value <= now ::
                  rows[n].next.value >= boot
      ensures log == old(log) + fired && (!read ==> fired == []) && (!faults ==> read && stuck !! live.Keys)
      ensures read ==> OncePer(fired, old(rows), live, epochs, now, Wanted(old(rows), now, boot), stuck)
      ensures read ==> forall n :: Fires(fired, n) <==>
                && n in live && n in old(rows) && old(rows)[n].misfire == RunImmediately
                && old(rows)[n].next.Some? && old(rows)[n].next.value <= now && old(rows)[n].next.value < boot
      ensures rows.Keys == old(rows).Keys
      ensures read ==>
                forall n | n in rows && n in live && n !in stuck && rows[n].next.Some?
                           && old(rows)[n].next.Some? && old(rows)[n].next.value <= now
                           && old(rows)[n].next.value < boot ::
                  rows[n].next.value > now
      ensures read ==>
                forall n | n in rows && (old(rows)[n].next.None? || old(rows)[n].next.value > now
                                         || old(rows)[n].next.value >= boot || n !in live) ::
                  rows[n] == old(rows)[n]
      ensures old(OnGrids()) && old(InStep()) ==> OnGrids() && InStep()
    {
      hide Valid, OnGrids, InStep, OncePer, InZones, Fires;
      now := Now();
      read := *;
      read := read || !faults;
      if !read { return now, false, [], {}; }
      var due := Missed(rows, now, boot);
      var fire := Wanted(rows, now, boot);
      assert due * fire == fire;
      ghost var before := rows;
      fired, stuck := Pass(now, due, fire);
      FiresWanted(fired, before, live, epochs, now, fire, stuck);
    }

    /** One job's row; an unknown time zone or a failed write is an error. */
    method SyncJob(job: string, spec: Spec, now: int, immediate: bool) returns (ok: bool)
      requires Valid() && InZones() && now == clock
      modifies this`rows, this`epochs
      ensures Valid() && InZones() && (old(OnGrids()) ==> OnGrids())
      ensures rows == if ok then old(rows)[job := SyncedRow(cal, RowOf(old(rows), job), spec, now, immediate)]
                      else old(rows)
      ensures (ok ==> Follows(rows[job], spec) && spec.timezone in zones)
              && (!faults && spec.timezone in zones ==> ok)
    {
      var ioFails: bool := *;
      if (faults && ioFails) || spec.timezone !in zones { return false; }
      var was := RowOf(rows, job);
      var row := SyncedRow(cal, was, spec, now, immediate);
      if OnGrids() { SyncKeepsGrid(cal, was, spec, now, immediate); }
      SyncDue(cal, was, spec, now, immediate);
      Rescheduled(log, rows, epochs, clock, job, row);
      if !Unchanged(was, spec) { epochs := epochs[job := EpochOf(epochs, job) + 1]; }
      rows := rows[job := row];
      return true;
    }

    /** Rows for these jobs, in any order, up to the first error. */
    method SyncJobs(specs: map<string, Spec>, now: int, immediate: bool) returns (ok: bool, ghost done: set<string>)
      requires Valid() && InZones() && now == clock
      modifies this`rows, this`epochs
      ensures Valid() && InZones() && (old(OnGrids()) ==> OnGrids())
      ensures Synced(cal, old(rows), rows, specs, now, immediate, done) && (ok ==> done == specs.Keys)
      ensures (ok ==> KnownZones(specs, map[], zones)) && (!faults && KnownZones(specs, map[], zones) ==> ok)
    {
      hide Valid, OnGrids, InZones, SyncedRow, Synced;
      ghost var before, grids := rows, OnGrids();
      var todo := specs.Keys;
      done := {};
      SyncedNone(cal, before, specs, now, immediate);
      while todo != {}
        invariant todo <= specs.Keys && done == specs.Keys - todo && now == clock && Valid() && InZones()
                  && (grids ==> OnGrids())
        invariant Synced(cal, before, rows, specs, now, immediate, done)
        invariant forall n | n in done :: specs[n].timezone in zones
        decreases |todo|
      {
        var n :| n in todo;
        ghost var rows1 := rows;
        ok := SyncJob(n, specs[n], now, immediate);
        if !ok { return; }
        SyncedOne(cal, before, rows1, specs, now, immediate, done, n);
        todo, done := todo - {n}, done + {n};
      }
      ok := true;
    }

    /** Removing jobs, in any order, up to the first error: a name may be refused before anything
        is touched, and a purge may fail once the job has left the live ones, with its row gone
        or not. */
    method Forget(jobs: set<string>) returns (ok: bool, ghost left: set<string>, ghost gone: set<string>)
      requires Valid() && InZones()
      modifies this`rows, this`live
      ensures Valid() && InZones() && (old(OnGrids()) ==> OnGrids())
      ensures rows == old(rows) - gone && live == old(live) - left && gone <= left <= jobs
      ensures (ok ==> gone == jobs) && (!faults ==> ok)
    {
      var todo := jobs;
      left, gone := {}, {};
      while todo != {}
        invariant todo <= jobs && gone == left == jobs - todo && Valid() && InZones() && (old(OnGrids()) ==> OnGrids())
        invariant rows == old(rows) - gone && live == old(live) - left
        decreases |todo|
      {
        var n :| n in todo;
        var refused: bool, ioFails: bool, cut: bool := *, *, *;
        if faults && refused { return false, left, gone; }
        live, left := live - {n}, left + {n};
        if faults && ioFails && !cut {
          return false, left, gone;
        }
        Later(log, rows, epochs, clock, clock, rows - {n});
        rows, gone := rows - {n}, gone + {n};
        if faults && ioFails { return false, left, gone; }
        todo := todo - {n};
      }
      ok := true;
    }

    /** A start of the daemon on the rows an earlier one left: `sync_config`. On an error the
        daemon does not come up. */
    method Boot(specs: map<string, Spec>) returns (ok: bool)
      requires Valid() && InZones()
      modifies this
      ensures Valid() && InZones() && (old(OnGrids()) ==> OnGrids()) && clock >= old(clock)
      ensures ok ==> live == specs && InStep() && rows.Keys == specs.Keys
      ensures (ok ==> KnownZones(specs, map[], zones)) && (!faults && KnownZones(specs, map[], zones) ==> ok)
      ensures ok ==> forall n | n in specs :: n in rows && Written(cal, RowOf(old(rows), n), specs[n], clock,
                                                                   FirstDue(specs[n], clock, true), rows[n])
      ensures EachAtMostOne(cal, old(rows), map[], rows, live) && (!ok ==> live == map[])
    {
      hide Valid, OnGrids, InZones, EachAtMostOne, Synced, Agree, Written, KnownZones;
      ghost var before := rows;
      live := specs;
      var now := Now();
      ghost var done, left, gone := {}, {}, {};
      ok, done := SyncJobs(specs, now, true);
      ghost var synced := rows;
      if ok { ok, left, gone := Forget(rows.Keys - specs.Keys); }
      if !ok { live := map[]; }
      assert rows == synced - gone && (ok ==> live == specs);
      if ok {
        BootAgrees(cal, before, synced, specs, now, done, gone);
        SyncedWritten(cal, before, synced, specs, now, true, done);
      }
      BootSeats(cal, before, synced, specs, now, done, gone, ok);
    }

    /** The schedule part of a reload: only changed jobs are synced, then the removed ones go; the
        new definitions go live only if everything went well. */
    method Reload(specs: map<string, Spec>) returns (ok: bool)
      requires Valid() && InZones()
      modifies this
      ensures Valid() && InZones() && (old(OnGrids()) ==> OnGrids()) && clock >= old(clock)
      ensures ok ==> live == specs
      ensures (ok ==> KnownZones(specs, old(live), zones)) && (!faults && KnownZones(specs, old(live), zones) ==> ok)
      ensures !ok ==> exists left | left <= old(live).Keys - specs.Keys :: live == old(live) - left
      ensures ok && old(InStep()) ==> InStep()
      ensures forall n | n in old(rows) && n in specs && n in old(live) && old(live)[n] == specs[n] ::
                n in rows && rows[n] == old(rows)[n]
      ensures ok ==> forall n | n in specs && !(n in old(live) && old(live)[n] == specs[n]) ::
                n in rows && Written(cal, RowOf(old(rows), n), specs[n], clock, FirstDue(specs[n], clock, false),
                                     rows[n])
      ensures ok ==> forall n | n !in specs :: n in rows <==> n in old(rows) && n !in old(live)
      ensures EachAtMostOne(cal, old(rows), old(live), rows, live)
    {
      hide Valid, OnGrids, InZones, EachAtMostOne, Synced, Agree, Written, FirstDue, RowOf, KnownZones;
      ghost var before, lived := rows, live;
      var now := Now();
      var changed := map n | n in specs && !(n in live && live[n] == specs[n]) :: specs[n];
      ghost var done, left, gone := {}, {}, {};
      ZonesOfChanged(specs, changed, lived, zones);
      ok, done := SyncJobs(changed, now, false);
      ghost var synced := rows;
      if ok { ok, left, gone := Forget(live.Keys - specs.Keys); }
      if ok {
        live := live + changed;
        ReloadAgrees(cal, before, synced, lived, specs, changed, now, done, gone);
        SyncedWritten(cal, before, synced, changed, now, false, done);
        SyncedKeys(cal, before, synced, changed, now, false, done);
      }
      if !ok { assert left <= lived.Keys - specs.Keys && live == lived - left; }
      UntouchedRows(cal, before, synced, lived, specs, changed, now, done, gone, rows);
      ReloadSeats(cal, before, synced, lived, specs, changed, now, done, left, gone, ok);
    }
  }

  /** The time zones of the definitions that are new are known. */
  ghost predicate KnownZones(specs: map<string, Spec>, lived: map<string, Spec>, zones: set<string>) {
    forall n | n in specs && !(n in lived && lived[n] == specs[n]) :: specs[n].timezone in zones
  }

  lemma ZonesOfChanged(specs: map<string, Spec>, changed: map<string, Spec>, lived: map<string, Spec>,
                       zones: set<string>)
    requires changed == map n | n in specs && !(n in lived && lived[n] == specs[n]) :: specs[n]
    ensures KnownZones(changed, map[], zones) <==> KnownZones(specs, lived, zones)
  {
    forall n | n in specs && !(n in lived && lived[n] == specs[n])
      ensures n in changed && changed[n] == specs[n] {}
    if KnownZones(changed, map[], zones) {
      forall n | n in specs && !(n in lived && lived[n] == specs[n]) ensures specs[n].timezone in zones {
        assert changed[n].timezone in zones;
      }
    }
  }

  function SeatOf(rows: map<string, Row>, live: map<string, Spec>, n: string): Seat {
    Seat(RowOf(rows, n), LiveOf(live, n))
  }

  /** Every job of the one state is in the other after at most one event. */
  ghost predicate EachAtMostOne(cal: Calendars, rows: map<string, Row>, live: map<string, Spec>,
                                rows2: map<string, Row>, live2: map<string, Spec>)
  {
    forall n :: AtMostOne(cal, SeatOf(rows, live, n), SeatOf(rows2, live2, n))
  }

  function LiveOf(live: map<string, Spec>, n: string): Option<Spec> { if n in live then Some(live[n]) else None }

  lemma BootAgrees(cal: Calendars, before: map<string, Row>, synced: map<string, Row>, specs: map<string, Spec>,
                   now: int, done: set<string>, gone: set<string>)
    requires Synced(cal, before, synced, specs, now, true, done) && done == specs.Keys
             && gone == synced.Keys - specs.Keys
    ensures Agree(synced - gone, specs) && (synced - gone).Keys == specs.Keys
  {
    hide SyncedRow;
    SyncedFollow(cal, before, synced, specs, now, true, done);
  }

  lemma ReloadAgrees(cal: Calendars, before: map<string, Row>, synced: map<string, Row>, lived: map<string, Spec>,
                     specs: map<string, Spec>, changed: map<string, Spec>, now: int, done: set<string>,
                     gone: set<string>)
    requires changed == map x | x in specs && !(x in lived && lived[x] == specs[x]) :: specs[x]
    requires Synced(cal, before, synced, changed, now, false, done) && done == changed.Keys
             && gone == lived.Keys - specs.Keys
    ensures lived - gone + changed == specs
    ensures Agree(before, lived) ==> Agree(synced - gone, specs)
  {
    hide SyncedRow;
    SyncedFollow(cal, before, synced, changed, now, false, done);
  }

  lemma BootSeats(cal: Calendars, before: map<string, Row>, synced: map<string, Row>, specs: map<string, Spec>,
                  now: int, done: set<string>, gone: set<string>, ok: bool)
    requires Synced(cal, before, synced, specs, now, true, done) && gone !! specs.Keys
    requires ok ==> done == specs.Keys && gone == synced.Keys - specs.Keys
    ensures EachAtMostOne(cal, before, map[], synced - gone, if ok then specs else map[])
  {
    forall n ensures AtMostOne(cal, SeatOf(before, map[], n), SeatOf(synced - gone, if ok then specs else map[], n)) {
      BootSeat(cal, before, synced, specs, now, done, gone, n, ok);
    }
  }

  /** What a boot, however it ends, is to one job. */
  lemma BootSeat(cal: Calendars, before: map<string, Row>, synced: map<string, Row>, specs: map<string, Spec>, now: int,
                 done: set<string>, gone: set<string>, n: string, ok: bool)
    requires Synced(cal, before, synced, specs, now, true, done) && gone !! specs.Keys
    requires ok ==> done == specs.Keys && gone == synced.Keys - specs.Keys
    ensures AtMostOne(cal, SeatOf(before, map[], n), SeatOf(synced - gone, if ok then specs else map[], n))
  {
    var s := Seat(RowOf(before, n), None);
    var e := Booted(LiveOf(specs, n), now, if n in specs then n in done else ok || n in gone, ok);
    assert Possible(e);
    assert Happens(cal, e, s) == Seat(RowOf(synced - gone, n), if ok then LiveOf(specs, n) else None);
  }

  lemma UntouchedRows(cal: Calendars, before: map<string, Row>, synced: map<string, Row>, lived: map<string, Spec>,
                      specs: map<string, Spec>, changed: map<string, Spec>, now: int, done: set<string>,
                      gone: set<string>, rows: map<string, Row>)
    requires rows == synced - gone && changed == map x | x in specs && !(x in lived && lived[x] == specs[x]) :: specs[x]
    requires Synced(cal, before, synced, changed, now, false, done) && gone <= lived.Keys - specs.Keys
    ensures forall n | n in before && n in specs && n in lived && lived[n] == specs[n] ::
              n in rows && rows[n] == before[n]
  {
    hide SyncedRow;
  }

  lemma ReloadSeats(cal: Calendars, before: map<string, Row>, synced: map<string, Row>, lived: map<string, Spec>,
                    specs: map<string, Spec>, changed: map<string, Spec>, now: int, done: set<string>,
                    left: set<string>, gone: set<string>, ok: bool)
    requires changed == map x | x in specs && !(x in lived && lived[x] == specs[x]) :: specs[x]
    requires Synced(cal, before, synced, changed, now, false, done) && gone <= left <= lived.Keys - specs.Keys
    requires ok ==> done == changed.Keys && gone == lived.Keys - specs.Keys
    ensures EachAtMostOne(cal, before, lived, synced - gone, if ok then lived - left + changed else lived - left)
  {
    var live2 := if ok then lived - left + changed else lived - left;
    forall n ensures AtMostOne(cal, SeatOf(before, lived, n), SeatOf(synced - gone, live2, n)) {
      ReloadSeat(cal, before, synced, lived, specs, changed, now, done, left, gone, n, ok);
    }
  }

  /** What a reload, however it ends, is to one job. */
  lemma ReloadSeat(cal: Calendars, before: map<string, Row>, synced: map<string, Row>, lived: map<string, Spec>,
                   specs: map<string, Spec>, changed: map<string, Spec>, now: int, done: set<string>, left: set<string>,
                   gone: set<string>, n: string, ok: bool)
    requires changed == map x | x in specs && !(x in lived && lived[x] == specs[x]) :: specs[x]
    requires Synced(cal, before, synced, changed, now, false, done) && gone <= left <= lived.Keys - specs.Keys
    requires ok ==> done == changed.Keys && gone == lived.Keys - specs.Keys
    ensures AtMostOne(cal, SeatOf(before, lived, n),
                      SeatOf(synced - gone, if ok then lived - left + changed else lived - left, n))
  {
    var s := Seat(RowOf(before, n), LiveOf(lived, n));
    var s2 := Seat(RowOf(synced - gone, n), LiveOf(if ok then lived - left + changed else lived - left, n));
    if n in changed {
      var e := Reloaded(specs[n], now, n in done, ok);
      assert Possible(e) && s2 == Happens(cal, e, s);
    } else if n in left {
      var e := Forgotten(n in gone);
      assert Possible(e) && s2 == Happens(cal, e, s);
    } else {
      assert s2 == s;
    }
  }

  /** The rows of the jobs in `done` have been synced, and the others are as they were. */
  ghost predicate Synced(cal: Calendars, before: map<string, Row>, rows: map<string, Row>, specs: map<string, Spec>,
                         now: int, immediate: bool, done: set<string>)
  {
    && done <= specs.Keys && rows.Keys == before.Keys + done
    && (forall n | n in done :: rows[n] == SyncedRow(cal, RowOf(before, n), specs[n], now, immediate))
    && (forall n | n in before && n !in done :: rows[n] == before[n])
  }

  lemma SyncedNone(cal: Calendars, rows: map<string, Row>, specs: map<string, Spec>, now: int, immediate: bool)
    ensures Synced(cal, rows, rows, specs, now, immediate, {})
  {
  }

  lemma SyncedOne(cal: Calendars, before: map<string, Row>, rows: map<string, Row>, specs: map<string, Spec>, now: int,
                  immediate: bool, done: set<string>, n: string)
    requires Synced(cal, before, rows, specs, now, immediate, done) && n in specs && n !in done
    ensures Synced(cal, before, rows[n := SyncedRow(cal, RowOf(rows, n), specs[n], now, immediate)], specs, now,
                   immediate, done + {n})
  {
    hide SyncedRow;
    assert RowOf(rows, n) == RowOf(before, n);
  }

  lemma SyncedWritten(cal: Calendars, before: map<string, Row>, rows: map<string, Row>, specs: map<string, Spec>,
                      now: int, boot: bool, done: set<string>)
    requires Synced(cal, before, rows, specs, now, boot, done)
    ensures forall n | n in done :: n in rows && Written(cal, RowOf(before, n), specs[n], now,
                                                         FirstDue(specs[n], now, boot), rows[n])
  {
    hide SyncedRow, Written, FirstDue;
    forall n | n in done
      ensures Written(cal, RowOf(before, n), specs[n], now, FirstDue(specs[n], now, boot), rows[n])
    {
      SyncWrites(cal, RowOf(before, n), specs[n], now, boot);
    }
  }

  lemma SyncedKeys(cal: Calendars, before: map<string, Row>, rows: map<string, Row>, specs: map<string, Spec>,
                   now: int, boot: bool, done: set<string>)
    requires Synced(cal, before, rows, specs, now, boot, done)
    ensures done <= specs.Keys && rows.Keys == before.Keys + done
  {
  }

  lemma SyncedFollow(cal: Calendars, before: map<string, Row>, rows: map<string, Row>, specs: map<string, Spec>,
                     now: int, immediate: bool, done: set<string>)
    requires Synced(cal, before, rows, specs, now, immediate, done)
    ensures forall n | n in done :: Follows(rows[n], specs[n])
  {
    forall n | n in done
      ensures Follows(rows[n], specs[n]) { SyncDue(cal, RowOf(before, n), specs[n], now, immediate); }
  }

  predicate Due(rows: map<string, Row>, n: string, now: int) {
    n in rows && rows[n].next.Some? && rows[n].next.value <= now
  }

  function Overdue(rows: map<string, Row>, now: int): set<string> { set n | n in rows && Due(rows, n, now) }

  /** The rows a boot pass attends to: due, and since before the boot. */
  function Missed(rows: map<string, Row>, now: int, boot: int): set<string> {
    set n | n in rows && Due(rows, n, now) && rows[n].next.value < boot
  }

  function Wanted(rows: map<string, Row>, now: int, boot: int): set<string> {
    set n | n in Missed(rows, now, boot) && rows[n].misfire.RunImmediately?
  }

  /** Every row in `due` that is not stuck has been moved on by its job's live schedule, as of some
      instant of the pass, and the others are as they were; rows of unknown jobs are stuck. */
  ghost predicate Passed(cal: Calendars, before: map<string, Row>, rows: map<string, Row>, live: map<string, Spec>,
                         now: int, clock: int, due: set<string>, stuck: set<string>)
  {
    && rows.Keys == before.Keys && stuck <= due <= rows.Keys && due - live.Keys <= stuck
    && (forall n | n in rows && (n in stuck || n !in due) :: rows[n] == before[n])
    && (forall n | n in due && n !in stuck :: MovedOn(cal, before[n], rows[n], live[n], now, clock))
  }

  ghost predicate MovedOn(cal: Calendars, row: Row, row2: Row, spec: Spec, now: int, clock: int) {
    (row2.next.Some? ==> row2.next.value > now) && exists t | now <= t <= clock :: row2 == Recomputed(cal, row, spec, t)
  }

  lemma MovedOnLater(cal: Calendars, row: Row, row2: Row, spec: Spec, now: int, clock: int, clock2: int)
    requires MovedOn(cal, row, row2, spec, now, clock) && clock <= clock2
    ensures MovedOn(cal, row, row2, spec, now, clock2)
  {
  }

  ghost predicate Halfway(cal: Calendars, before: map<string, Row>, rows: map<string, Row>, live: map<string, Spec>,
                          epochs: map<string, nat>, now: int, clock: int, done: set<string>, fire: set<string>,
                          stuck: set<string>, fired: seq<Firing>)
  {
    Passed(cal, before, rows, live, now, clock, done, stuck)
        && OncePer(fired, before, live, epochs, now, done * fire, stuck)
  }

  lemma HalfwayStarts(cal: Calendars, rows: map<string, Row>, live: map<string, Spec>, epochs: map<string, nat>,
                      now: int, clock: int, fire: set<string>)
    ensures forall due: set<string> :: Halfway(cal, rows, rows, live, epochs, now, clock, due - due, fire, {}, [])
  {
  }

  lemma HalfwayEnds(cal: Calendars, before: map<string, Row>, rows: map<string, Row>, live: map<string, Spec>,
                    epochs: map<string, nat>, now: int, clock: int, due: set<string>, fire: set<string>,
                    stuck: set<string>, fired: seq<Firing>)
    requires Halfway(cal, before, rows, live, epochs, now, clock, due, fire, stuck, fired)
    ensures Passed(cal, before, rows, live, now, clock, due, stuck)
            && OncePer(fired, before, live, epochs, now, due * fire, stuck)
  {
  }

  lemma SameYet(cal: Calendars, before: map<string, Row>, rows: map<string, Row>, live: map<string, Spec>,
                epochs: map<string, nat>, now: int, clock: int, done: set<string>, fire: set<string>,
                stuck: set<string>, fired: seq<Firing>, n: string)
    requires Halfway(cal, before, rows, live, epochs, now, clock, done, fire, stuck, fired) && n !in done
             && Due(before, n, now)
    ensures n in rows && rows[n] == before[n] && Due(rows, n, now)
  {
  }

  lemma HalfwayStep(cal: Calendars, before: map<string, Row>, rows: map<string, Row>, rows2: map<string, Row>,
                    live: map<string, Spec>, epochs: map<string, nat>, now: int, clock: int, clock2: int,
                    done: set<string>, fire: set<string>, stuck: set<string>, fired: seq<Firing>, n: string,
                    moved: bool)
    requires Halfway(cal, before, rows, live, epochs, now, clock, done, fire, stuck, fired) && n !in done
             && Due(before, n, now)
    requires now <= clock <= clock2 && (moved ==> n in live) && n in rows && rows[n] == before[n]
    requires rows2 == if moved then rows[n := Recomputed(cal, rows[n], live[n], clock2)] else rows
    requires moved && rows2[n].next.Some? ==> rows2[n].next.value > clock2
    ensures var fired2 := if n in fire && n in live
                          then fired + [Firing(n, before[n].next.value, now, EpochOf(epochs, n), moved)] else fired;
            Halfway(cal, before, rows2, live, epochs, now, clock2, done + {n}, fire,
                    if moved then stuck else stuck + {n}, fired2)
  {
    hide OncePer, Recomputed;
    var stuck2 := if moved then stuck else stuck + {n};
    assert Passed(cal, before, rows2, live, now, clock2, done + {n}, stuck2) by {
      hide MovedOn;
      forall x | x in done + {n} && x !in stuck2 ensures MovedOn(cal, before[x], rows2[x], live[x], now, clock2) {
        if x == n { MovedNow(cal, before[n], rows2[n], live[n], now, clock2); }
        else { MovedOnLater(cal, before[x], rows[x], live[x], now, clock, clock2); }
      }
    }
    if n in fire {
      OnceStep(fired, before, live, epochs, now, done * fire, stuck, n, moved);
      assert (done + {n}) * fire == done * fire + {n};
    } else {
      OnceSame(fired, before, live, epochs, now, done * fire, stuck, stuck2, n);
      assert (done + {n}) * fire == done * fire;
    }
  }

  lemma MovedNow(cal: Calendars, row: Row, row2: Row, spec: Spec, now: int, clock: int)
    requires row2 == Recomputed(cal, row, spec, clock) && now <= clock && (row2.next.Some? ==> row2.next.value > clock)
    ensures MovedOn(cal, row, row2, spec, now, clock)
  {
  }

  /** One firing, of the slot it was due at, for each live job in `jobs`, and no other; those whose
      row was moved on afterwards are the ones not stuck. */
  ghost predicate OncePer(fired: seq<Firing>, rows: map<string, Row>, live: map<string, Spec>, epochs: map<string, nat>,
                          now: int, jobs: set<string>, stuck: set<string>)
  {
    && (forall f | f in fired :: f.job in jobs && f.job in rows && f.job in live && rows[f.job].next == Some(f.slot)
                                 && f == Firing(f.job, f.slot, now, EpochOf(epochs, f.job), f.job !in stuck))
    && (forall n | n in jobs && n in live :: exists i :: 0 <= i < |fired| && fired[i].job == n)
    && (forall i, j | 0 <= i < j < |fired| :: fired[i].job != fired[j].job)
  }

  ghost predicate Fires(fired: seq<Firing>, n: string) { exists i :: 0 <= i < |fired| && fired[i].job == n }

  lemma FiresWanted(fired: seq<Firing>, rows: map<string, Row>, live: map<string, Spec>, epochs: map<string, nat>,
                    now: int, jobs: set<string>, stuck: set<string>)
    requires OncePer(fired, rows, live, epochs, now, jobs, stuck)
    ensures forall n :: Fires(fired, n) <==> n in jobs && n in live
  {
    forall n ensures Fires(fired, n) <==> n in jobs && n in live {
      if i :| 0 <= i < |fired| && fired[i].job == n { assert fired[i] in fired; }
    }
  }

  lemma OnceSame(fired: seq<Firing>, rows: map<string, Row>, live: map<string, Spec>, epochs: map<string, nat>,
                 now: int, jobs: set<string>, stuck: set<string>, stuck2: set<string>, n: string)
    requires OncePer(fired, rows, live, epochs, now, jobs, stuck) && n !in jobs
             && (stuck2 == stuck || stuck2 == stuck + {n})
    ensures OncePer(fired, rows, live, epochs, now, jobs, stuck2)
  {
  }

  lemma OnceStep(fired: seq<Firing>, rows: map<string, Row>, live: map<string, Spec>, epochs: map<string, nat>,
                 now: int, jobs: set<string>, stuck: set<string>, n: string, moved: bool)
    requires OncePer(fired, rows, live, epochs, now, jobs, stuck) && n !in jobs && n !in stuck && Due(rows, n, now)
    ensures var stuck2 := if moved then stuck else stuck + {n};
            var f := Firing(n, rows[n].next.value, now, EpochOf(epochs, n), moved);
            OncePer(if n in live then fired + [f] else fired, rows, live, epochs, now, jobs + {n}, stuck2)
  {
    var stuck2 := if moved then stuck else stuck + {n};
    OnceSame(fired, rows, live, epochs, now, jobs, stuck, stuck2, n);
    if n in live {
      OnceMore(fired, rows, live, epochs, now, jobs, stuck2, n, moved);
    }
  }

  lemma OnceMore(fired: seq<Firing>, rows: map<string, Row>, live: map<string, Spec>, epochs: map<string, nat>,
                 now: int, jobs: set<string>, stuck: set<string>, n: string, moved: bool)
    requires OncePer(fired, rows, live, epochs, now, jobs, stuck) && n !in jobs && Due(rows, n, now) && n in live
    requires moved <==> n !in stuck
    ensures OncePer(fired + [Firing(n, rows[n].next.value, now, EpochOf(epochs, n), moved)], rows, live, epochs, now,
                    jobs + {n}, stuck)
  {
    var f := Firing(n, rows[n].next.value, now, EpochOf(epochs, n), moved);
    var all := fired + [f];
    assert all[|fired|] == f;
    forall x | x in jobs + {n} && x in live ensures exists i :: 0 <= i < |all| && all[i].job == x {
      if x in jobs {
        var i :| 0 <= i < |fired| && fired[i].job == x;
        assert all[i] == fired[i];
      }
    }
    forall i | 0 <= i < |fired| ensures fired[i].job != n { assert fired[i] in fired; }
  }
}
