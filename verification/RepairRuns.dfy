/**
 * The runner, the primary and the passing of time together: any run of passes
 * and of the backfills they start, as runOnce, afterPass and backfill in
 * dashboard/internal/rollup/rollup.go make them, with whatever fails on the way.
 */
module RepairRuns {
  import opened Base
  import opened Rollups
  import opened Days
  import opened PrimaryStore
  import opened RepairFlags
  import opened RollupRunner
  import opened Backfills
  import opened Recovery

  /** A backfill that has been started and has not ended. */
  datatype Active = Active(at: int, full: bool)

  /** `last` is when the last pass came, or the runner started. */
  datatype System = System(
    flags: Flags, rollups: map<Field, AggregateRollup>, daily: map<Field, DailyRollup>,
    last: int, active: Option<Active>)

  datatype Move =
    | PassMove(p: Passing, listings: Option<seq<Option<seq<string>>>>, end: Event)
    | FillMove(b: Backfilling)
    | ExpireMove(hours: set<Field>, days: set<Field>)

  /** The runner starts with a full backfill, on whatever is stored. */
  function Begins(rollups: map<Field, AggregateRollup>, daily: map<Field, DailyRollup>, start: int): System {
    System(Started(start), rollups, daily, start, Some(Active(start, true)))
  }

  /** A move that the runner, or the expiry of fields, can make. */
  ghost predicate Legal(s: System, m: Move, hours: nat) {
    match m
    case PassMove(p, listings, end) =>
      && Passed(p, listings, end) && p.retention == hours * HOUR && s.last <= p.now
      && p.before == s.rollups && p.dailyBefore == s.daily
    case FillMove(b) =>
      && Ran(b) && b.hours == hours && b.retention == hours * HOUR
      && s.active == Some(Active(b.at, b.full)) && b.before == s.rollups && b.dailyBefore == s.daily
    case ExpireMove(_, _) => true
  }

  ghost function Next(s: System, m: Move): System {
    match m
    case PassMove(p, listings, end) =>
      var f := Play(s.flags, p.noted);
      var starts := Rolls(listings) && Starts(f, end);
      System(if Rolls(listings) then Step(f, end) else f, p.after, p.dailyAfter, p.now,
             if starts then Some(Active(p.now, WantsFull(f, end.now, end.failed))) else s.active)
    case FillMove(b) =>
      System(Step(Play(s.flags, b.noted), BackfillEnds), b.after, b.dailyAfter, s.last, None)
    case ExpireMove(hours, days) =>
      s.(rollups := s.rollups - hours, daily := s.daily - days)
  }

  ghost function Final(s: System, moves: seq<Move>): System {
    if moves == [] then s else Next(Final(s, moves[..|moves| - 1]), moves[|moves| - 1])
  }

  /**
   * The move sees the service in time: a pass comes in the hour of the one
   * before or in the next, and lists the service, or could not list
   * everything; a backfill can list the service and read its stored hours.
   */
  ghost predicate Sees(s: System, m: Move, svc: string) {
    match m
    case PassMove(p, listings, _) =>
      && HourStart(p.now) <= HourStart(s.last) + HOUR
      && ((listings.Some? && IsListed(listings.value, svc)) || Unlisted(listings))
    case FillMove(b) => svc in b.services && b.w.hoursReadable(svc)
    case ExpireMove(_, _) => true
  }

  ghost predicate Possible(s: System, moves: seq<Move>, hours: nat, svc: string) {
    moves == [] ||
    (var before, m := moves[..|moves| - 1], moves[|moves| - 1];
     Possible(s, before, hours, svc) && Legal(Final(s, before), m, hours) && Sees(Final(s, before), m, svc))
  }

  /** A finished hour of the window as it is at that time. */
  predicate InWindow(epoch: int, at: int, hours: nat) {
    var back := HourStart(at) - epoch;
    back % HOUR == 0 && HOUR <= back < hours * HOUR
  }

  predicate Covered(s: System, hours: nat, f: Field) {
    s.active.Some? && InWindow(f.epoch, s.active.value.at, hours)
  }

  /** A repair that is still to come covers the marked hour. */
  ghost predicate MarkedIsOwed(s: System, hours: nat, f: Field) {
    f in s.rollups && Marked(s.rollups[f]) && InWindow(f.epoch, s.last, hours) ==>
      s.flags.readMissing || s.flags.storeFailed || Covered(s, hours, f)
  }

  /** A full backfill that is still to come covers the hour that is not stored. */
  ghost predicate UnstoredIsOwed(s: System, hours: nat, f: Field) {
    f !in s.rollups && InWindow(f.epoch, s.last, hours) ==>
      s.flags.needFull || (Covered(s, hours, f) && s.active.value.full)
  }

  ghost predicate Sound(s: System) {
    && (s.flags.backfilling <==> s.active.Some?)
    && s.flags.lastFull <= s.last
    && (forall g :: StoredOk(Lookup(s.rollups, g)))
  }

  /** Once the hour is over, some location can be read and has samples of it whenever it is looked at. */
  ghost predicate Sampled(m: Move, f: Field) {
    match m
    case PassMove(p, _, _) => f.epoch + HOUR <= p.now ==> HasSamples(p.w.readings(f))
    case FillMove(b) => f.epoch + HOUR <= b.at ==> HasSamples(b.w.readings(f))
    case ExpireMove(hours, _) => f !in hours
  }

  // ------------------------------------------------------------ one attempt

  /** What an attempt leaves undone of a finished hour it missed or failed at. */
  lemma AttemptRepairs(stored: Option<AggregateRollup>, f: Field, mark: bool, at: int, retention: nat, a: Attempt,
                       w: World)
    requires StoredOk(stored) && Attempted(a, f, mark, at, retention, w) && f.epoch + HOUR <= at < f.epoch + retention
    ensures var s := RollupStep(stored, f.epoch, retention, a);
            && (s.stored.Some? && Marked(s.stored.value) ==> a.missing != {} || s.err)
            && (s.stored.None? && HasSamples(w.readings(f)) ==> s.err)
  {
    hide Attempted, StoredOk, HasSamples, RollupStep;
    SamplesRead(f, mark, at, retention, a, w);
    if a.missing == {} && !RollupStep(stored, f.epoch, retention, a).err {
      GoodCallRepairs(stored, f, mark, at, retention, a, w);
    }
    if a.latest != map[] {
      assert a.now == at by { hide *; AttemptedNow(f, mark, at, retention, a, w); }
      ReadIsStored(stored, f.epoch, retention, a);
    }
  }

  lemma AttemptedNow(f: Field, mark: bool, at: int, retention: nat, a: Attempt, w: World)
    requires Attempted(a, f, mark, at, retention, w)
    ensures a.now == at
  {
  }

  lemma ReadIsStored(stored: Option<AggregateRollup>, hour: int, retention: nat, a: Attempt)
    requires a.latest != map[] && a.now < hour + retention
    ensures var s := RollupStep(stored, hour, retention, a); s.stored.None? ==> s.err
  {
    MergedHas(a.latest, LocationsOf(stored));
    hide MergedLocations, Aggregated;
    assert LocationsOf(stored) == StoredOr(stored).perLocation;
  }

  lemma WindowIsKept(epoch: int, at: int, hours: nat)
    requires InWindow(epoch, at, hours)
    ensures epoch + HOUR <= at < epoch + hours * HOUR
  {
  }

  lemma WindowOffset(epoch: int, at: int, hours: nat) returns (o: nat)
    requires InWindow(epoch, at, hours)
    ensures 1 <= o < hours && epoch == HourStart(at) - o * HOUR
  {
    o := (HourStart(at) - epoch) / HOUR;
  }

  lemma OffsetInWindow(at: int, hours: nat, o: nat)
    requires 1 <= o < hours
    ensures InWindow(HourStart(at) - o * HOUR, at, hours)
  {
    var back := o * HOUR;
    assert back % HOUR == 0;
  }

  // ----------------------------------------------------------------- a pass

  /** A window hour new to the window since the last pass is the one that has just ended. */
  lemma NewInWindow(epoch: int, last: int, now: int, hours: nat)
    requires last <= now && HourStart(now) <= HourStart(last) + HOUR && InWindow(epoch, now, hours)
    ensures InWindow(epoch, last, hours) || epoch == HourStart(now) - HOUR
  {
    var a, b := last / HOUR, now / HOUR;
    assert last == a * HOUR + last % HOUR && now == b * HOUR + now % HOUR;
    assert HourStart(last) == a * HOUR && HourStart(now) == b * HOUR;
    assert b == a || b == a + 1;
  }

  /** What a pass leaves marked, or out, is owed by what it noted or was owed before. */
  lemma PassNotes(s: System, m: Move, hours: nat, f: Field)
    requires Sound(s) && m.PassMove? && Legal(s, m, hours) && Sees(s, m, f.svc) && InWindow(f.epoch, m.p.now, hours)
    ensures var g := Play(s.flags, m.p.noted);
            && (MarkedIsOwed(s, hours, f) && f in m.p.after && Marked(m.p.after[f]) ==>
                g.readMissing || g.storeFailed || Covered(s, hours, f))
            && (UnstoredIsOwed(s, hours, f) && Sampled(m, f) && f !in m.p.after ==>
                g.needFull || (Covered(s, hours, f) && s.active.value.full))
  {
    hide RollupStep, StoredOk, Attempted, HasSamples, Notes, Missed, PassErred, DayAfter, Play, IsListed, Unlisted,
         InWindow, Marked, HourStart;
    var p := m.p;
    WindowIsKept(f.epoch, p.now, hours);
    PlayNotes(s.flags, p.noted, Missed(p.tries), PassErred(p));
    assert Lookup(p.after, f) == After(p.before, p.tries, p.retention, f);
    if f in p.tries {
      AttemptRepairs(Lookup(p.before, f), f, true, p.now, p.retention, p.tries[f], p.w);
      NotedAt(p, f);
    } else {
      NewInWindow(f.epoch, s.last, p.now, hours);
      if !InWindow(f.epoch, s.last, hours) {
        assert IsPassHour(f.epoch, p.now);
        assert PassErred(p) by { UnlistedErs(p, m.listings); }
      }
    }
  }

  lemma NotedAt(p: Passing, f: Field)
    requires f in p.tries
    ensures p.tries[f].missing != {} ==> Missed(p.tries)
    ensures ErredAt(p.before, p.tries, p.retention, f) ==> PassErred(p)
  {
    hide RollupStep, DayFails;
  }

  lemma UnlistedErs(p: Passing, listings: Option<seq<Option<seq<string>>>>)
    requires PassOver(p, listings) && Unlisted(listings)
    ensures PassErred(p)
  {
    hide RollupStep, DayFails, IsListed, Unlisted;
  }

  /** The end of a pass drops no flag without starting a backfill of the window. */
  lemma PassKeepsOwed(s: System, m: Move, hours: nat, f: Field)
    requires Sound(s) && m.PassMove? && Legal(s, m, hours) && Sees(s, m, f.svc)
    ensures MarkedIsOwed(s, hours, f) ==> MarkedIsOwed(Next(s, m), hours, f)
    ensures UnstoredIsOwed(s, hours, f) && Sampled(m, f) ==> UnstoredIsOwed(Next(s, m), hours, f)
  {
    hide Passed, StoredOk, Marked, InWindow, Play, HasSamples, IsListed, Unlisted, Rolls, HourStart, Sampled;
    PassFlags(s, m, hours);
    if InWindow(f.epoch, m.p.now, hours) {
      PassNotes(s, m, hours, f);
    }
  }

  lemma PassFlags(s: System, m: Move, hours: nat)
    requires m.PassMove? && Legal(s, m, hours)
    ensures Play(s.flags, m.p.noted).backfilling == s.flags.backfilling
    ensures Play(s.flags, m.p.noted).lastFull == s.flags.lastFull
    ensures m.end.PassEnds? && m.end.now == m.p.now
  {
    hide Missed, PassErred, PassStored, PassOver, Play, Notes;
    PlayNotes(s.flags, m.p.noted, Missed(m.p.tries), PassErred(m.p));
  }

  lemma PassKeepsSound(s: System, m: Move, hours: nat)
    requires Sound(s) && m.PassMove? && Legal(s, m, hours)
    ensures Sound(Next(s, m))
  {
    hide Passed, StoredOk, Play, Rolls;
    PassFlags(s, m, hours);
    forall g ensures StoredOk(Lookup(m.p.after, g)) {
      PassKeepsRight(m.p, m.listings, m.end, g);
    }
  }

  // ------------------------------------------------------------- a backfill

  lemma FillFlags(s: System, m: Move, hours: nat)
    requires m.FillMove? && Legal(s, m, hours)
    ensures var g := Play(s.flags, m.b.noted);
            && (s.flags.readMissing ==> g.readMissing) && (s.flags.storeFailed ==> g.storeFailed)
            && (s.flags.needFull ==> g.needFull) && g.lastFull == s.flags.lastFull
  {
    hide Ran, Play, Missed, Erred, DayErredIn;
    BackfillRaises(m.b, s.flags);
  }

  /** What a backfill leaves marked, or out, of the hours it covers was noted by it. */
  lemma FillNotes(s: System, m: Move, hours: nat, f: Field)
    requires Sound(s) && m.FillMove? && Legal(s, m, hours) && Sees(s, m, f.svc) && InWindow(f.epoch, m.b.at, hours)
    ensures var g := Play(s.flags, m.b.noted);
            && (f in m.b.after && Marked(m.b.after[f]) ==> g.readMissing || g.storeFailed)
            && (Sampled(m, f) && f !in m.b.after && (m.b.full || f in m.b.before) ==> g.needFull)
  {
    hide Ran, StoredOk, Marked, InWindow, Play, HasSamples, HourStart, RollupStep, Attempted, Missed, Erred, DayErredIn;
    var b := m.b;
    var o := WindowOffset(f.epoch, b.at, hours);
    WindowIsKept(f.epoch, b.at, hours);
    WindowHourAttempted(b, f.svc, o);
    LeftOf(b, f);
    BackfillRaises(b, s.flags);
    if f in b.tries {
      var i, p := AttemptedWasDue(b, f);
      AttemptRepairs(Lookup(b.before, f), f, MarkHour(b.refs[i], f.epoch), b.at, b.retention, b.tries[f], b.w);
      FillNotedAt(b, f);
    }
  }

  lemma FillNotedAt(b: Backfilling, f: Field)
    requires f in b.tries
    ensures b.tries[f].missing != {} ==> Missed(b.tries)
    ensures ErredAt(b.before, b.tries, b.retention, f) ==> Erred(b.before, b.tries, b.retention)
  {
    hide RollupStep;
  }

  /** A backfill touches no hour that its window does not cover. */
  lemma UncoveredStays(b: Backfilling, f: Field)
    requires Ran(b) && !InWindow(f.epoch, b.at, b.hours)
    ensures Lookup(b.after, f) == Lookup(b.before, f)
  {
    hide Ran, InWindow, HourStart, Attempted, Due, MarkHour, RollupStep;
    LeftOf(b, f);
    if f in b.tries {
      var i, o := AttemptedWasDue(b, f);
      OffsetInWindow(b.at, b.hours, o);
    }
  }

  lemma FillKeepsOwed(s: System, m: Move, hours: nat, f: Field)
    requires Sound(s) && m.FillMove? && Legal(s, m, hours) && Sees(s, m, f.svc)
    ensures MarkedIsOwed(s, hours, f) ==> MarkedIsOwed(Next(s, m), hours, f)
    ensures UnstoredIsOwed(s, hours, f) && Sampled(m, f) ==> UnstoredIsOwed(Next(s, m), hours, f)
  {
    hide Ran, StoredOk, Marked, InWindow, Play, HasSamples, HourStart, Sampled;
    FillFlags(s, m, hours);
    if InWindow(f.epoch, m.b.at, hours) {
      FillNotes(s, m, hours, f);
    } else {
      UncoveredStays(m.b, f);
      assert f in m.b.after <==> f in s.rollups;
      assert f in s.rollups ==> m.b.after[f] == s.rollups[f];
    }
  }

  lemma FillKeepsSound(s: System, m: Move, hours: nat)
    requires Sound(s) && m.FillMove? && Legal(s, m, hours)
    ensures Sound(Next(s, m))
  {
    hide Ran, StoredOk, Play;
    FillFlags(s, m, hours);
    forall g ensures StoredOk(Lookup(m.b.after, g)) {
      RecordsStayRight(m.b, g);
    }
  }

  // --------------------------------------------------------------- any move

  lemma MoveKeeps(s: System, m: Move, hours: nat, f: Field)
    requires Sound(s) && Legal(s, m, hours) && Sees(s, m, f.svc)
    ensures Sound(Next(s, m))
    ensures MarkedIsOwed(s, hours, f) ==> MarkedIsOwed(Next(s, m), hours, f)
    ensures UnstoredIsOwed(s, hours, f) && Sampled(m, f) ==> UnstoredIsOwed(Next(s, m), hours, f)
  {
    match m
    case PassMove(_, _, _) =>
      hide *;
      PassKeepsSound(s, m, hours);
      PassKeepsOwed(s, m, hours, f);
    case FillMove(_) =>
      hide *;
      FillKeepsSound(s, m, hours);
      FillKeepsOwed(s, m, hours, f);
    case ExpireMove(gone, _) =>
      hide RecordOk, InWindow, Marked;
      forall g ensures StoredOk(Lookup(s.rollups - gone, g)) {
        assert StoredOk(Lookup(s.rollups, g));
      }
  }

  /**
   * Over every run, with locations and the primary failing at any point: a
   * finished hour of the window that is stored incomplete is owed by a flag or
   * by the backfill under way, and one with samples that is not stored is owed
   * by the flag for a full backfill or by a full one under way.
   */
  lemma {:induction false} WhatIsUndoneIsOwed(rollups: map<Field, AggregateRollup>, daily: map<Field, DailyRollup>,
                                              start: int, moves: seq<Move>, hours: nat, f: Field)
    requires forall g :: StoredOk(Lookup(rollups, g))
    requires Possible(Begins(rollups, daily, start), moves, hours, f.svc)
    ensures var s := Final(Begins(rollups, daily, start), moves);
            && Sound(s) && MarkedIsOwed(s, hours, f)
            && ((forall i :: 0 <= i < |moves| ==> Sampled(moves[i], f)) ==> UnstoredIsOwed(s, hours, f))
    decreases |moves|
  {
    hide StoredOk, InWindow, Marked, Sampled, Legal, Sees, Next;
    if moves != [] {
      var before, m := moves[..|moves| - 1], moves[|moves| - 1];
      WhatIsUndoneIsOwed(rollups, daily, start, before, hours, f);
      MoveKeeps(Final(Begins(rollups, daily, start), before), m, hours, f);
      assert forall i :: 0 <= i < |before| ==> before[i] == moves[i];
    }
  }

  /** The finished hour is stored, complete. */
  predicate Complete(s: System, f: Field) {
    f in s.rollups && !Marked(s.rollups[f])
  }

  /**
   * Whenever nothing is owed and no backfill is under way, every finished hour
   * of the window that has samples is stored complete, whatever failed before.
   */
  lemma NothingOwedMeansComplete(rollups: map<Field, AggregateRollup>, daily: map<Field, DailyRollup>, start: int,
                                 moves: seq<Move>, hours: nat, f: Field)
    requires forall g :: StoredOk(Lookup(rollups, g))
    requires Possible(Begins(rollups, daily, start), moves, hours, f.svc)
    requires forall i :: 0 <= i < |moves| ==> Sampled(moves[i], f)
    requires var s := Final(Begins(rollups, daily, start), moves);
             Owed(s.flags) == 0 && !s.flags.backfilling && InWindow(f.epoch, s.last, hours)
    ensures Complete(Final(Begins(rollups, daily, start), moves), f)
  {
    hide StoredOk, InWindow, Marked, Sampled, Possible, Final;
    WhatIsUndoneIsOwed(rollups, daily, start, moves, hours, f);
  }

  // ----------------------------------------------------------- two clean rounds

  datatype PassAndFill = PassAndFill(pass: Move, fill: Move)

  /** A pass for which nothing fails, and the backfill it starts, if any. */
  ghost predicate Round(s: System, p: PassAndFill, hours: nat, svc: string) {
    && p.pass.PassMove? && Legal(s, p.pass, hours) && Sees(s, p.pass, svc)
    && Healthy(p.pass.p.w) && !Unlisted(p.pass.listings)
    && var t := Next(s, p.pass);
       t.active.Some? ==>
         p.fill.FillMove? && Legal(t, p.fill, hours) && Sees(t, p.fill, svc) && Healthy(p.fill.b.w)
  }

  ghost function MovesOf(s: System, r: PassAndFill): seq<Move> {
    [r.pass] + if Next(s, r.pass).active.Some? then [r.fill] else []
  }

  lemma ListedRolls(listings: Option<seq<Option<seq<string>>>>, svc: string)
    requires listings.Some? && IsListed(listings.value, svc)
    ensures Rolls(listings)
  {
  }

  /** Such a round is a clean pass of the flags. */
  lemma RoundIsClean(s: System, r: PassAndFill, hours: nat, svc: string)
    requires Sound(s) && !s.flags.backfilling && Round(s, r, hours, svc)
    ensures var t := Final(s, MovesOf(s, r));
            && t.last == r.pass.p.now && Sound(t)
            && t.flags == Play(s.flags, CleanPass(s.flags, t.last)) && !t.flags.backfilling
    ensures Possible(s, MovesOf(s, r), hours, svc)
  {
    hide Passed, Ran, Healthy, Play, StoredOk, Sees, IsListed, Unlisted, Rolls, CleanPass;
    var p := r.pass.p;
    var end := PassEnds(p.now, {}, false);
    assert r.pass.listings.Some? && IsListed(r.pass.listings.value, svc) by { SeesWithoutFailure(s, r.pass, svc); }
    ListedRolls(r.pass.listings, svc);
    HealthyPass(p, r.pass.listings, r.pass.end, s.flags);
    var t := Next(s, r.pass);
    assert t.flags == Step(s.flags, end);
    PassKeepsSound(s, r.pass, hours);
    CleanMoves(s, r, hours, svc);
    CleanEvents(s.flags, p.now);
    if t.active.Some? {
      HealthyBackfill(r.fill.b, t.flags);
      FillKeepsSound(t, r.fill, hours);
    }
  }

  lemma SeesWithoutFailure(s: System, m: Move, svc: string)
    requires m.PassMove? && Sees(s, m, svc) && !Unlisted(m.listings)
    ensures m.listings.Some? && IsListed(m.listings.value, svc)
  {
  }

  lemma RoundComesLater(s: System, r: PassAndFill, hours: nat, svc: string)
    requires Round(s, r, hours, svc)
    ensures s.last <= r.pass.p.now
  {
    hide Passed, Healthy, Unlisted, Sees, Next;
  }

  lemma CleanMoves(s: System, r: PassAndFill, hours: nat, svc: string)
    requires Round(s, r, hours, svc)
    ensures var t := Next(s, r.pass);
            Final(s, MovesOf(s, r)) == if t.active.Some? then Next(t, r.fill) else t
    ensures Possible(s, MovesOf(s, r), hours, svc)
  {
    hide Legal, Sees, Healthy, Unlisted, Next;
    var t := Next(s, r.pass);
    assert [r.pass][..0] == [];
    assert Final(s, [r.pass]) == t && Possible(s, [r.pass], hours, svc);
    if t.active.Some? {
      assert [r.pass, r.fill][..1] == [r.pass];
      assert MovesOf(s, r) == [r.pass, r.fill];
    } else {
      assert MovesOf(s, r) == [r.pass];
    }
  }

  lemma CleanEvents(f: Flags, now: int)
    ensures var e := PassEnds(now, {}, false);
            Play(f, CleanPass(f, now)) == if Starts(f, e) then Step(Step(f, e), BackfillEnds) else Step(f, e)
  {
    var e := PassEnds(now, {}, false);
    assert [e][..0] == [];
    assert Play(f, [e]) == Step(f, e);
    assert [e, BackfillEnds][..1] == [e];
  }

  lemma {:induction false} MovesAppend(s: System, a: seq<Move>, b: seq<Move>, hours: nat, svc: string)
    requires Possible(s, a, hours, svc) && Possible(Final(s, a), b, hours, svc)
    ensures Final(s, a + b) == Final(Final(s, a), b) && Possible(s, a + b, hours, svc)
    decreases |b|
  {
    hide Legal, Sees, Next;
    if b == [] {
      assert a + b == a;
    } else {
      MovesAppend(s, a, b[..|b| - 1], hours, svc);
      assert (a + b)[..|a + b| - 1] == a + b[..|b| - 1];
    }
  }

  /**
   * After any run, whatever it left: two passes the gap apart for which, with
   * their backfills, nothing fails leave nothing owed, and every finished hour
   * of the window that has samples stored complete.
   */
  lemma TwoRoundsRestoreEveryHour(rollups: map<Field, AggregateRollup>, daily: map<Field, DailyRollup>, start: int,
                                  moves: seq<Move>, one: PassAndFill, two: PassAndFill, hours: nat, f: Field)
    requires forall g :: StoredOk(Lookup(rollups, g))
    requires Possible(Begins(rollups, daily, start), moves, hours, f.svc)
    requires var s := Final(Begins(rollups, daily, start), moves);
             && !s.flags.backfilling && Round(s, one, hours, f.svc)
             && var t := Final(s, MovesOf(s, one));
                && Round(t, two, hours, f.svc) && two.pass.p.now - one.pass.p.now >= FULL_BACKFILL_GAP
                && var all := moves + MovesOf(s, one) + MovesOf(t, two);
                   forall i :: 0 <= i < |all| ==> Sampled(all[i], f)
    ensures var s := Final(Begins(rollups, daily, start), moves);
            var t := Final(s, MovesOf(s, one));
            var u := Final(t, MovesOf(t, two));
            Owed(u.flags) == 0 && !u.flags.backfilling && (InWindow(f.epoch, u.last, hours) ==> Complete(u, f))
  {
    hide StoredOk, InWindow, Marked, Sampled, Possible, Final, Round, MovesOf, Play, CleanPass;
    var begin := Begins(rollups, daily, start);
    var s := Final(begin, moves);
    WhatIsUndoneIsOwed(rollups, daily, start, moves, hours, f);
    RoundIsClean(s, one, hours, f.svc);
    var t := Final(s, MovesOf(s, one));
    CleanPassPlays(s.flags, t.last);
    RoundIsClean(t, two, hours, f.svc);
    var u := Final(t, MovesOf(t, two));
    CleanPassPlays(t.flags, u.last);
    MovesAppend(begin, moves, MovesOf(s, one), hours, f.svc);
    MovesAppend(begin, moves + MovesOf(s, one), MovesOf(t, two), hours, f.svc);
    RoundComesLater(s, one, hours, f.svc);
    assert Owed(u.flags) == 0;
    if InWindow(f.epoch, u.last, hours) {
      NothingOwedMeansComplete(rollups, daily, start, moves + MovesOf(s, one) + MovesOf(t, two), hours, f);
    }
  }

  // ------------------------------------------------------------- the runner

  /** The runner and its primary are in this state. */
  ghost predicate Matches(runner: Runner, s: System)
    reads runner, runner.primary
  {
    s.flags == runner.State() && s.rollups == runner.primary.rollups && s.daily == runner.primary.daily
  }

  /** Every pass of the runner is a move. */
  method PassIsAMove(runner: Runner, ghost s: System, now: int, listings: Option<seq<Option<seq<string>>>>, w: World)
    returns (start: bool, full: bool, ghost m: Move)
    requires Matches(runner, s) && runner.primary.retention == runner.hours * HOUR && s.last <= now
    requires listings.Some? ==> DistinctServices(listings.value)
    modifies runner, runner.primary
    ensures m.PassMove? && m.p.now == now && m.listings == listings && m.p.w == w && Legal(s, m, runner.hours)
    ensures Matches(runner, Next(s, m))
    ensures Next(s, m).active == if start then Some(Active(now, full)) else s.active
  {
    hide Passed, Play, Rolls, Starts, WantsFull, DistinctServices;
    ghost var p, end;
    start, full, p, end := runner.RunOnce(now, listings, w);
    m := PassMove(p, listings, end);
    assert end.PassEnds? && end.now == now by { hide *; EndsNow(p, listings, end); }
  }

  lemma EndsNow(p: Passing, listings: Option<seq<Option<seq<string>>>>, end: Event)
    requires Passed(p, listings, end)
    ensures end.PassEnds? && end.now == p.now
  {
  }

  /** So is every backfill it has started, to its end. */
  method BackfillIsAMove(runner: Runner, ghost s: System, at: int, full: bool, services: seq<string>, w: World)
    returns (ghost m: Move)
    requires Matches(runner, s) && runner.primary.retention == runner.hours * HOUR
    requires s.active == Some(Active(at, full))
    requires forall i, j :: 0 <= i < j < |services| ==> services[i] != services[j]
    modifies runner, runner.primary
    ensures m.FillMove? && m.b.services == services && m.b.w == w && Legal(s, m, runner.hours)
    ensures Matches(runner, Next(s, m))
  {
    hide Ran, Play;
    var b := runner.Backfill(at, full, services, w);
    runner.NoteBackfillEnds();
    m := FillMove(b);
  }
}
