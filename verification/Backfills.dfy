/**
 * What a backfill leaves behind: backfill in dashboard/internal/rollup/rollup.go
 * put together with RollupHour and UpdateDailyRollup in
 * dashboard/internal/store/store.go.
 */
module Backfills {
  import opened Base
  import opened Sums
  import opened Rollups
  import opened Days
  import opened PrimaryStore
  import opened RepairFlags
  import opened RollupRunner
  import HourRollup

  // -------------------------------------------------------------- the hours

  /** Every location answers for the hour, and so does the primary. */
  ghost predicate Answers(w: World, f: Field) {
    && w.replies(f) == Replies(true, Done, true, true)
    && (forall l :: l in w.readings(f) ==> w.readings(f)[l].Read?)
  }

  /** One call that meets no failure, for a finished hour still kept. */
  ghost predicate CleanCall(f: Field, retention: nat, a: Attempt, w: World) {
    && Answers(w, f) && a.replies == w.replies(f) && ReadFrom(a.latest, a.missing, w.readings(f))
    && f.epoch + HOUR <= a.now < f.epoch + retention
  }

  lemma CleanCallReads(f: Field, retention: nat, a: Attempt, w: World)
    requires CleanCall(f, retention, a, w)
    ensures a.missing == {} && (a.latest != map[] <==> HasSamples(w.readings(f)))
    ensures forall l :: l in a.latest ==> a.latest[l].total > 0
  {
    ReadHasSamples(a.latest, a.missing, w.readings(f));
  }

  /** Such a call stores the hour complete when anything is known of it, and removes a placeholder otherwise. */
  lemma CleanCallRepairs(stored: Option<AggregateRollup>, f: Field, retention: nat, a: Attempt, w: World)
    requires StoredOk(stored) && CleanCall(f, retention, a, w)
    ensures var s := RollupStep(stored, f.epoch, retention, a);
            && !s.err && (s.stored.Some? ==> !Marked(s.stored.value)) && s.written == s.stored.Some?
            && (s.stored.Some? <==> HasSamples(w.readings(f)) || LocationsOf(stored) != map[])
  {
    hide Aggregated, ReadFrom, HasSamples, SumsUp, CleanCall;
    CleanCallReads(f, retention, a, w);
    assert f.epoch + HOUR <= a.now < f.epoch + retention && a.replies == Replies(true, Done, true, true) by {
      hide *;
      CleanParts(f, retention, a, w);
    }
    AggregatedParts(MergedLocations(a.latest, LocationsOf(stored)), a.missing, a.now < f.epoch + 3600);
    MergedHas(a.latest, LocationsOf(stored));
  }

  lemma CleanParts(f: Field, retention: nat, a: Attempt, w: World)
    requires CleanCall(f, retention, a, w)
    ensures f.epoch + HOUR <= a.now < f.epoch + retention && a.replies == Replies(true, Done, true, true)
  {
  }

  lemma AttemptedWasDue(b: Backfilling, f: Field) returns (i: nat, o: nat)
    requires Ran(b) && f in b.tries
    ensures i < |b.refs| && 1 <= o < b.hours && IsDue(f, b.refs[i], HourStart(b.at), b.full, o)
    ensures Attempted(b.tries[f], f, MarkHour(b.refs[i], f.epoch), b.at, b.retention, b.w)
  {
    hide RollupStep, ReadFrom, DayOf, Due, HourStart, Attempted, IsDue, Listed, Rebuilding, Notes;
    assert DueBefore(f, b.refs, HourStart(b.at), b.full, Max(1, b.hours), 0);
    i, o :| 0 <= i < |b.refs| && 1 <= o && (o < Max(1, b.hours) || (o == Max(1, b.hours) && i < 0)) &&
            IsDue(f, b.refs[i], HourStart(b.at), b.full, o);
    assert b.refs[i].svc == f.svc by { hide *; DueIs(f, b.refs[i], HourStart(b.at), b.full, o); }
    assert AttemptAt(b.tries[f], f, b.refs[i], b.at, b.retention, b.w);
  }

  /** What the backfill left of a field. */
  lemma LeftOf(b: Backfilling, f: Field)
    requires Ran(b)
    ensures Lookup(b.after, f) == After(b.before, b.tries, b.retention, f)
    ensures f !in b.tries ==> Lookup(b.after, f) == Lookup(b.before, f)
  {
    hide RollupStep, ReadFrom, DueBefore, AttemptAt, Touches, Listed, Rebuilding, Notes;
  }

  lemma DueIs(f: Field, ref: Ref, now: int, full: bool, o: int)
    requires IsDue(f, ref, now, full, o)
    ensures f.svc == ref.svc && f.epoch == now - o * HOUR && Due(ref, f.epoch, full)
  {
  }

  lemma DescribedHour(ref: Ref, rollups: map<Field, AggregateRollup>, lo: int, hi: int, h: int)
    requires Describes(ref, HoursOf(rollups, ref.svc, lo, hi)) && lo <= h <= hi
    ensures var f := Field(ref.svc, h);
            && (h in ref.existing <==> f in rollups && !Marked(rollups[f]))
            && (h in ref.marked <==> f in rollups && Marked(rollups[f]))
  {
    var hours := HoursOf(rollups, ref.svc, lo, hi);
    var f := Field(ref.svc, h);
    assert h in hours <==> f in rollups;
    assert h in hours ==> hours[h] == rollups[f];
  }

  /** A service is described when it could be listed and its hours read. */
  lemma DescribedService(b: Backfilling, svc: string) returns (i: nat)
    requires Ran(b) && svc in b.services && b.w.hoursReadable(svc)
    ensures i < |b.refs| && b.refs[i].svc == svc
    ensures Describes(b.refs[i], HoursOf(b.before, svc, Oldest(b.at, b.hours), HourStart(b.at)))
  {
    hide Filled, Rebuilding, Notes, Describes, HoursOf;
    assert HasRef(b.refs, svc);
    i :| 0 <= i < |b.refs| && b.refs[i].svc == svc;
  }

  lemma Described(b: Backfilling, i: nat)
    requires Ran(b) && i < |b.refs|
    ensures b.refs[i].svc in b.services && b.w.hoursReadable(b.refs[i].svc)
    ensures Describes(b.refs[i], HoursOf(b.before, b.refs[i].svc, Oldest(b.at, b.hours), HourStart(b.at)))
    ensures forall j :: 0 <= j < |b.refs| && b.refs[j].svc == b.refs[i].svc ==> j == i
  {
    hide Filled, Rebuilding, Notes, Describes, HoursOf;
  }

  /** Whatever fails, a backfill leaves alone every stored hour that is complete. */
  lemma CompleteHoursAreKept(b: Backfilling, f: Field)
    requires Ran(b) && f in b.before && !Marked(b.before[f])
    ensures f !in b.tries && Lookup(b.after, f) == Some(b.before[f])
  {
    hide Ran, After, HourStart, Attempted, Describes, HoursOf;
    LeftOf(b, f);
    if f in b.tries {
      var i, o := AttemptedWasDue(b, f);
      Described(b, i);
      DescribedHour(b.refs[i], b.before, Oldest(b.at, b.hours), HourStart(b.at), f.epoch);
    }
  }

  /**
   * An hour of the window of a service that could be listed is attempted when
   * it is marked, or by a full backfill when it is not stored.
   */
  lemma WindowHourAttempted(b: Backfilling, svc: string, o: nat)
    requires Ran(b) && svc in b.services && b.w.hoursReadable(svc) && 1 <= o < b.hours
    ensures var f := Field(svc, HourStart(b.at) - o * HOUR);
            f in b.tries <==> (f in b.before && Marked(b.before[f])) || (b.full && f !in b.before)
  {
    hide Ran, HourStart, Attempted, Describes, HoursOf;
    var f := Field(svc, HourStart(b.at) - o * HOUR);
    var i := DescribedService(b, svc);
    DescribedHour(b.refs[i], b.before, Oldest(b.at, b.hours), HourStart(b.at), f.epoch);
    if f in b.tries {
      var j, p := AttemptedWasDue(b, f);
      Described(b, i);
    }
    if (f in b.before && Marked(b.before[f])) || (b.full && f !in b.before) {
      assert IsDue(f, b.refs[i], HourStart(b.at), b.full, o);
      DueIsAttempted(b, f, i, o);
    }
  }

  lemma DueIsAttempted(b: Backfilling, f: Field, i: nat, o: nat)
    requires Ran(b) && i < |b.refs| && 1 <= o < b.hours && IsDue(f, b.refs[i], HourStart(b.at), b.full, o)
    ensures f in b.tries
  {
    hide Listed, Rebuilding, Notes, After, AttemptAt, Touches, HourStart, IsDue;
    assert DueBefore(f, b.refs, HourStart(b.at), b.full, Max(1, b.hours), 0);
  }

  /**
   * After a backfill for whose hours nothing fails, no finished hour of the
   * window is left marked; a full one leaves every such hour that has samples
   * stored, and one that is not full adds no hours.
   */
  lemma WindowIsRepaired(b: Backfilling, svc: string, o: nat)
    requires Ran(b) && b.retention == b.hours * HOUR
    requires svc in b.services && b.w.hoursReadable(svc) && 1 <= o < b.hours
    requires var f := Field(svc, HourStart(b.at) - o * HOUR); StoredOk(Lookup(b.before, f)) && Answers(b.w, f)
    ensures var f := Field(svc, HourStart(b.at) - o * HOUR);
            && (f in b.after ==> !Marked(b.after[f]))
            && (b.full && HasSamples(b.w.readings(f)) ==> f in b.after)
            && (!b.full && f !in b.before ==> f !in b.after)
            && (f in b.before && b.before[f].perLocation != map[] ==> f in b.after)
  {
    hide Ran, RollupStep, ReadFrom, HasSamples, RecordOk, Answers;
    var f := Field(svc, HourStart(b.at) - o * HOUR);
    WindowHourAttempted(b, svc, o);
    LeftOf(b, f);
    if f in b.tries {
      AttemptIsClean(b, f);
      CleanCallRepairs(Lookup(b.before, f), f, b.retention, b.tries[f], b.w);
    }
  }

  /** Where nothing fails, the attempt is a clean call. */
  lemma AttemptIsClean(b: Backfilling, f: Field)
    requires Ran(b) && b.retention == b.hours * HOUR && f in b.tries && Answers(b.w, f)
    ensures CleanCall(f, b.retention, b.tries[f], b.w)
  {
    hide Ran, ReadFrom, Answers, MarkHour, Due;
    var i, o := AttemptedWasDue(b, f);
    StillKept(b.at, b.hours, o);
  }

  lemma StillKept(at: int, hours: nat, o: nat)
    requires 1 <= o < hours
    ensures var h := HourStart(at) - o * HOUR; h + HOUR <= at < h + hours * HOUR
  {
  }

  /** No location could be read for the hour, and the primary answers. */
  ghost predicate Dark(w: World, f: Field) {
    && w.replies(f) == Replies(true, Done, true, true) && w.readings(f) != map[]
    && forall l :: l in w.readings(f) ==> w.readings(f)[l].Unreadable?
  }

  /** Some hour of the window up to this one is stored for the service. */
  ghost predicate StoredUpTo(b: Backfilling, f: Field) {
    exists g :: g in b.before && g.svc == f.svc && Oldest(b.at, b.hours) <= g.epoch <= f.epoch
  }

  lemma FirstStored(b: Backfilling, i: nat, f: Field)
    requires Ran(b) && i < |b.refs| && b.refs[i].svc == f.svc
    requires Oldest(b.at, b.hours) <= f.epoch <= HourStart(b.at)
    ensures StoredUpTo(b, f) <==> b.refs[i].first.Some? && f.epoch >= b.refs[i].first.value
  {
    hide Ran, HourStart, Oldest;
    Described(b, i);
    var hours := HoursOf(b.before, f.svc, Oldest(b.at, b.hours), HourStart(b.at));
    if StoredUpTo(b, f) {
      var g :| g in b.before && g.svc == f.svc && Oldest(b.at, b.hours) <= g.epoch <= f.epoch;
      assert g.epoch in EpochsOf(b.before, f.svc) && g.epoch in hours;
    }
    if b.refs[i].first.Some? {
      var h := b.refs[i].first.value;
      assert h in hours && Field(f.svc, h) in b.before;
    }
  }

  /** A call that can read nothing leaves a placeholder exactly when it may, or something was stored. */
  lemma DarkCall(stored: Option<AggregateRollup>, f: Field, mark: bool, at: int, retention: nat, a: Attempt, w: World)
    requires StoredOk(stored) && Attempted(a, f, mark, at, retention, w) && Dark(w, f)
    requires f.epoch + HOUR <= at < f.epoch + retention && (stored.Some? ==> Marked(stored.value) && mark)
    ensures var s := RollupStep(stored, f.epoch, retention, a).stored;
            (s.Some? <==> mark) &&
            (s.Some? ==> s.value.missing == w.readings(f).Keys && s.value.perLocation == LocationsOf(stored))
  {
    hide Aggregated, SumsUp;
    var l := SomeKey(w.readings(f));
    assert l in a.missing && a.missing == w.readings(f).Keys;
    forall k ensures k !in a.latest {
    }
    assert a.latest == map[];
    KeptLocations(stored);
    AggregatedParts(LocationsOf(stored), a.missing, false);
  }

  lemma KeptLocations(stored: Option<AggregateRollup>)
    requires StoredOk(stored)
    ensures MergedLocations(map[], LocationsOf(stored)) == LocationsOf(stored)
  {
    hide SumsUp;
  }

  /**
   * A full backfill that can read no location for an hour of its window leaves
   * it marked, with every location missing, if it was marked before or comes
   * after an hour stored for the service, and leaves it out otherwise.
   */
  lemma DarkHourIsMarked(b: Backfilling, svc: string, o: nat)
    requires Ran(b) && b.full && b.retention == b.hours * HOUR
    requires svc in b.services && b.w.hoursReadable(svc) && 1 <= o < b.hours
    requires var f := Field(svc, HourStart(b.at) - o * HOUR);
             StoredOk(Lookup(b.before, f)) && Dark(b.w, f) && (f in b.before ==> Marked(b.before[f]))
    ensures var f := Field(svc, HourStart(b.at) - o * HOUR);
            && (f in b.after <==> f in b.before || StoredUpTo(b, f))
            && (f in b.after ==> Marked(b.after[f]) && b.after[f].missing == b.w.readings(f).Keys)
  {
    hide Ran, RollupStep, StoredOk, Attempted, Dark, StoredUpTo, Due, HourStart;
    var f := Field(svc, HourStart(b.at) - o * HOUR);
    WindowHourAttempted(b, svc, o);
    LeftOf(b, f);
    var i, p := AttemptedWasDue(b, f);
    assert b.at < f.epoch + b.retention && f.epoch + HOUR <= b.at by { hide *; StillKept(b.at, b.hours, o); }
    assert b.refs[i].svc == svc by { hide *; DueIs(f, b.refs[i], HourStart(b.at), b.full, p); }
    assert Oldest(b.at, b.hours) <= f.epoch <= HourStart(b.at) by { hide *; WithinOldest(b.at, b.hours, o); }
    FirstStored(b, i, f);
    Described(b, i);
    DescribedHour(b.refs[i], b.before, Oldest(b.at, b.hours), HourStart(b.at), f.epoch);
    DarkCall(Lookup(b.before, f), f, MarkHour(b.refs[i], f.epoch), b.at, b.retention, b.tries[f], b.w);
    assert b.w.readings(f) != map[] by { hide *; DarkReads(b.w, f); }
    NotNothing(b.w.readings(f));
  }

  lemma DarkReads(w: World, f: Field)
    requires Dark(w, f)
    ensures w.readings(f) != map[]
  {
  }

  lemma NotNothing<K, V>(m: map<K, V>)
    requires m != map[]
    ensures m.Keys != {}
  {
    var k := SomeKey(m);
    assert k in m.Keys;
  }

  lemma WithinOldest(at: int, hours: nat, o: nat)
    requires 1 <= o < hours
    ensures var h := HourStart(at) - o * HOUR; Oldest(at, hours) <= h <= HourStart(at)
  {
  }

  /** The first full day of the window is the least one none of whose hours comes before the window. */
  lemma FirstFullDay(at: int, hours: nat, day: int)
    ensures FirstFull(at, hours) <= day <==> forall h :: DayOf(h) == day ==> Oldest(at, hours) <= h
  {
    var oldest := Oldest(at, hours);
    var q := oldest / DAY;
    assert oldest == q * DAY + oldest % DAY;
    assert DayOf(day * DAY) == day;
    forall h | DayOf(h) == day ensures day * DAY <= h {
      assert h == h / DAY * DAY + h % DAY;
    }
  }

  // ----------------------------------------------------------- what is owed

  /** Services that could not be listed, or whose hours could not be read, are left exactly as they are. */
  lemma SkippedServiceIsUntouched(b: Backfilling, f: Field)
    requires Ran(b) && !(f.svc in b.services && b.w.hoursReadable(f.svc))
    ensures f !in b.tries && Lookup(b.after, f) == Lookup(b.before, f) &&
        Lookup(b.dailyAfter, f) == Lookup(b.dailyBefore, f)
  {
    hide Ran, After, Attempted, Describes, HoursOf, HourStart, Due;
    LeftOf(b, f);
    if f in b.tries {
      var i, o := AttemptedWasDue(b, f);
      Described(b, i);
    }
    forall i | 0 <= i < |b.refs| ensures b.refs[i].svc != f.svc {
      Described(b, i);
    }
    RebuiltDay(b, f);
  }

  lemma RebuiltDay(b: Backfilling, d: Field)
    requires Ran(b)
    ensures Lookup(b.dailyAfter, d) ==
            if (exists i :: 0 <= i < |b.refs| && b.refs[i].svc == d.svc) && DayDueIn(b, d)
            then DayAfter(b.after, b.dailyBefore, d, b.at, b.w) else Lookup(b.dailyBefore, d)
  {
    hide Listed, Filled, Notes, DayAfter, DayDue, FirstFull;
    var first := FirstFull(b.at, b.hours);
    assert DayPassed(d, b.refs, |b.refs|, first) <==> exists i :: 0 <= i < |b.refs| && b.refs[i].svc == d.svc;
  }

  /** The backfill was to update this day. */
  predicate DayDueIn(b: Backfilling, d: Field) {
    DayDue(d, b.dailyBefore, b.touched, b.at, b.hours, b.full, b.w)
  }

  /** The backfill noted a miss or a failure at this hour. */
  ghost predicate OwedAt(b: Backfilling, f: Field) {
    f in b.tries && (b.tries[f].missing != {} || ErredAt(b.before, b.tries, b.retention, f))
  }

  /** The hour is left marked, or by a full backfill left out although a location has samples of it. */
  ghost predicate LeftUndone(b: Backfilling, f: Field) {
    (f in b.after && Marked(b.after[f])) || (b.full && f !in b.after && HasSamples(b.w.readings(f)))
  }

  /** A call for a finished hour that misses nothing and fails nowhere leaves the hour complete. */
  lemma GoodCallRepairs(stored: Option<AggregateRollup>, f: Field, mark: bool, at: int, retention: nat, a: Attempt,
      w: World)
    requires StoredOk(stored) && Attempted(a, f, mark, at, retention, w) && f.epoch + HOUR <= at < f.epoch + retention
    requires a.missing == {} && !RollupStep(stored, f.epoch, retention, a).err
    ensures var s := RollupStep(stored, f.epoch, retention, a).stored;
            (s.Some? ==> !Marked(s.value)) && (HasSamples(w.readings(f)) ==> s.Some?)
  {
    hide Aggregated, ReadFrom, HasSamples, SumsUp;
    SamplesRead(f, mark, at, retention, a, w);
    AggregatedParts(MergedLocations(a.latest, LocationsOf(stored)), a.missing, a.now < f.epoch + 3600);
    MergedHas(a.latest, LocationsOf(stored));
  }

  lemma SamplesRead(f: Field, mark: bool, at: int, retention: nat, a: Attempt, w: World)
    requires Attempted(a, f, mark, at, retention, w) && at < f.epoch + retention
    ensures HasSamples(w.readings(f)) ==> a.latest != map[]
    ensures forall l :: l in a.latest ==> a.latest[l].total > 0
  {
    ReadHasSamples(a.latest, a.missing, w.readings(f));
  }

  /**
   * What a backfill leaves undone of an hour of the window it noted at that
   * hour if and only if the service could be read.
   */
  lemma UndoneHourIsOwed(b: Backfilling, svc: string, o: nat)
    requires Ran(b) && b.retention == b.hours * HOUR && svc in b.services && 1 <= o < b.hours
    requires var f := Field(svc, HourStart(b.at) - o * HOUR); StoredOk(Lookup(b.before, f)) && LeftUndone(b, f)
    ensures OwedAt(b, Field(svc, HourStart(b.at) - o * HOUR)) <==> b.w.hoursReadable(svc)
  {
    hide Ran, RollupStep, HasSamples, RecordOk, Attempted, MarkHour, Due;
    var f := Field(svc, HourStart(b.at) - o * HOUR);
    LeftOf(b, f);
    if !b.w.hoursReadable(svc) {
      SkippedServiceIsUntouched(b, f);
    } else {
      WindowHourAttempted(b, svc, o);
      if f in b.tries {
        var i, p := AttemptedWasDue(b, f);
        StillKept(b.at, b.hours, p);
        if !OwedAt(b, f) {
          GoodCallRepairs(Lookup(b.before, f), f, MarkHour(b.refs[i], f.epoch), b.at, b.retention, b.tries[f], b.w);
        }
      }
    }
  }

  /** What was noted anywhere raises its flags, and nothing else changes. */
  lemma BackfillRaises(b: Backfilling, f0: Flags)
    requires Ran(b)
    ensures Play(f0, b.noted) == Noted(f0, Missed(b.tries), Erred(b.before, b.tries, b.retention) || DayErredIn(b))
  {
    hide Listed, Filled, Rebuilding, Missed, Erred, DayErredIn, Play;
    PlayNotes(f0, b.noted, Missed(b.tries), Erred(b.before, b.tries, b.retention) || DayErredIn(b));
  }

  /** An hour of a service that could be read is never left undone without a flag that asks for another backfill. */
  lemma UndoneHourKeepsAFlag(b: Backfilling, f0: Flags, svc: string, o: nat)
    requires Ran(b) && b.retention == b.hours * HOUR && svc in b.services && 1 <= o < b.hours && b.w.hoursReadable(svc)
    requires var f := Field(svc, HourStart(b.at) - o * HOUR); StoredOk(Lookup(b.before, f)) && LeftUndone(b, f)
    ensures var g := Play(f0, b.noted); g.readMissing || (g.storeFailed && g.needFull)
  {
    hide Ran, StoredOk, LeftUndone, ErredAt, Play, DayErredIn, HourStart;
    var f := Field(svc, HourStart(b.at) - o * HOUR);
    UndoneHourIsOwed(b, svc, o);
    assert f in b.tries;
    BackfillRaises(b, f0);
  }

  /** The day has checks, and its daily rollup is missing or not their sum. */
  ghost predicate Behind(rollups: map<Field, AggregateRollup>, daily: map<Field, DailyRollup>, d: Field) {
    var sum := DaySum(rollups, d.svc, d.epoch);
    sum.success + sum.failure > 0 && Lookup(daily, d) != Some(sum)
  }

  ghost predicate DayBehind(b: Backfilling, d: Field) {
    Behind(b.after, b.dailyAfter, d)
  }

  ghost predicate DayOwedAt(b: Backfilling, d: Field) {
    DayDueIn(b, d) && DayFails(b.after, d, b.at, b.w)
  }

  /**
   * Whatever fails, a finished day still kept that a backfill leaves behind had
   * a failure noted at it if and only if the backfill was to update it: the day
   * lies wholly in the window, a full backfill could read the daily rollups,
   * and an hour of it was written or a full backfill found no rollup of it.
   */
  lemma UndoneDayIsOwed(b: Backfilling, d: Field)
    requires Ran(b) && d.svc in b.services && b.w.hoursReadable(d.svc)
    requires d.epoch < DayOf(b.at) && DayKept(d.epoch, b.at) && DayBehind(b, d)
    ensures DayOwedAt(b, d) <==>
            && FirstFull(b.at, b.hours) <= d.epoch
            && (b.full ==> b.w.daysReadable(d.svc))
            && (d in b.touched || (b.full && d !in b.dailyBefore))
  {
    hide Ran, DaySum, FirstFull, DayOf, Describes, HoursOf, Oldest, HourStart;
    var i := DescribedService(b, d.svc);
    RebuiltDay(b, d);
  }

  /**
   * Such a failure raises the flags that ask for a full backfill. That one
   * need not make it good: see OwedDayIsForgotten.
   */
  lemma OwedDayKeepsAFlag(b: Backfilling, f0: Flags, d: Field)
    requires Ran(b) && d.svc in b.services && b.w.hoursReadable(d.svc) && DayOwedAt(b, d)
    ensures var g := Play(f0, b.noted); g.storeFailed && g.needFull
  {
    hide Ran, DayFails, DayDue, FirstFull, Describes, HoursOf, Oldest, HourStart, Play, Missed, Erred;
    var i := DescribedService(b, d.svc);
    assert DayPassed(d, b.refs, |b.refs|, FirstFull(b.at, b.hours));
    BackfillRaises(b, f0);
  }

  // --------------------------------------------------------------- the days

  lemma ReadCounts(latest: Locations, missing: set<string>, readings: map<string, HourRollup.Reading>)
    requires ReadFrom(latest, missing, readings)
    ensures forall l :: l in latest ==> CountsUp(latest[l])
  {
    hide HourRollup.Lists, HourRollup.RollsUp;
    forall l | l in latest ensures CountsUp(latest[l]) {
      assert HourRollup.RollsUpReading(latest[l], readings[l]);
      var s :| HourRollup.Lists(s, readings[l]) && HourRollup.RollsUp(latest[l], s);
      HourRollup.RollupBounds(latest[l], s);
    }
  }

  /** A backfill keeps every record right, whatever fails. */
  lemma RecordsStayRight(b: Backfilling, f: Field)
    requires Ran(b) && StoredOk(Lookup(b.before, f))
    ensures StoredOk(Lookup(b.after, f))
  {
    hide Ran, RollupStep, StoredOk, IsDue, Attempted;
    LeftOf(b, f);
    if f in b.tries {
      var i, o := AttemptedWasDue(b, f);
      AttemptKeepsRight(Lookup(b.before, f), f, MarkHour(b.refs[i], f.epoch), b.at, b.retention, b.tries[f], b.w);
    }
  }

  lemma AttemptKeepsRight(stored: Option<AggregateRollup>, f: Field, mark: bool, at: int, retention: nat, a: Attempt,
      w: World)
    requires StoredOk(stored) && Attempted(a, f, mark, at, retention, w)
    ensures StoredOk(RollupStep(stored, f.epoch, retention, a).stored)
  {
    hide RollupStep, ReadFrom, RecordOk, StoredOk;
    if f.epoch + retention > at {
      ReadCounts(a.latest, a.missing, w.readings(f));
      StepKeepsRecordOk(stored, f.epoch, retention, a);
    } else {
      TooOldStep(stored, f.epoch, retention, a);
    }
  }

  lemma TooOldStep(stored: Option<AggregateRollup>, hour: int, retention: nat, a: Attempt)
    requires hour + retention <= a.now
    ensures RollupStep(stored, hour, retention, a).stored == stored
  {
  }

  /** A right record counts checks exactly when it has locations. */
  lemma RecordCounts(r: AggregateRollup)
    requires RecordOk(r)
    ensures r.success >= 0 && r.failure >= 0
    ensures r.success + r.failure > 0 <==> r.perLocation != map[]
    ensures r.perLocation == map[] ==> r.success == 0 && r.failure == 0
  {
    var per := r.perLocation;
    TotalNonNegative(Successes(per));
    TotalNonNegative(FailuresOf(per));
    if per != map[] {
      var l := SomeKey(per);
      TotalPick(Successes(per), l);
      TotalPick(FailuresOf(per), l);
      TotalNonNegative(Successes(per) - {l});
      TotalNonNegative(FailuresOf(per) - {l});
    } else {
      assert Successes(per) == map[] && FailuresOf(per) == map[];
    }
  }

  /** The checks a stored hour counts. */
  function ChecksAt(rollups: map<Field, AggregateRollup>, f: Field): DailyRollup {
    if f in rollups then DailyRollup(rollups[f].success, rollups[f].failure) else DailyRollup(0, 0)
  }

  lemma DayHour(rollups: map<Field, AggregateRollup>, svc: string, day: int, h: int)
    ensures var hours := HoursOf(rollups, svc, day * DAY, day * DAY + DAY - 1);
            && (h in hours <==> DayOf(h) == day && Field(svc, h) in rollups)
            && (h in hours ==> hours[h] == rollups[Field(svc, h)])
  {
    if Field(svc, h) in rollups {
      assert h in EpochsOf(rollups, svc);
    }
  }

  lemma DaySumSame(before: map<Field, AggregateRollup>, after: map<Field, AggregateRollup>, svc: string, day: int)
    requires forall h :: DayOf(h) == day ==> ChecksAt(after, Field(svc, h)) == ChecksAt(before, Field(svc, h))
    ensures DaySum(after, svc, day) == DaySum(before, svc, day)
  {
    hide HoursOf, Total;
    var lo, hi := day * DAY, day * DAY + DAY - 1;
    var a, b := HoursOf(after, svc, lo, hi), HoursOf(before, svc, lo, hi);
    forall h
      ensures h in a <==> DayOf(h) == day && Field(svc, h) in after
      ensures h in b <==> DayOf(h) == day && Field(svc, h) in before
      ensures h in a ==> a[h] == after[Field(svc, h)]
      ensures h in b ==> b[h] == before[Field(svc, h)]
    {
      DayHour(after, svc, day, h);
      DayHour(before, svc, day, h);
    }
    SameChecks(a, b, day);
  }

  lemma SameChecks(a: Hours, b: Hours, day: int)
    requires forall h :: h in a || h in b ==> DayOf(h) == day
    requires forall h :: h in a ==> a[h].success == if h in b then b[h].success else 0
    requires forall h :: h in a ==> a[h].failure == if h in b then b[h].failure else 0
    requires forall h :: h in b && h !in a ==> b[h].success == 0 && b[h].failure == 0
    ensures SumOn(a, day) == SumOn(b, day)
  {
    TotalSame(SuccessesOn(a, day), SuccessesOn(b, day));
    TotalSame(FailuresOn(a, day), FailuresOn(b, day));
  }

  /** A day with one hour that counts checks counts checks. */
  lemma DaySumCounts(rollups: map<Field, AggregateRollup>, f: Field)
    requires forall g :: g in rollups && g.svc == f.svc ==> RecordOk(rollups[g])
    requires f in rollups && rollups[f].perLocation != map[]
    ensures var sum := DaySum(rollups, f.svc, DayOf(f.epoch)); sum.success + sum.failure > 0
  {
    hide HoursOf, Total, RecordOk;
    var day := DayOf(f.epoch);
    var hours := HoursOf(rollups, f.svc, day * DAY, day * DAY + DAY - 1);
    forall h | h in hours ensures hours[h].success >= 0 && hours[h].failure >= 0 {
      DayHour(rollups, f.svc, day, h);
      RecordCounts(rollups[Field(f.svc, h)]);
    }
    RecordCounts(rollups[f]);
    DayHour(rollups, f.svc, day, f.epoch);
    assert f == Field(f.svc, f.epoch);
    SomeChecks(hours, day, f.epoch);
  }

  lemma SomeChecks(hours: Hours, day: int, h: int)
    requires forall g :: g in hours ==> hours[g].success >= 0 && hours[g].failure >= 0
    requires h in hours && DayOf(h) == day && hours[h].success + hours[h].failure > 0
    ensures SumOn(hours, day).success + SumOn(hours, day).failure > 0
  {
    var s, u := SuccessesOn(hours, day), FailuresOn(hours, day);
    TotalPick(s, h);
    TotalPick(u, h);
    TotalNonNegative(s - {h});
    TotalNonNegative(u - {h});
  }

  /** Nothing fails for any hour of the day. */
  ghost predicate DayAnswers(w: World, d: Field) {
    forall h :: DayOf(h) == d.epoch ==> Answers(w, Field(d.svc, h))
  }

  ghost predicate RecordsOk(rollups: map<Field, AggregateRollup>, svc: string) {
    forall g :: g in rollups && g.svc == svc ==> RecordOk(rollups[g])
  }

  /** The days touched are those of the hours written. */
  lemma TouchedWhenWritten(b: Backfilling, d: Field)
    requires Ran(b)
    ensures d in b.touched <==> exists f :: f in b.tries && Touches(b.before, b.tries, b.retention, f, d)
  {
    hide Listed, Rebuilding, Notes, After, AttemptAt, Touches, DueBefore;
  }

  /** An attempt that meets no failure and leaves its day untouched changes no count. */
  lemma UnwrittenHour(b: Backfilling, f: Field)
    requires Ran(b) && b.retention == b.hours * HOUR
    requires f in b.tries ==> Field(f.svc, DayOf(f.epoch)) !in b.touched && Answers(b.w, f)
    requires StoredOk(Lookup(b.before, f))
    ensures ChecksAt(b.after, f) == ChecksAt(b.before, f)
  {
    hide Ran, RollupStep, RecordOk, Answers, HasSamples, CleanCall, DayOf;
    LeftOf(b, f);
    if f in b.tries {
      AttemptIsClean(b, f);
      CleanCallRepairs(Lookup(b.before, f), f, b.retention, b.tries[f], b.w);
      TouchedWhenWritten(b, Field(f.svc, DayOf(f.epoch)));
      assert !Touches(b.before, b.tries, b.retention, f, Field(f.svc, DayOf(f.epoch)));
      if f in b.before {
        RecordCounts(b.before[f]);
      }
    }
  }

  lemma UntouchedDay(b: Backfilling, d: Field)
    requires Ran(b) && b.retention == b.hours * HOUR
    requires d !in b.touched && DayAnswers(b.w, d) && RecordsOk(b.before, d.svc)
    ensures DaySum(b.after, d.svc, d.epoch) == DaySum(b.before, d.svc, d.epoch)
  {
    hide Ran, DayOf, RecordOk, Answers, DaySum, ChecksAt;
    forall h | DayOf(h) == d.epoch ensures ChecksAt(b.after, Field(d.svc, h)) == ChecksAt(b.before, Field(d.svc, h)) {
      UnwrittenHour(b, Field(d.svc, h));
    }
    DaySumSame(b.before, b.after, d.svc, d.epoch);
  }

  lemma TouchedDay(b: Backfilling, d: Field)
    requires Ran(b) && b.retention == b.hours * HOUR
    requires d in b.touched && DayAnswers(b.w, d) && RecordsOk(b.before, d.svc)
    ensures var sum := DaySum(b.after, d.svc, d.epoch); sum.success + sum.failure > 0
  {
    hide Ran, RollupStep, RecordOk, Answers, DaySum, DayOf;
    TouchedWhenWritten(b, d);
    var f :| f in b.tries && Touches(b.before, b.tries, b.retention, f, d);
    assert d == Field(f.svc, DayOf(f.epoch));
    assert Answers(b.w, Field(d.svc, f.epoch)) && f == Field(d.svc, f.epoch);
    WrittenHour(b, f);
    forall g | g in b.after && g.svc == f.svc ensures RecordOk(b.after[g]) {
      RecordsStayRight(b, g);
    }
    DaySumCounts(b.after, f);
  }

  lemma WrittenHour(b: Backfilling, f: Field)
    requires Ran(b) && b.retention == b.hours * HOUR && f in b.tries && Answers(b.w, f) && StoredOk(Lookup(b.before, f))
    requires RollupStep(Lookup(b.before, f), f.epoch, b.retention, b.tries[f]).written
    ensures f in b.after && b.after[f].perLocation != map[]
  {
    hide Ran, RollupStep, RecordOk, Answers, HasSamples, CleanCall;
    LeftOf(b, f);
    AttemptIsClean(b, f);
    CleanCallRepairs(Lookup(b.before, f), f, b.retention, b.tries[f], b.w);
    RecordsStayRight(b, f);
    hide *;
    PlaceholderIsMarked(b.after, f);
  }

  lemma PlaceholderIsMarked(after: map<Field, AggregateRollup>, f: Field)
    requires f in after && !Marked(after[f]) && StoredOk(Lookup(after, f))
    ensures after[f].perLocation != map[]
  {
  }

  /** The daily rollup, where there is one, is the sum of its hours. */
  ghost predicate DayAgrees(daily: map<Field, DailyRollup>, rollups: map<Field, AggregateRollup>, d: Field) {
    d in daily ==> daily[d] == DaySum(rollups, d.svc, d.epoch)
  }

  /**
   * After a backfill for whose day nothing fails, the daily rollup of a
   * finished day of the window still is the sum of its hours, and a full one
   * leaves one for every such day that has checks.
   */
  lemma DayIsRepaired(b: Backfilling, d: Field)
    requires Ran(b) && b.retention == b.hours * HOUR
    requires d.svc in b.services && b.w.hoursReadable(d.svc) && (b.full ==> b.w.daysReadable(d.svc))
    requires FirstFull(b.at, b.hours) <= d.epoch < DayOf(b.at) && DayKept(d.epoch, b.at)
    requires DayAnswers(b.w, d) && b.w.dayReadable(d) && Landed(b.w.dayReplies(d).change)
    requires RecordsOk(b.before, d.svc) && DayAgrees(b.dailyBefore, b.before, d)
    ensures DayAgrees(b.dailyAfter, b.after, d)
    ensures var sum := DaySum(b.after, d.svc, d.epoch); b.full && sum.success + sum.failure > 0 ==> d in b.dailyAfter
  {
    hide Ran, DayAnswers, RecordsOk, DaySum, DayKept, FirstFull, DayOf, Describes, HoursOf, Oldest, HourStart;
    var i := DescribedService(b, d.svc);
    RebuiltDay(b, d);
    if d in b.touched {
      TouchedDay(b, d);
    } else {
      UntouchedDay(b, d);
    }
  }

  /** The day's update is read and written, and nothing fails for its hours. */
  ghost predicate DayHealthy(b: Backfilling, d: Field) {
    && b.retention == b.hours * HOUR
    && d.svc in b.services && b.w.hoursReadable(d.svc) && (b.full ==> b.w.daysReadable(d.svc))
    && DayAnswers(b.w, d) && b.w.dayReadable(d) && b.w.dayReplies(d) == Replies(true, Done, true, true)
    && RecordsOk(b.before, d.svc)
  }

  /**
   * Where nothing fails, a finished day of the window still kept is behind
   * after a backfill if and only if it was behind before, no hour of it was
   * written, and a full backfill found a rollup of it, however wrong.
   */
  lemma DayInWindowBehind(b: Backfilling, d: Field)
    requires Ran(b) && DayHealthy(b, d) && DayKept(d.epoch, b.at)
    requires FirstFull(b.at, b.hours) <= d.epoch < DayOf(b.at)
    ensures DayBehind(b, d) <==>
            Behind(b.before, b.dailyBefore, d) && d !in b.touched && (b.full ==> d in b.dailyBefore)
  {
    hide Ran, DayAnswers, RecordsOk, DaySum, DayKept, FirstFull, DayOf, Describes, HoursOf, Oldest, HourStart;
    var i := DescribedService(b, d.svc);
    RebuiltDay(b, d);
    if d in b.touched {
      TouchedDay(b, d);
    } else {
      UntouchedDay(b, d);
    }
  }

  /**
   * The daily rollup of a day before the window's first full one is never
   * updated or noted, whatever fails: the day is behind after a backfill if
   * and only if its old rollup is not what its hours now sum to.
   */
  lemma DayBeforeWindowBehind(b: Backfilling, d: Field)
    requires Ran(b) && d.epoch < FirstFull(b.at, b.hours)
    ensures Lookup(b.dailyAfter, d) == Lookup(b.dailyBefore, d) && !DayOwedAt(b, d)
    ensures DayBehind(b, d) <==> Behind(b.after, b.dailyBefore, d)
    ensures DayHealthy(b, d) && d !in b.touched ==> (DayBehind(b, d) <==> Behind(b.before, b.dailyBefore, d))
  {
    hide Ran, DayAnswers, RecordsOk, DaySum, FirstFull;
    RebuiltDay(b, d);
    if DayHealthy(b, d) && d !in b.touched {
      UntouchedDay(b, d);
    }
  }

  /** A backfill that finds each hour of the day complete, or without samples, writes none of them. */
  lemma CompleteDayIsUntouched(b: Backfilling, d: Field)
    requires Ran(b) && DayHealthy(b, d)
    requires forall h :: DayOf(h) == d.epoch ==> HourSettled(b, Field(d.svc, h))
    ensures d !in b.touched
  {
    hide Ran, RollupStep, DayAnswers, RecordsOk, RecordOk, Answers, HasSamples, CleanCall, DayOf;
    TouchedWhenWritten(b, d);
    if d in b.touched {
      var f :| f in b.tries && Touches(b.before, b.tries, b.retention, f, d);
      assert f == Field(d.svc, f.epoch) && HourSettled(b, f);
      assert Answers(b.w, f) by { hide *; AnswersOnDay(b.w, d, f); }
      if f in b.before {
        CompleteHoursAreKept(b, f);
      } else {
        AttemptIsClean(b, f);
        CleanCallRepairs(Lookup(b.before, f), f, b.retention, b.tries[f], b.w);
      }
    }
  }

  lemma AnswersOnDay(w: World, d: Field, f: Field)
    requires DayAnswers(w, d) && f.svc == d.svc && DayOf(f.epoch) == d.epoch
    ensures Answers(w, f)
  {
    assert f == Field(d.svc, f.epoch);
  }

  /** The hour is stored complete, or no location has samples of it. */
  ghost predicate HourSettled(b: Backfilling, f: Field) {
    if f in b.before then !Marked(b.before[f]) else !HasSamples(b.w.readings(f))
  }

  /**
   * A backfill wrote an hour of the day, and failed to update the day's old
   * rollup. It noted that, but the full backfill it asked for, for which
   * nothing fails, finds the hours complete and a rollup stored: the day stays
   * behind.
   */
  lemma OwedDayIsForgotten(b: Backfilling, again: Backfilling, d: Field)
    requires Ran(b) && DayOwedAt(b, d) && DayBehind(b, d) && d in b.dailyBefore
    requires Ran(again) && again.full && again.before == b.after && again.dailyBefore == b.dailyAfter
    requires DayHealthy(again, d) && forall h :: DayOf(h) == d.epoch ==> HourSettled(again, Field(d.svc, h))
    ensures DayBehind(again, d) && again.dailyAfter[d] == b.dailyAfter[d] && !DayOwedAt(again, d)
  {
    hide Ran, DayHealthy, HourSettled, DaySum, FirstFull, DayOf, DayFails, DayAfter;
    RebuiltDay(b, d);
    assert d in b.dailyAfter by { hide *; StoredStays(b, d); }
    CompleteDayIsUntouched(again, d);
    UntouchedWhenHealthy(again, d);
    RebuiltDay(again, d);
  }

  lemma StoredStays(b: Backfilling, d: Field)
    requires Ran(b) && d in b.dailyBefore
    ensures d in b.dailyAfter
  {
    hide Ran, DaySum;
    RebuiltDay(b, d);
  }

  lemma UntouchedWhenHealthy(b: Backfilling, d: Field)
    requires Ran(b) && DayHealthy(b, d) && d !in b.touched
    ensures DaySum(b.after, d.svc, d.epoch) == DaySum(b.before, d.svc, d.epoch)
  {
    hide Ran, DayAnswers, RecordsOk, DaySum;
    UntouchedDay(b, d);
  }
}
