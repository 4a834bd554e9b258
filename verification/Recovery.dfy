/**
 * A pass and the backfill it starts, once everything answers again: runOnce,
 * afterPass and backfill in dashboard/internal/rollup/rollup.go together.
 */
module Recovery {
  import opened Base
  import opened Rollups
  import opened Days
  import opened PrimaryStore
  import opened RepairFlags
  import opened RollupRunner
  import opened Backfills

  /** Whatever fails, a pass keeps every record right. */
  lemma PassKeepsRight(p: Passing, listings: Option<seq<Option<seq<string>>>>, end: Event, f: Field)
    requires Passed(p, listings, end) && StoredOk(Lookup(p.before, f))
    ensures StoredOk(Lookup(p.after, f))
  {
    hide RollupStep, StoredOk, Attempted, PassOver, PassErred, Missed, Notes, DayAfter;
    assert Lookup(p.after, f) == After(p.before, p.tries, p.retention, f);
    if f in p.tries {
      AttemptKeepsRight(Lookup(p.before, f), f, true, p.now, p.retention, p.tries[f], p.w);
    }
  }

  /** Every location, and the primary, answers every read and write. */
  ghost predicate Healthy(w: World) {
    && (forall f :: Answers(w, f))
    && (forall d :: w.dayReadable(d) && w.dayReplies(d) == Replies(true, Done, true, true))
    && (forall svc :: w.hoursReadable(svc) && w.daysReadable(svc))
  }

  lemma HealthyAttempt(stored: Option<AggregateRollup>, f: Field, mark: bool, at: int, retention: nat,
                       a: Attempt, w: World)
    requires Attempted(a, f, mark, at, retention, w) && Answers(w, f)
    ensures a.missing == {} && !RollupStep(stored, f.epoch, retention, a).err
  {
    hide Aggregated, MergedLocations;
  }

  lemma HealthyDay(rollups: map<Field, AggregateRollup>, d: Field, now: int, w: World)
    requires Healthy(w)
    ensures !DayFails(rollups, d, now, w)
  {
    hide DaySum, Answers;
  }

  lemma HealthyPass(p: Passing, listings: Option<seq<Option<seq<string>>>>, end: Event, f: Flags)
    requires Passed(p, listings, end) && Healthy(p.w) && !Unlisted(listings)
    ensures end == PassEnds(p.now, {}, false) && Play(f, p.noted) == f
  {
    hide RollupStep, Attempted, Answers, DayFails, DayAfter, Play, Notes, Healthy;
    forall g | g in p.tries ensures p.tries[g].missing == {} && !ErredAt(p.before, p.tries, p.retention, g) {
      assert Answers(p.w, g) by { hide *; AnswersAt(p.w, g); }
      HealthyAttempt(Lookup(p.before, g), g, true, p.now, p.retention, p.tries[g], p.w);
    }
    forall d ensures !DayFails(p.after, d, p.now, p.w) {
      HealthyDay(p.after, d, p.now, p.w);
    }
    PlayNotes(f, p.noted, Missed(p.tries), PassErred(p));
  }

  lemma AnswersAt(w: World, f: Field)
    requires Healthy(w)
    ensures Answers(w, f) && w.hoursReadable(f.svc) && w.daysReadable(f.svc)
  {
  }

  lemma HealthyBackfill(b: Backfilling, f: Flags)
    requires Ran(b) && Healthy(b.w)
    ensures Play(f, b.noted) == f
  {
    hide Ran, RollupStep, Attempted, Answers, DayFails, DayDue, Play, Healthy, MarkHour, Due;
    forall g | g in b.tries ensures b.tries[g].missing == {} && !ErredAt(b.before, b.tries, b.retention, g) {
      var i, o := AttemptedWasDue(b, g);
      AnswersAt(b.w, g);
      HealthyAttempt(Lookup(b.before, g), g, MarkHour(b.refs[i], g.epoch), b.at, b.retention, b.tries[g], b.w);
    }
    forall d ensures !DayFails(b.after, d, b.at, b.w) {
      HealthyDay(b.after, d, b.at, b.w);
    }
    BackfillRaises(b, f);
  }

  /** A backfill the pass started, right after it. */
  ghost predicate Follows(p: Passing, end: Event, b: Backfilling, f: Flags) {
    && end.PassEnds? && Starts(Play(f, p.noted), end) && b.full == WantsFull(Play(f, p.noted), p.now, end.failed)
    && b.at == p.now && b.w == p.w && b.before == p.after && b.dailyBefore == p.dailyAfter && b.retention == p.retention
  }

  /** A pass for which nothing fails brings up to date the day it updates, and leaves every other finished day. */
  lemma HealthyPassDay(p: Passing, listings: Option<seq<Option<seq<string>>>>, end: Event, d: Field)
    requires Passed(p, listings, end) && Healthy(p.w) && d.epoch < DayOf(p.now) && DayKept(d.epoch, p.now)
    ensures Behind(p.after, p.dailyAfter, d) <==> Behind(p.before, p.dailyBefore, d) && d !in p.days
    ensures d !in p.days ==> Lookup(p.dailyAfter, d) == Lookup(p.dailyBefore, d)
  {
    hide RollupStep, Attempted, Answers, Notes, Missed, PassErred, DaySum, DayKept, IsListed, Unlisted;
    if d !in p.days {
      hide HourStart, DayOf, ChecksAt;
      forall h | DayOf(h) == d.epoch ensures ChecksAt(p.after, Field(d.svc, h)) == ChecksAt(p.before, Field(d.svc, h)) {
        var f := Field(d.svc, h);
        PassHourOfDay(h, p.now);
        assert f !in p.tries;
        assert Lookup(p.after, f) == After(p.before, p.tries, p.retention, f);
        SameChecksAt(p.before, p.after, f);
      }
      DaySumSame(p.before, p.after, d.svc, d.epoch);
    }
  }

  lemma PassHourOfDay(h: int, now: int)
    ensures IsPassHour(h, now) && DayOf(h) < DayOf(now) ==> IsPassDay(DayOf(h), now)
  {
    HourIsToday(now);
  }

  lemma SameChecksAt(a: map<Field, AggregateRollup>, b: map<Field, AggregateRollup>, f: Field)
    requires Lookup(a, f) == Lookup(b, f)
    ensures ChecksAt(a, f) == ChecksAt(b, f)
  {
  }

  /**
   * Once everything answers, a pass and the backfill it starts settle every
   * finished hour of the window: none is left marked. Nothing is owed but a
   * full backfill held back by the gap. A finished day of the window is behind
   * only if it was before, neither wrote an hour of it, and a full backfill
   * found a rollup of it. The flags and the records before may be whatever
   * earlier failures left.
   */
  lemma RecoveryIsComplete(f: Flags, p: Passing, listings: Option<seq<Option<seq<string>>>>, end: Event, b: Backfilling,
                           svc: string, o: nat, day: int)
    requires Passed(p, listings, end) && Ran(b) && Follows(p, end, b, f)
    requires Healthy(p.w) && !Unlisted(listings) && b.retention == b.hours * HOUR
    requires forall g :: StoredOk(Lookup(p.before, g))
    requires svc in b.services && 1 <= o < b.hours
    ensures var g := Play(f, p.noted + [end] + b.noted + [BackfillEnds]);
            && !g.backfilling && !g.readMissing && !g.storeFailed
            && (g.needFull ==> f.needFull && p.now - g.lastFull < FULL_BACKFILL_GAP)
    ensures var h := Field(svc, HourStart(b.at) - o * HOUR);
            && (h in b.after ==> !Marked(b.after[h]))
            && (b.full && HasSamples(b.w.readings(h)) ==> h in b.after)
    ensures var d := Field(svc, day);
            FirstFull(b.at, b.hours) <= day < DayOf(b.at) && DayKept(day, b.at) ==>
              (DayBehind(b, d) <==>
                Behind(p.before, p.dailyBefore, d) && d !in p.days && d !in b.touched &&
                (b.full ==> d in p.dailyBefore))
  {
    hide Passed, Ran, Healthy, Answers, HasSamples, StoredOk, Play, Unlisted, FirstFull, DayKept, DayBehind, Behind;
    HealthyPass(p, listings, end, f);
    var h := Field(svc, HourStart(b.at) - o * HOUR);
    PassKeepsRight(p, listings, end, h);
    AnswersAt(b.w, h);
    WindowIsRepaired(b, svc, o);
    FlagsSettle(f, p, end, b);
    if FirstFull(b.at, b.hours) <= day < DayOf(b.at) && DayKept(day, b.at) {
      DaysSettle(p, listings, end, b, Field(svc, day));
    }
  }

  lemma DaysSettle(p: Passing, listings: Option<seq<Option<seq<string>>>>, end: Event, b: Backfilling, d: Field)
    requires Passed(p, listings, end) && Ran(b) && b.retention == b.hours * HOUR && Healthy(p.w)
    requires b.at == p.now && b.w == p.w && b.before == p.after && b.dailyBefore == p.dailyAfter
    requires forall g :: StoredOk(Lookup(p.before, g))
    requires d.svc in b.services && FirstFull(b.at, b.hours) <= d.epoch < DayOf(b.at) && DayKept(d.epoch, b.at)
    ensures DayBehind(b, d) <==>
            Behind(p.before, p.dailyBefore, d) && d !in p.days && d !in b.touched &&
            (b.full ==> d in p.dailyBefore)
  {
    hide Passed, Ran, Healthy, StoredOk, FirstFull, DayKept, DayBehind, Behind, DayHealthy;
    forall g ensures StoredOk(Lookup(b.before, g)) {
      PassKeepsRight(p, listings, end, g);
    }
    HealthyIsDayHealthy(b, d);
    DayInWindowBehind(b, d);
    HealthyPassDay(p, listings, end, d);
  }

  lemma HealthyIsDayHealthy(b: Backfilling, d: Field)
    requires Healthy(b.w) && b.retention == b.hours * HOUR && d.svc in b.services
    requires forall g :: StoredOk(Lookup(b.before, g))
    ensures DayHealthy(b, d)
  {
    hide RecordOk, Answers;
    forall g | g in b.before && g.svc == d.svc ensures RecordOk(b.before[g]) {
      assert StoredOk(Lookup(b.before, g));
    }
  }

  lemma FlagsSettle(f: Flags, p: Passing, end: Event, b: Backfilling)
    requires end == PassEnds(p.now, {}, false) && Play(f, p.noted) == f && Starts(f, end) && Ran(b) && Healthy(b.w)
    ensures var g := Play(f, p.noted + [end] + b.noted + [BackfillEnds]);
            && !g.backfilling && !g.readMissing && !g.storeFailed
            && (g.needFull ==> f.needFull && p.now - g.lastFull < FULL_BACKFILL_GAP)
  {
    hide Ran, Healthy, Play;
    var g := Step(f, end);
    PlayOne(f, p.noted, end);
    HealthyBackfill(b, g);
    PlayAppend(f, p.noted + [end], b.noted);
    PlayOne(f, p.noted + [end] + b.noted, BackfillEnds);
  }

  lemma PlayOne(f: Flags, events: seq<Event>, e: Event)
    ensures Play(f, events + [e]) == Step(Play(f, events), e)
  {
    assert (events + [e])[..|events|] == events;
  }
}
