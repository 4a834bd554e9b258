/**
 * Backfills and passes that leave something unrepaired without any flag to
 * remember it: dashboard/internal/rollup/rollup.go at concrete inputs.
 */
module ForgottenRepairs {
  import opened Base
  import opened Sums
  import opened Rollups
  import opened Days
  import opened PrimaryStore
  import opened RepairFlags
  import opened RollupRunner
  import opened Backfills
  import opened Recovery
  import HourRollup
  import Ladder

  const SERVICE := "api"
  const NOON := Field(SERVICE, 5 * DAY + 12 * HOUR)
  const MORNING := Field(SERVICE, 5 * DAY + 9 * HOUR)
  const THE_DAY := Field(SERVICE, 5)
  const TEN_DAYS := 240
  const NOW := 10 * DAY
  const LATER := 10 * DAY + 2 * HOUR

  /** A window of ten days up to then begins on the morning of the day. */
  const LATE := 15 * DAY + 5 * HOUR

  /** An hour that no location could be read for. */
  ghost function Unread(): AggregateRollup {
    Aggregated(map[], {"berlin"}, false)
  }

  /** A complete hour of one successful check. */
  ghost function Complete(): AggregateRollup {
    Aggregated(map["berlin" := HourRollup.LocationRollup(1, 1, 0, 0.0, 0, 0, 0, Ladder.LocationSuccess, [])], {}, false)
  }

  /** The day's noon is still to be repaired, its morning is complete. */
  ghost function Stored(): map<Field, AggregateRollup> {
    map[NOON := Unread(), MORNING := Complete()]
  }

  /** Every location and command answers, but for what the parameters say cannot be read or stored. */
  function Answering(hoursReadable: bool, daysReadable: bool, daysStored: bool): World {
    World(f => if f == NOON then map["berlin" := HourRollup.Read(map[NOON.epoch := false], map[])] else map[],
          _ => Replies(true, Done, true, true),
          _ => true, _ => Replies(true, if daysStored then Done else Failed(false), true, true),
          _ => hoursReadable, _ => daysReadable)
  }

  lemma EveryHourAnswers(w: World, f: Field)
    requires exists x, y, z :: w == Answering(x, y, z)
    ensures Answers(w, f)
    ensures HasSamples(w.readings(f)) <==> f == NOON
  {
    var r := w.readings(f);
    if f == NOON {
      assert "berlin" in r && r["berlin"].Read? && NOON.epoch in r["berlin"].failing;
    }
  }

  lemma AllAnswer()
    ensures Healthy(Answering(true, true, true))
  {
    forall f ensures Answers(Answering(true, true, true), f) {
      EveryHourAnswers(Answering(true, true, true), f);
    }
  }

  lemma TheRecordsAreRight()
    ensures RecordOk(Unread()) && Marked(Unread()) && Unread().success == 0 && Unread().failure == 0
    ensures RecordOk(Complete()) && !Marked(Complete()) && Complete().perLocation != map[]
  {
    RecordCounts(Unread());
    assert "berlin" in Unread().missing;
    assert "berlin" in Complete().perLocation;
  }

  // -------------------------------------------------- reads that are passed over

  /** The hour could be repaired now, but its service cannot be read: it stays marked, and no flag remembers it. */
  method UnreadableServiceIsForgotten(runner: Runner, full: bool)
    requires runner.hours == TEN_DAYS && runner.primary.rollups == map[NOON := Unread()]
    modifies runner, runner.primary
    ensures runner.primary.rollups == map[NOON := Unread()] && Marked(runner.primary.rollups[NOON])
    ensures runner.State() == old(runner.State())
  {
    hide Aggregated, Ran, Play;
    TheRecordsAreRight();
    ghost var b := runner.Backfill(NOW, full, [SERVICE], Answering(false, true, true));
    NothingAttempted(b);
    assert Lookup(b.after, NOON) == Some(Unread());
  }

  lemma NothingAttempted(b: Backfilling)
    requires Ran(b) && forall svc :: !b.w.hoursReadable(svc)
    ensures b.tries == map[] && b.after == b.before && forall f: Flags :: Play(f, b.noted) == f
  {
    hide Ran, Notes;
    forall f ensures f !in b.tries && Lookup(b.after, f) == Lookup(b.before, f) {
      SkippedServiceIsUntouched(b, f);
    }
    SameRecords(b.after, b.before);
    if b.refs != [] {
      Described(b, 0);
    }
    forall f: Flags ensures Play(f, b.noted) == f {
      NoneErred(b, f);
    }
  }

  lemma SameRecords<V>(a: map<Field, V>, b: map<Field, V>)
    requires forall f :: Lookup(a, f) == Lookup(b, f)
    ensures a == b
  {
    forall f ensures f in a <==> f in b {
      assert Lookup(a, f) == Lookup(b, f);
    }
    forall f | f in a ensures a[f] == b[f] {
      assert Lookup(a, f) == Lookup(b, f);
    }
  }

  lemma NoneErred(b: Backfilling, f: Flags)
    requires Ran(b) && b.tries == map[] && b.refs == []
    ensures Play(f, b.noted) == f
  {
    hide Ran, Play;
    BackfillRaises(b, f);
  }

  /**
   * A full backfill repairs an hour of a day that has a right daily rollup, but
   * cannot read the daily rollups: the old one stays, is no longer the sum of
   * the hours, and no flag remembers it.
   */
  method UnreadableDaysAreForgotten(runner: Runner)
    requires runner.hours == TEN_DAYS && runner.primary.retention == TEN_DAYS * HOUR
    requires runner.primary.rollups == Stored()
    requires runner.primary.daily == map[THE_DAY := DaySum(Stored(), SERVICE, 5)]
    modifies runner, runner.primary
    ensures NOON in runner.primary.rollups && !Marked(runner.primary.rollups[NOON])
    ensures runner.primary.daily == old(runner.primary.daily)
    ensures Behind(runner.primary.rollups, runner.primary.daily, THE_DAY)
    ensures runner.State() == old(runner.State())
  {
    hide Ran, Play, DaySum, Stored, Answering, Marked;
    ghost var b := runner.Backfill(NOW, true, [SERVICE], Answering(true, false, true));
    NoonIsRepaired(b, 108, true, false, true);
    assert forall svc :: !b.w.daysReadable(svc) by { hide *; TheReads(); }
    DailyStays(b);
    NothingToNote(b, false, true);
    assert Lookup(b.dailyAfter, THE_DAY) == Some(DaySum(b.before, SERVICE, 5));
  }

  lemma TheReads()
    ensures forall svc, y, z :: Answering(true, y, z).hoursReadable(svc) && Answering(true, y, z).daysReadable(svc) == y
  {
  }

  /** A backfill that reaches the day's noon repairs it: the day then sums to something else. */
  lemma NoonIsRepaired(b: Backfilling, o: nat, full: bool, y: bool, z: bool)
    requires Ran(b) && b.full == full && b.hours == TEN_DAYS && b.retention == TEN_DAYS * HOUR
    requires b.services == [SERVICE] && b.w == Answering(true, y, z) && b.before == Stored()
    requires 1 <= o < TEN_DAYS && HourStart(b.at) - o * HOUR == NOON.epoch
    ensures NOON in b.after && !Marked(b.after[NOON]) && b.after.Keys == {NOON, MORNING} && !Marked(b.after[MORNING])
    ensures forall g :: StoredOk(Lookup(b.after, g)) && StoredOk(Lookup(b.before, g))
    ensures DaySum(b.after, SERVICE, 5) != DaySum(b.before, SERVICE, 5)
    ensures var sum := DaySum(b.after, SERVICE, 5); sum.success + sum.failure > 0
  {
    hide Aggregated, Ran, DaySum, RecordOk, Answers, HasSamples, Answering, Marked, ChecksAt, HourStart, StoredOk;
    TheRecordsAreRight();
    TheReads();
    forall g ensures StoredOk(Lookup(b.after, g)) && StoredOk(Lookup(b.before, g)) {
      StoredIsRight(g);
      RecordsStayRight(b, g);
    }
    EveryHourAnswers(b.w, NOON);
    NoonAttempted(b, o);
    WindowIsRepairedAt(b, o);
    MorningStays(b);
    NoonCounts(b.after);
    forall f | f != NOON && f != MORNING ensures f !in b.after {
      OtherHoursStay(b, f, y, z);
    }
    forall h | DayOf(h) == 5 && h != NOON.epoch
      ensures ChecksAt(b.after, Field(SERVICE, h)) == ChecksAt(b.before, Field(SERVICE, h))
    {
      SameChecksElsewhere(b, Field(SERVICE, h));
    }
    UnreadCounts(b.before);
    DaySumRaised(b.before, b.after, NOON);
    DaySumCountsNoon(b);
  }

  lemma StoredIsRight(g: Field)
    ensures StoredOk(Lookup(Stored(), g))
  {
    hide Aggregated, RecordOk;
    TheRecordsAreRight();
  }

  lemma NoonAttempted(b: Backfilling, o: nat)
    requires Ran(b) && b.services == [SERVICE] && b.w.hoursReadable(SERVICE) && b.before == Stored()
    requires 1 <= o < b.hours && HourStart(b.at) - o * HOUR == NOON.epoch
    ensures NOON in b.tries
  {
    hide Ran, Aggregated, Marked;
    TheRecordsAreRight();
    WindowHourAttempted(b, SERVICE, o);
  }

  lemma WindowIsRepairedAt(b: Backfilling, o: nat)
    requires Ran(b) && b.retention == b.hours * HOUR && NOON in b.tries && Answers(b.w, NOON)
    requires StoredOk(Lookup(b.before, NOON)) && HasSamples(b.w.readings(NOON))
    ensures NOON in b.after && !Marked(b.after[NOON])
  {
    hide Ran, RollupStep, RecordOk, Answers, HasSamples, CleanCall, StoredOk;
    LeftOf(b, NOON);
    AttemptIsClean(b, NOON);
    CleanCallRepairs(Lookup(b.before, NOON), NOON, b.retention, b.tries[NOON], b.w);
  }

  lemma MorningStays(b: Backfilling)
    requires Ran(b) && b.before == Stored()
    ensures MORNING in b.after && b.after[MORNING] == Complete() && !Marked(Complete())
  {
    hide Ran, Aggregated, RecordOk;
    TheRecordsAreRight();
    CompleteHoursAreKept(b, MORNING);
  }

  lemma SameChecksElsewhere(b: Backfilling, f: Field)
    requires f != NOON && b.before == Stored() && MORNING in b.after && b.after[MORNING] == Complete()
    requires f != MORNING ==> f !in b.after
    ensures ChecksAt(b.after, f) == ChecksAt(b.before, f)
  {
    hide Aggregated;
  }

  lemma DaySumCountsNoon(b: Backfilling)
    requires NOON in b.after && !Marked(b.after[NOON]) && forall g :: StoredOk(Lookup(b.after, g))
    ensures var sum := DaySum(b.after, SERVICE, 5); sum.success + sum.failure > 0
  {
    hide DaySum, RecordOk;
    PlaceholderIsMarked(b.after, NOON);
    forall g | g in b.after && g.svc == SERVICE ensures RecordOk(b.after[g]) {
      assert StoredOk(Lookup(b.after, g));
    }
    DaySumCounts(b.after, NOON);
  }

  lemma NoonCounts(rollups: map<Field, AggregateRollup>)
    requires NOON in rollups && !Marked(rollups[NOON]) && StoredOk(Lookup(rollups, NOON))
    ensures var c := ChecksAt(rollups, NOON); c.success + c.failure > 0
  {
    RecordCounts(rollups[NOON]);
  }

  lemma UnreadCounts(rollups: map<Field, AggregateRollup>)
    requires rollups == Stored()
    ensures ChecksAt(rollups, NOON) == DailyRollup(0, 0)
  {
    hide Aggregated;
    TheRecordsAreRight();
  }

  /** Nothing is known of any other hour. */
  lemma OtherHoursStay(b: Backfilling, f: Field, y: bool, z: bool)
    requires Ran(b) && b.retention == b.hours * HOUR && b.w == Answering(true, y, z)
    requires f != NOON && f != MORNING && b.before.Keys == {NOON, MORNING}
    ensures f !in b.after
  {
    hide Ran, Aggregated, RollupStep, Answers, HasSamples, CleanCall, Answering;
    LeftOf(b, f);
    if f in b.tries {
      EveryHourAnswers(b.w, f);
      AttemptIsClean(b, f);
      CleanCallRepairs(Lookup(b.before, f), f, b.retention, b.tries[f], b.w);
    }
  }

  /** Raising one hour of a day from nothing changes what the day sums to. */
  lemma DaySumRaised(before: map<Field, AggregateRollup>, after: map<Field, AggregateRollup>, f: Field)
    requires ChecksAt(before, f) == DailyRollup(0, 0)
    requires ChecksAt(after, f).success + ChecksAt(after, f).failure > 0
    requires forall h :: DayOf(h) == DayOf(f.epoch) && h != f.epoch ==>
               ChecksAt(after, Field(f.svc, h)) == ChecksAt(before, Field(f.svc, h))
    ensures DaySum(after, f.svc, DayOf(f.epoch)) != DaySum(before, f.svc, DayOf(f.epoch))
  {
    hide Total, HoursOf;
    var day := DayOf(f.epoch);
    var x, y := after - {f}, before - {f};
    forall h | DayOf(h) == day ensures ChecksAt(x, Field(f.svc, h)) == ChecksAt(y, Field(f.svc, h)) {
    }
    DaySumSame(y, x, f.svc, day);
    DaySumWithout(after, f);
    forall h | DayOf(h) == day ensures ChecksAt(before, Field(f.svc, h)) == ChecksAt(y, Field(f.svc, h)) {
    }
    DaySumSame(y, before, f.svc, day);
  }

  /** A day sums to one of its hours and the rest. */
  lemma DaySumWithout(rollups: map<Field, AggregateRollup>, f: Field)
    requires f in rollups
    ensures var day := DayOf(f.epoch);
            var all, rest := DaySum(rollups, f.svc, day), DaySum(rollups - {f}, f.svc, day);
            all.success == rest.success + rollups[f].success && all.failure == rest.failure + rollups[f].failure
  {
    hide Total;
    var day := DayOf(f.epoch);
    var lo, hi := day * DAY, day * DAY + DAY - 1;
    var a, r := HoursOf(rollups, f.svc, lo, hi), HoursOf(rollups - {f}, f.svc, lo, hi);
    hide HoursOf;
    forall h
      ensures h in a <==> DayOf(h) == day && Field(f.svc, h) in rollups
      ensures h in r <==> h in a && h != f.epoch
      ensures h in a ==> a[h] == rollups[Field(f.svc, h)]
      ensures h in r ==> r[h] == a[h]
    {
      DayHour(rollups, f.svc, day, h);
      DayHour(rollups - {f}, f.svc, day, h);
    }
    assert f == Field(f.svc, f.epoch);
    TotalPick(SuccessesOn(a, day), f.epoch);
    TotalPick(FailuresOn(a, day), f.epoch);
    assert SuccessesOn(a, day) - {f.epoch} == SuccessesOn(r, day);
    assert FailuresOn(a, day) - {f.epoch} == FailuresOn(r, day);
  }

  lemma DailyStays(b: Backfilling)
    requires Ran(b) && b.full && forall svc :: !b.w.daysReadable(svc)
    ensures b.dailyAfter == b.dailyBefore && !DayErredIn(b)
  {
    hide Ran, DayAfter, DayFails, FirstFull, DayOf;
    forall d ensures Lookup(b.dailyAfter, d) == Lookup(b.dailyBefore, d) {
      RebuiltDay(b, d);
    }
    SameRecords(b.dailyAfter, b.dailyBefore);
  }

  lemma NothingToNote(b: Backfilling, y: bool, z: bool)
    requires Ran(b) && b.w == Answering(true, y, z) && !DayErredIn(b)
    ensures forall f: Flags :: Play(f, b.noted) == f
  {
    hide Ran, RollupStep, Answers, HasSamples, Play, DayErredIn, Answering, MarkHour, Due;
    forall f | f in b.tries ensures b.tries[f].missing == {} && !ErredAt(b.before, b.tries, b.retention, f) {
      EveryHourAnswers(b.w, f);
      var i, o := AttemptedWasDue(b, f);
      HealthyAttempt(Lookup(b.before, f), f, MarkHour(b.refs[i], f.epoch), b.at, b.retention, b.tries[f], b.w);
    }
    forall f: Flags ensures Play(f, b.noted) == f {
      BackfillRaises(b, f);
    }
  }

  // ------------------------------------------- days that no backfill looks at

  /**
   * Everything answers, and a backfill repairs an hour of a day that began
   * before its window: the day's old rollup is left behind, and nothing noted.
   */
  method DayBeforeTheWindowIsForgotten(runner: Runner, full: bool)
    requires runner.hours == TEN_DAYS && runner.primary.retention == TEN_DAYS * HOUR
    requires runner.primary.rollups == Stored()
    requires runner.primary.daily == map[THE_DAY := DaySum(Stored(), SERVICE, 5)]
    modifies runner, runner.primary
    ensures NOON in runner.primary.rollups && !Marked(runner.primary.rollups[NOON])
    ensures Behind(runner.primary.rollups, runner.primary.daily, THE_DAY)
    ensures runner.State() == old(runner.State())
  {
    hide Ran, Play, DaySum, Stored, Answering, Marked, Healthy;
    ghost var b := runner.Backfill(LATE, full, [SERVICE], Answering(true, true, true));
    NoonIsRepaired(b, 233, full, true, true);
    DayBeforeWindowBehind(b, THE_DAY);
    AllAnswer();
    HealthyBackfill(b, old(runner.State()));
  }

  /**
   * A backfill repairs an hour, and its day cannot be stored. The failure is
   * noted, the next pass answers everywhere and starts the full backfill it
   * asks for, and that ends well: nothing is owed any more, and the day's old
   * rollup is still behind.
   */
  method UpdateFailureIsForgotten(runner: Runner)
    requires runner.hours == TEN_DAYS && runner.primary.retention == TEN_DAYS * HOUR
    requires runner.primary.rollups == Stored() && runner.lastFull <= NOW
    requires runner.primary.daily == map[THE_DAY := DaySum(Stored(), SERVICE, 5)]
    modifies runner, runner.primary
    ensures Behind(runner.primary.rollups, runner.primary.daily, THE_DAY)
    ensures Owed(runner.State()) == 0 && !runner.State().backfilling
  {
    hide Ran, Play, Stored, Answering, Marked, Healthy, Passed, Behind, DaySum;
    ghost var f0 := runner.State();
    ghost var b := runner.Backfill(NOW, false, [SERVICE], Answering(true, true, false));
    NoonIsRepaired(b, 108, false, true, false);
    UpdateFailed(b, f0);
    runner.NoteBackfillEnds();
    OneService();
    var start, full, p, end := runner.RunOnce(LATER, Some([Some([SERVICE])]), Answering(true, true, true));
    AllAnswer();
    HealthyPass(p, Some([Some([SERVICE])]), end, Step(Play(f0, b.noted), BackfillEnds));
    NothingNew(p, end);
    ghost var f1 := runner.State();
    ghost var again := runner.Backfill(LATER, full, [SERVICE], Answering(true, true, true));
    HealthyBackfill(again, f1);
    AgainForgotten(b, again);
    runner.NoteBackfillEnds();
  }

  lemma OneService()
    ensures DistinctServices([Some([SERVICE])]) && Rolls(Some([Some([SERVICE])])) && !Unlisted(Some([Some([SERVICE])]))
    ensures forall svc :: IsListed([Some([SERVICE])], svc) <==> svc == SERVICE
  {
    var listing := [Some([SERVICE])];
    assert listing[0].Some? && listing[0].value != [];
    assert SERVICE in listing[0].value;
  }

  lemma UpdateFailed(b: Backfilling, f: Flags)
    requires Ran(b) && b.at == NOW && !b.full && b.hours == TEN_DAYS && b.retention == TEN_DAYS * HOUR
    requires b.services == [SERVICE] && b.w == Answering(true, true, false) && b.before == Stored()
    requires b.dailyBefore == map[THE_DAY := DaySum(Stored(), SERVICE, 5)]
    requires DaySum(b.after, SERVICE, 5) != DaySum(b.before, SERVICE, 5)
    requires var sum := DaySum(b.after, SERVICE, 5); sum.success + sum.failure > 0
    ensures DayOwedAt(b, THE_DAY) && DayBehind(b, THE_DAY)
    ensures b.dailyAfter == b.dailyBefore
    ensures var g := Play(f, b.noted); g.storeFailed && g.needFull && g.lastFull == f.lastFull
  {
    hide Ran, Stored, DaySum, Play, Missed, Erred, DayErredIn, RecordOk;
    forall h | DayOf(h) == 5 ensures Answers(b.w, Field(SERVICE, h)) {
      EveryHourAnswers(b.w, Field(SERVICE, h));
    }
    forall g | g in b.before && g.svc == SERVICE ensures RecordOk(b.before[g]) {
      StoredIsRight(g);
    }
    assert THE_DAY in b.touched by {
      if THE_DAY !in b.touched {
        UntouchedDay(b, THE_DAY);
      }
    }
    forall d ensures Lookup(b.dailyAfter, d) == Lookup(b.dailyBefore, d) {
      RebuiltDay(b, d);
    }
    SameRecords(b.dailyAfter, b.dailyBefore);
    UndoneDayIsOwed(b, THE_DAY);
    OwedDayKeepsAFlag(b, f, THE_DAY);
    BackfillRaises(b, f);
  }

  /** A pass that finds no samples of hours not stored stores nothing. */
  lemma NothingNew(p: Passing, end: Event)
    requires Passed(p, Some([Some([SERVICE])]), end) && p.w == Answering(true, true, true) && p.now == LATER
    requires p.before.Keys <= {NOON, MORNING}
    ensures p.after == p.before && p.dailyAfter == p.dailyBefore
  {
    hide RollupStep, Answering, Attempted, Notes, Missed, PassErred, DayAfter, Answers, HasSamples;
    OneService();
    forall f ensures Lookup(p.after, f) == Lookup(p.before, f) {
      if f in p.tries {
        EveryHourAnswers(p.w, f);
        NoSamples(f, LATER, p.retention, p.tries[f], p.w);
      }
    }
    SameRecords(p.after, p.before);
    forall d ensures Lookup(p.dailyAfter, d) == Lookup(p.dailyBefore, d) {
      assert d !in p.days;
    }
    SameRecords(p.dailyAfter, p.dailyBefore);
  }

  lemma NoSamples(f: Field, at: int, retention: nat, a: Attempt, w: World)
    requires Attempted(a, f, true, at, retention, w) && Answers(w, f) && !HasSamples(w.readings(f))
    ensures RollupStep(None, f.epoch, retention, a).stored == None
  {
    hide Aggregated, HasSamples;
    if f.epoch + retention > at {
      ReadHasSamples(a.latest, a.missing, w.readings(f));
    }
  }

  lemma AgainForgotten(b: Backfilling, again: Backfilling)
    requires Ran(b) && DayOwedAt(b, THE_DAY) && DayBehind(b, THE_DAY) && THE_DAY in b.dailyBefore
    requires b.after.Keys == {NOON, MORNING} && !Marked(b.after[NOON]) && !Marked(b.after[MORNING])
    requires forall g :: StoredOk(Lookup(b.after, g))
    requires Ran(again) && again.full && again.before == b.after && again.dailyBefore == b.dailyAfter
    requires again.hours == TEN_DAYS && again.retention == TEN_DAYS * HOUR && again.services == [SERVICE]
    requires again.w == Answering(true, true, true)
    ensures Behind(again.after, again.dailyAfter, THE_DAY)
  {
    hide Ran, DayOwedAt, Behind, RecordOk, Answers, HasSamples, Marked;
    forall h | DayOf(h) == 5
      ensures Answers(again.w, Field(SERVICE, h)) && HourSettled(again, Field(SERVICE, h))
    {
      EveryHourAnswers(again.w, Field(SERVICE, h));
    }
    forall g | g in again.before && g.svc == SERVICE ensures RecordOk(again.before[g]) {
      assert StoredOk(Lookup(b.after, g));
    }
    OwedDayIsForgotten(b, again, THE_DAY);
  }

  // ------------------------------------------------ hours that nothing marks

  /** The one location cannot be read, and everything else answers. */
  function Down(): World {
    World(_ => map["berlin" := HourRollup.Unreadable], _ => Replies(true, Done, true, true),
          _ => true, _ => Replies(true, Done, true, true), _ => true, _ => true)
  }

  /**
   * With nothing stored yet, the first backfill cannot read the one location.
   * It notes the miss, but marks no hour older than all that is stored, and
   * the backfill that the miss asks for is not a full one: when it has ended
   * nothing is owed, and an hour that could be read by then is not stored.
   */
  method UnmarkedHourIsForgotten(runner: Runner)
    requires runner.hours == TEN_DAYS && runner.primary.retention == TEN_DAYS * HOUR
    requires runner.primary.rollups == map[] && runner.State() == Started(NOW)
    modifies runner, runner.primary
    ensures NOON !in runner.primary.rollups && HasSamples(Answering(true, true, true).readings(NOON))
    ensures Owed(runner.State()) == 0 && !runner.State().backfilling
  {
    hide Ran, Play, Answering, Down, Healthy, Passed, HasSamples;
    ghost var f0 := runner.State();
    ghost var b := runner.Backfill(NOW, true, [SERVICE], Down());
    NothingRead(b, f0);
    runner.NoteBackfillEnds();
    OneService();
    var listing := Some([Some([SERVICE])]);
    ghost var f1 := runner.State();
    var start, full, p, end := runner.RunOnce(LATER, listing, Answering(true, true, true));
    AllAnswer();
    HealthyPass(p, listing, end, f1);
    NothingNew(p, end);
    ghost var f2 := runner.State();
    ghost var again := runner.Backfill(LATER, full, [SERVICE], Answering(true, true, true));
    HealthyBackfill(again, f2);
    NothingMarked(again);
    EveryHourAnswers(again.w, NOON);
    runner.NoteBackfillEnds();
  }

  lemma NoRecords(b: Backfilling, i: nat)
    requires Ran(b) && b.before == map[] && i < |b.refs|
    ensures b.refs[i].existing == {} && b.refs[i].marked == {} && b.refs[i].first.None?
  {
    hide Ran;
    Described(b, i);
  }

  lemma NothingMarked(b: Backfilling)
    requires Ran(b) && b.before == map[] && !b.full
    ensures NOON !in b.after
  {
    hide Ran, RollupStep, Attempted, MarkHour;
    LeftOf(b, NOON);
    if NOON in b.tries {
      var i, o := AttemptedWasDue(b, NOON);
      NoRecords(b, i);
    }
  }

  lemma NothingRead(b: Backfilling, f0: Flags)
    requires Ran(b) && b.at == NOW && b.full && b.hours == TEN_DAYS && b.retention == TEN_DAYS * HOUR
    requires b.services == [SERVICE] && b.w == Down() && b.before == map[]
    ensures b.after == map[] && Play(f0, b.noted) == f0.(readMissing := true)
  {
    hide Ran, RollupStep, Attempted, MarkHour, Due, HourStart, Play, DayFails, DayErredIn;
    forall f ensures f !in b.after && (f in b.tries ==>
        b.tries[f].missing != {} && !ErredAt(b.before, b.tries, b.retention, f))
    {
      LeftOf(b, f);
      if f in b.tries {
        var i, o := AttemptedWasDue(b, f);
        NoRecords(b, i);
        StillKept(b.at, b.hours, o);
        assert !MarkHour(b.refs[i], f.epoch) by { hide *; NoMark(b.refs[i], f.epoch); }
        UnreadStep(f, b.at, b.retention, b.tries[f]);
      }
    }
    NoonIsTried(b);
    NoDayFails(b);
    BackfillRaises(b, f0);
  }

  lemma NoMark(ref: Ref, hour: int)
    requires ref.marked == {} && ref.first.None?
    ensures !MarkHour(ref, hour)
  {
  }

  lemma NoonIsTried(b: Backfilling)
    requires Ran(b) && b.at == NOW && b.full && b.hours == TEN_DAYS && b.services == [SERVICE] && b.before == map[]
    requires b.w.hoursReadable(SERVICE)
    ensures NOON in b.tries
  {
    hide Ran;
    WindowHourAttempted(b, SERVICE, 108);
  }

  lemma UnreadStep(f: Field, at: int, retention: nat, a: Attempt)
    requires Attempted(a, f, false, at, retention, Down()) && at < f.epoch + retention
    ensures RollupStep(None, f.epoch, retention, a) == StepResult(None, false, false) && a.missing != {}
  {
    var readings := Down().readings(f);
    assert "berlin" in readings && readings["berlin"].Unreadable?;
    assert forall l :: l in readings ==> readings[l].Unreadable?;
    assert forall l :: l !in a.latest;
    assert "berlin" in a.missing;
  }

  lemma NoDayFails(b: Backfilling)
    requires b.w == Down()
    ensures !DayErredIn(b)
  {
    hide DaySum, DayPassed, DayDue;
    forall d ensures !DayFails(b.after, d, b.at, b.w) {
    }
  }

  // ---------------------------------------------------- passes far apart

  /**
   * A pass stores the current hour in progress. The next one comes three hours
   * later, as a long interval allows, and looks at newer hours only: the hour
   * stays in progress, and nothing is owed.
   */
  method LatePassForgetsTheHour(runner: Runner)
    requires runner.primary.retention == TEN_DAYS * HOUR
    requires runner.primary.rollups == map[] && runner.primary.daily == map[]
    requires Owed(runner.State()) == 0 && !runner.State().backfilling
    modifies runner, runner.primary
    ensures NOON in runner.primary.rollups && runner.primary.rollups[NOON].inProgress
    ensures Owed(runner.State()) == 0 && !runner.State().backfilling
  {
    hide Play, Answering, Healthy, Passed;
    OneService();
    AllAnswer();
    var w := Answering(true, true, true);
    var listing := Some([Some([SERVICE])]);
    ghost var f0 := runner.State();
    var _, _, p, end := runner.RunOnce(NOON.epoch + 600, listing, w);
    HealthyPass(p, listing, end, f0);
    InProgressStored(p, end);
    ghost var f1 := runner.State();
    var _, _, q, after := runner.RunOnce(NOON.epoch + 3 * HOUR, listing, w);
    HealthyPass(q, listing, after, f1);
    NotLookedAt(q, after);
    assert Lookup(q.after, NOON) == Lookup(p.after, NOON);
  }

  /**
   * The next pass comes within the hour, but its listing lacks the service, as
   * the union over the locations does when the one that knows it cannot be
   * reached. A later pass lists it again and looks at newer hours only: the
   * hour stays in progress, and nothing is owed.
   */
  method UnlistedServiceIsForgotten(runner: Runner)
    requires runner.primary.retention == TEN_DAYS * HOUR
    requires runner.primary.rollups == map[] && runner.primary.daily == map[]
    requires Owed(runner.State()) == 0 && !runner.State().backfilling
    modifies runner, runner.primary
    ensures NOON in runner.primary.rollups && runner.primary.rollups[NOON].inProgress
    ensures Owed(runner.State()) == 0 && !runner.State().backfilling
  {
    hide Play, Answering, Healthy, Passed;
    OneService();
    AllAnswer();
    var w := Answering(true, true, true);
    var listing, none := Some([Some([SERVICE])]), Some([Some([])]);
    ghost var f0 := runner.State();
    var _, _, p, end := runner.RunOnce(NOON.epoch + 600, listing, w);
    HealthyPass(p, listing, end, f0);
    InProgressStored(p, end);
    ghost var f1 := runner.State();
    var _, _, q, unseen := runner.RunOnce(NOON.epoch + HOUR + 600, none, w);
    HealthyPass(q, none, unseen, f1);
    NotListed(q, unseen);
    ghost var f2 := runner.State();
    var _, _, r, after := runner.RunOnce(NOON.epoch + 2 * HOUR + 600, listing, w);
    HealthyPass(r, listing, after, f2);
    NotLookedAt(r, after);
    assert Lookup(r.after, NOON) == Lookup(p.after, NOON);
  }

  lemma NotListed(p: Passing, end: Event)
    requires Passed(p, Some([Some([])]), end)
    ensures Lookup(p.after, NOON) == Lookup(p.before, NOON)
  {
    hide RollupStep, Attempted, Notes, Missed, PassErred, DayAfter;
    assert NOON !in p.tries;
    assert Lookup(p.after, NOON) == After(p.before, p.tries, p.retention, NOON);
  }

  lemma InProgressStored(p: Passing, end: Event)
    requires Passed(p, Some([Some([SERVICE])]), end) && p.w == Answering(true, true, true) && p.now == NOON.epoch + 600
    requires p.before == map[] && p.retention == TEN_DAYS * HOUR
    ensures NOON in p.after && p.after[NOON].inProgress
  {
    hide RollupStep, Answering, Attempted, Notes, Missed, PassErred, DayAfter, Answers, HasSamples;
    OneService();
    assert NOON in p.tries;
    EveryHourAnswers(p.w, NOON);
    SamplesInProgress(p.now, p.retention, p.tries[NOON], p.w);
    assert Lookup(p.after, NOON) == After(p.before, p.tries, p.retention, NOON);
  }

  lemma SamplesInProgress(at: int, retention: nat, a: Attempt, w: World)
    requires Attempted(a, NOON, true, at, retention, w) && Answers(w, NOON) && HasSamples(w.readings(NOON))
    requires NOON.epoch <= at < NOON.epoch + HOUR && at < NOON.epoch + retention
    ensures var s := RollupStep(None, NOON.epoch, retention, a).stored; s.Some? && s.value.inProgress
  {
    hide Aggregated, HasSamples, ReadFrom;
    SamplesRead(NOON, true, at, retention, a, w);
    AggregatedParts(MergedLocations(a.latest, map[]), a.missing, true);
    MergedHas(a.latest, map[]);
  }

  lemma NotLookedAt(p: Passing, end: Event)
    requires Passed(p, Some([Some([SERVICE])]), end) && p.now >= NOON.epoch + 2 * HOUR
    ensures Lookup(p.after, NOON) == Lookup(p.before, NOON)
  {
    hide RollupStep, Attempted, Notes, Missed, PassErred, DayAfter;
    assert NOON !in p.tries;
    assert Lookup(p.after, NOON) == After(p.before, p.tries, p.retention, NOON);
  }
}
