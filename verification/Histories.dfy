/**
 * The history that uptime is counted from, as read from the primary: History
 * and GetDailyRollups in dashboard/internal/store/store.go.
 */
module Histories {
  import opened Base
  import opened Rollups
  import opened Days
  import opened PrimaryStore
  import HourRollup

  function DaysOf(daily: map<Field, DailyRollup>, svc: string, from: int, to: int): map<int, DailyRollup> {
    map d | d in EpochsOf(daily, svc) && from <= d <= to :: daily[Field(svc, d)]
  }

  /** A service's hours from `retentionDays` ago, the current one live if any, and its days of the last year. */
  function HistoryOf(rollups: map<Field, AggregateRollup>, daily: map<Field, DailyRollup>, svc: string, now: int,
                     retentionDays: nat, live: Option<AggregateRollup>): History {
    var stored := HoursOf(rollups, svc, (DayOf(now) - retentionDays) * DAY, now);
    History(if live.Some? then stored[HourStart(now) := live.value] else stored,
            DaysOf(daily, svc, DayOf(now) - 365, DayOf(now)))
  }

  method GetDailyRollups(p: Primary, svc: string, from: int, to: int) returns (out: map<int, DailyRollup>)
    ensures out == DaysOf(p.daily, svc, from, to)
  {
    hide DaysOf;
    out := map[];
    var left := p.daily.Keys;
    NoDays(p.daily, svc, from, to);
    while left != {}
      invariant left <= p.daily.Keys && out == DaysOf(p.daily - left, svc, from, to)
      decreases left
    {
      var f := Pick(left);
      ghost var before, now := p.daily - left, p.daily - (left - {f});
      assert now == before[f := p.daily[f]];
      DaysOfPut(before, f, p.daily[f], svc, from, to);
      if f.svc == svc && from <= f.epoch <= to {
        out := out[f.epoch := p.daily[f]];
      }
      left := left - {f};
    }
    assert p.daily - {} == p.daily;
  }

  lemma NoDays(daily: map<Field, DailyRollup>, svc: string, from: int, to: int)
    ensures DaysOf(daily - daily.Keys, svc, from, to) == map[]
  {
  }

  lemma DaysOfPut(m: map<Field, DailyRollup>, f: Field, dr: DailyRollup, svc: string, from: int, to: int)
    requires f !in m
    ensures DaysOf(m[f := dr], svc, from, to) ==
            if f.svc == svc && from <= f.epoch <= to then DaysOf(m, svc, from, to)[f.epoch := dr]
            else DaysOf(m, svc, from, to)
  {
    var n := m[f := dr];
    forall d ensures d in EpochsOf(n, svc) <==> d in EpochsOf(m, svc) || (f.svc == svc && d == f.epoch) {
      if f.svc == svc && d == f.epoch {
        assert f in n;
      }
      if d in EpochsOf(m, svc) {
        assert Field(svc, d) in n;
      }
    }
  }

  /** The stored record of the current hour, or none. */
  function CurrentHour(rollups: map<Field, AggregateRollup>, svc: string, now: int): AggregateRollup {
    var f := Field(svc, HourStart(now));
    if f in rollups then rollups[f] else EMPTY
  }

  /**
   * Reads the history. The current hour is live: the stored record with what
   * the locations now count more of it, if either has checks.
   */
  method ReadHistory(p: Primary, svc: string, now: int, retentionDays: nat, readings: map<string, HourRollup.Reading>)
    returns (hist: History, ghost live: Option<AggregateRollup>)
    ensures hist == HistoryOf(p.rollups, p.daily, svc, now, retentionDays, live)
    ensures var stored := CurrentHour(p.rollups, svc, now);
            && (live.Some? <==> HasSamples(readings) || HasChecks(stored.perLocation))
            && (live.Some? ==> SumsUp(live.value) && IsLive(live.value, readings, stored))
  {
    hide HoursOf, DaysOf, SumsUp, IsLive, HasSamples, HasChecks;
    var hours := p.GetAggregateRollups(svc, (DayOf(now) - retentionDays) * DAY, now);
    var cur := HourStart(now);
    CurrentIsStored(p.rollups, svc, now, retentionDays);
    var merged, found := LiveHour(readings, if cur in hours then hours[cur] else EMPTY);
    live := None;
    if found {
      hours, live := hours[cur := merged], Some(merged);
    }
    var days := GetDailyRollups(p, svc, DayOf(now) - 365, DayOf(now));
    hist := History(hours, days);
  }

  lemma CurrentIsStored(rollups: map<Field, AggregateRollup>, svc: string, now: int, retentionDays: nat)
    ensures var hours, cur := HoursOf(rollups, svc, (DayOf(now) - retentionDays) * DAY, now), HourStart(now);
            CurrentHour(rollups, svc, now) == if cur in hours then hours[cur] else EMPTY
  {
    var f := Field(svc, HourStart(now));
    if f in rollups {
      assert f.epoch in EpochsOf(rollups, svc);
    }
  }

  function WindowStart(now: int, retentionDays: nat): int {
    (DayOf(now) - retentionDays) * DAY
  }

  /** What the history holds for an hour. */
  lemma HistoryHour(rollups: map<Field, AggregateRollup>, daily: map<Field, DailyRollup>, svc: string, now: int,
                    retentionDays: nat, live: Option<AggregateRollup>, h: int)
    ensures var hours, f := HistoryOf(rollups, daily, svc, now, retentionDays, live).hours, Field(svc, h);
            Lookup(hours, h) ==
            if live.Some? && h == HourStart(now) then live
            else if WindowStart(now, retentionDays) <= h <= now then Lookup(rollups, f)
            else None
  {
    hide HourStart, DayOf, DaysOf;
    if Field(svc, h) in rollups {
      assert h in EpochsOf(rollups, svc);
    }
  }

  lemma CurrentHourIsToday(now: int)
    ensures DayOf(HourStart(now)) == DayOf(now)
  {
  }

  lemma InWindow(now: int, retentionDays: nat, h: int)
    ensures DayOf(now) - retentionDays <= DayOf(h) < DayOf(now) ==> WindowStart(now, retentionDays) <= h <= now
  {
  }

  /** Two sets of hours that hold the same of a day sum to the same. */
  lemma SameDay(a: Hours, b: Hours, day: int)
    requires forall h :: DayOf(h) == day ==> Lookup(a, h) == Lookup(b, h)
    ensures SumOn(a, day) == SumOn(b, day)
  {
    hide Sums.Total, DayOf;
    forall h | DayOf(h) == day ensures (h in a <==> h in b) && (h in a ==> a[h] == b[h]) {
      assert Lookup(a, h) == Lookup(b, h);
    }
    assert SuccessesOn(a, day) == SuccessesOn(b, day);
    assert FailuresOn(a, day) == FailuresOn(b, day);
  }

  lemma HourOfDay(rollups: map<Field, AggregateRollup>, svc: string, day: int, h: int)
    requires DayOf(h) == day
    ensures Lookup(HoursOf(rollups, svc, day * DAY, day * DAY + DAY - 1), h) == Lookup(rollups, Field(svc, h))
  {
    if Field(svc, h) in rollups {
      assert h in EpochsOf(rollups, svc);
    }
  }

  /** A finished day of the window sums to the same in the history as in the store. */
  lemma DayInHistory(rollups: map<Field, AggregateRollup>, daily: map<Field, DailyRollup>, svc: string, now: int,
                     retentionDays: nat, live: Option<AggregateRollup>, day: int)
    requires DayOf(now) - retentionDays <= day < DayOf(now)
    ensures SumOn(HistoryOf(rollups, daily, svc, now, retentionDays, live).hours, day) == DaySum(rollups, svc, day)
  {
    hide HistoryOf, HoursOf, SumOn, HourStart, DayOf, WindowStart;
    var hours := HistoryOf(rollups, daily, svc, now, retentionDays, live).hours;
    var own := HoursOf(rollups, svc, day * DAY, day * DAY + DAY - 1);
    CurrentHourIsToday(now);
    forall h | DayOf(h) == day ensures Lookup(hours, h) == Lookup(own, h) {
      HistoryHour(rollups, daily, svc, now, retentionDays, live, h);
      InWindow(now, retentionDays, h);
      HourOfDay(rollups, svc, day, h);
    }
    SameDay(hours, own, day);
  }

  lemma SameHours(a: Hours, b: Hours)
    requires forall h :: Lookup(a, h) == Lookup(b, h)
    ensures a == b
  {
    forall h ensures (h in a <==> h in b) && (h in a ==> a[h] == b[h]) {
      assert Lookup(a, h) == Lookup(b, h);
    }
  }

  function Epochs(gone: set<Field>): set<int> {
    set f | f in gone :: f.epoch
  }

  lemma EpochsAre(gone: set<Field>, svc: string, h: int)
    requires forall f :: f in gone ==> f.svc == svc
    ensures h in Epochs(gone) <==> Field(svc, h) in gone
  {
    if h in Epochs(gone) {
      var f :| f in gone && f.epoch == h;
      assert f == Field(svc, h);
    }
  }

  /** Removing hours of a day from the store removes them from the history. */
  lemma ExpiredFromHistory(rollups: map<Field, AggregateRollup>, daily: map<Field, DailyRollup>, svc: string, now: int,
                           retentionDays: nat, live: Option<AggregateRollup>, day: int, gone: set<Field>)
    requires day < DayOf(now) && forall f :: f in gone ==> f.svc == svc && DayOf(f.epoch) == day
    ensures HistoryOf(rollups - gone, daily, svc, now, retentionDays, live).hours ==
            HistoryOf(rollups, daily, svc, now, retentionDays, live).hours - Epochs(gone)
  {
    hide HistoryOf, HourStart, DayOf, WindowStart, Epochs;
    var a := HistoryOf(rollups - gone, daily, svc, now, retentionDays, live).hours;
    var b := HistoryOf(rollups, daily, svc, now, retentionDays, live).hours;
    CurrentHourIsToday(now);
    forall h ensures Lookup(a, h) == Lookup(b - Epochs(gone), h) {
      HistoryHour(rollups - gone, daily, svc, now, retentionDays, live, h);
      HistoryHour(rollups, daily, svc, now, retentionDays, live, h);
      EpochsAre(gone, svc, h);
    }
    SameHours(a, b - Epochs(gone));
  }

  /**
   * A finished day of the window, stored by UpdateDailyRollup, counts after any
   * of its hours have expired just what all its hours counted without it.
   */
  lemma StoredDayOutlivesItsHours(rollups: map<Field, AggregateRollup>, daily: map<Field, DailyRollup>, svc: string,
                                  now: int, retentionDays: nat, live: Option<AggregateRollup>, day: int,
                                  gone: set<Field>, days: nat)
    requires DayOf(now) - retentionDays <= day < DayOf(now) && DayOf(now) - 365 <= day
    requires forall f :: f in gone ==> f.svc == svc && DayOf(f.epoch) == day
    ensures var d := Field(svc, day);
            UptimeOf(HistoryOf(rollups - gone, daily[d := DaySum(rollups, svc, day)], svc, now, retentionDays, live),
                     DayOf(now), days) ==
            UptimeOf(HistoryOf(rollups, daily - {d}, svc, now, retentionDays, live), DayOf(now), days)
  {
    hide DaySum, SumOn, HoursOf, DaysOf, UptimeOf, DayOf, HourStart;
    var d, today := Field(svc, day), DayOf(now);
    var updated := daily[d := DaySum(rollups, svc, day)];
    DayInHistory(rollups, updated, svc, now, retentionDays, live, day);
    ExpiredFromHistory(rollups, updated, svc, now, retentionDays, live, day, gone);
    DayStoredIn(daily, d, DaySum(rollups, svc, day), today);
    var full := HistoryOf(rollups, updated, svc, now, retentionDays, live);
    var expired := Epochs(gone);
    assert HistoryOf(rollups - gone, updated, svc, now, retentionDays, live) ==
        History(full.hours - expired, full.days);
    assert HistoryOf(rollups, daily - {d}, svc, now, retentionDays, live) == History(full.hours, full.days - {day});
    hide HistoryOf;
    forall h | h in expired ensures DayOf(h) == day {
      EpochsAre(gone, svc, h);
    }
    if today - days < day {
      UptimeSurvivesExpiry(full, day, expired, today, days);
    } else {
      UptimeIgnoresOlderDays(full, day, expired, today, days);
    }
  }

  lemma DayStoredIn(daily: map<Field, DailyRollup>, d: Field, dr: DailyRollup, today: int)
    requires today - 365 <= d.epoch <= today
    ensures var days := DaysOf(daily[d := dr], d.svc, today - 365, today);
            d.epoch in days && days[d.epoch] == dr && DaysOf(daily - {d}, d.svc, today - 365, today) == days - {d.epoch}
  {
    var n := daily[d := dr];
    assert d in n;
    forall e ensures e in EpochsOf(daily - {d}, d.svc) <==> e in EpochsOf(n, d.svc) && e != d.epoch {
      if e in EpochsOf(n, d.svc) && e != d.epoch {
        assert Field(d.svc, e) in daily - {d};
      }
      if e in EpochsOf(daily - {d}, d.svc) {
        assert Field(d.svc, e) in n;
      }
    }
  }

  // ------------------------------------------------------------ any later time

  /** Within a year a finished day counts as its daily rollup says, whatever hours are left of it. */
  lemma StoredDayCounts(rollups: map<Field, AggregateRollup>, daily: map<Field, DailyRollup>, d: Field, now: int,
                        retentionDays: nat, live: Option<AggregateRollup>)
    requires d in daily && d.epoch < DayOf(now) <= d.epoch + 365
    ensures CountOn(HistoryOf(rollups, daily, d.svc, now, retentionDays, live), DayOf(now), d.epoch) ==
            CountOfDay(daily[d])
  {
    hide HoursOf, HourStart, SumOn, DayOf;
    DayStoredIn(daily, d, daily[d], DayOf(now));
    assert daily[d := daily[d]] == daily;
  }

  /** The history without anything of the day. */
  function WithoutDay(hist: History, day: int): History {
    History(hist.hours - OnDay(hist.hours, day).Keys, hist.days - {day})
  }

  function Plus(a: DayCount, b: DayCount): DayCount {
    DayCount(a.success + b.success, a.total + b.total)
  }

  /** Uptime over a window with the day is uptime without the day and the day's count. */
  lemma DayAddsItsCount(hist: History, today: int, days: nat, day: int)
    requires day < today
    ensures UptimeOf(hist, today, days) ==
            Plus(UptimeOf(WithoutDay(hist, day), today, days),
                 if today - days < day then CountOn(hist, today, day) else NONE)
  {
    hide SumOn, CountOn, UptimeOf, WithoutDay;
    var rest := WithoutDay(hist, day);
    forall d | d <= today ensures CountOn(rest, today, d) == if d == day then NONE else CountOn(hist, today, d) {
      CountWithoutDay(hist, today, day, d);
    }
    OneDayDiffers(hist, rest, today, days, day);
  }

  lemma CountWithoutDay(hist: History, today: int, day: int, d: int)
    requires day < today
    ensures CountOn(WithoutDay(hist, day), today, d) == if d == day then NONE else CountOn(hist, today, d)
  {
    hide Sums.Total;
    var rest := WithoutDay(hist, day);
    if d == day {
      hide SumOn;
      NoHoursNoChecks(rest.hours, day);
    } else {
      assert SuccessesOn(rest.hours, d) == SuccessesOn(hist.hours, d);
      assert FailuresOn(rest.hours, d) == FailuresOn(hist.hours, d);
    }
  }

  predicate HoursOfDay(gone: set<Field>, svc: string, day: int) {
    forall f :: f in gone ==> f.svc == svc && DayOf(f.epoch) == day
  }

  /**
   * Stores a finished day, and then lets any hours expire. For the year after
   * it the day counts what its hours counted when it was stored, whichever of
   * them are left and however far back the hours go, and uptime over any
   * window is that of everything else and this count. While the hours' window
   * covers the day and only hours of it expired, uptime is what it was before.
   */
  method StoreDayThenExpire(p: Primary, svc: string, day: int, at: int, readable: bool, replies: Replies,
                            gone: set<Field>)
    returns (written: bool)
    modifies p
    ensures written && DayKept(day, at) ==>
              forall now, retentionDays: nat, live :: day < DayOf(now) <= day + 365 ==>
                CountOn(HistoryOf(p.rollups, p.daily, svc, now, retentionDays, live), DayOf(now), day) ==
                CountOfDay(DaySum(old(p.rollups), svc, day))
    ensures written && DayKept(day, at) ==>
              forall now, retentionDays: nat, live, days: nat :: day < DayOf(now) <= day + 365 ==>
                var hist := HistoryOf(p.rollups, p.daily, svc, now, retentionDays, live);
                UptimeOf(hist, DayOf(now), days) ==
                Plus(UptimeOf(WithoutDay(hist, day), DayOf(now), days),
                     if DayOf(now) - days < day then CountOfDay(DaySum(old(p.rollups), svc, day)) else NONE)
    ensures written && DayKept(day, at) && HoursOfDay(gone, svc, day) ==>
              forall now, retentionDays: nat, live, days: nat ::
                DayOf(now) - retentionDays <= day < DayOf(now) <= day + 365 ==>
                  UptimeOf(HistoryOf(p.rollups, p.daily, svc, now, retentionDays, live), DayOf(now), days) ==
                  UptimeOf(HistoryOf(old(p.rollups), old(p.daily) - {Field(svc, day)}, svc, now, retentionDays, live),
                           DayOf(now), days)
  {
    hide DaySum, HistoryOf, UptimeOf, CountOn, WithoutDay, Plus, DayOf;
    var err;
    written, err := p.UpdateDailyRollup(svc, day * DAY, at, readable, replies);
    assert DayOf(day * DAY) == day by { DayOfStart(day); }
    p.rollups := p.rollups - gone;
    if written && DayKept(day, at) {
      forall now, retentionDays: nat, live | day < DayOf(now) <= day + 365
        ensures CountOn(HistoryOf(p.rollups, p.daily, svc, now, retentionDays, live), DayOf(now), day) ==
                CountOfDay(DaySum(old(p.rollups), svc, day))
      {
        StoredDayCounts(p.rollups, p.daily, Field(svc, day), now, retentionDays, live);
      }
      forall now, retentionDays: nat, live, days: nat | day < DayOf(now) <= day + 365
        ensures var hist := HistoryOf(p.rollups, p.daily, svc, now, retentionDays, live);
                UptimeOf(hist, DayOf(now), days) ==
                Plus(UptimeOf(WithoutDay(hist, day), DayOf(now), days),
                     if DayOf(now) - days < day then CountOfDay(DaySum(old(p.rollups), svc, day)) else NONE)
      {
        DayAddsItsCount(HistoryOf(p.rollups, p.daily, svc, now, retentionDays, live), DayOf(now), days, day);
      }
      forall now, retentionDays: nat, live, days: nat |
        HoursOfDay(gone, svc, day) && DayOf(now) - retentionDays <= day < DayOf(now) <= day + 365
        ensures UptimeOf(HistoryOf(p.rollups, p.daily, svc, now, retentionDays, live), DayOf(now), days) ==
                UptimeOf(HistoryOf(old(p.rollups), old(p.daily) - {Field(svc, day)}, svc, now, retentionDays, live),
                         DayOf(now), days)
      {
        StoredDayOutlivesItsHours(old(p.rollups), old(p.daily), svc, now, retentionDays, live, day, gone, days);
      }
    }
  }

  lemma DayOfStart(day: int)
    ensures DayOf(day * DAY) == day
  {
  }

  // --------------------------------------------------------- every hour at once

  /** Every hour of the service up to now, as if none had ever expired, and the current one live if any. */
  function HoursUpTo(all: map<Field, AggregateRollup>, svc: string, now: int, live: Option<AggregateRollup>): Hours {
    var stored := map h | h in EpochsOf(all, svc) && h <= now :: all[Field(svc, h)];
    if live.Some? then stored[HourStart(now) := live.value] else stored
  }

  lemma HourUpTo(all: map<Field, AggregateRollup>, svc: string, now: int, live: Option<AggregateRollup>, h: int)
    ensures Lookup(HoursUpTo(all, svc, now, live), h) ==
            if live.Some? && h == HourStart(now) then live
            else if h <= now then Lookup(all, Field(svc, h)) else None
  {
    if Field(svc, h) in all {
      assert h in EpochsOf(all, svc);
    }
  }

  ghost predicate HoursKept(all: map<Field, AggregateRollup>, kept: map<Field, AggregateRollup>, svc: string, day: int)
  {
    forall h :: DayOf(h) == day ==> Lookup(kept, Field(svc, h)) == Lookup(all, Field(svc, h))
  }

  /**
   * What is kept of the day stands for all its hours: a daily rollup that is
   * their sum, or, where there is none, the hours in a window that covers them.
   */
  ghost predicate DayStands(all: map<Field, AggregateRollup>, kept: map<Field, AggregateRollup>,
                            daily: map<Field, DailyRollup>, d: Field, now: int, retentionDays: nat)
  {
    if d in daily then daily[d] == DaySum(all, d.svc, d.epoch)
    else DayOf(now) - retentionDays <= d.epoch && HoursKept(all, kept, d.svc, d.epoch)
  }

  lemma DaySumUpTo(all: map<Field, AggregateRollup>, svc: string, now: int, live: Option<AggregateRollup>, day: int)
    requires day < DayOf(now)
    ensures SumOn(HoursUpTo(all, svc, now, live), day) == DaySum(all, svc, day)
  {
    hide HoursUpTo, HoursOf, SumOn, HourStart, DayOf;
    var hours, own := HoursUpTo(all, svc, now, live), HoursOf(all, svc, day * DAY, day * DAY + DAY - 1);
    CurrentHourIsToday(now);
    forall h | DayOf(h) == day ensures Lookup(hours, h) == Lookup(own, h) {
      HourUpTo(all, svc, now, live, h);
      EarlierDay(h, now);
      HourOfDay(all, svc, day, h);
    }
    SameDay(hours, own, day);
  }

  lemma EarlierDay(h: int, now: int)
    ensures DayOf(h) < DayOf(now) ==> h < now
  {
  }

  lemma KeptDaySums(all: map<Field, AggregateRollup>, kept: map<Field, AggregateRollup>, svc: string, day: int)
    requires HoursKept(all, kept, svc, day)
    ensures DaySum(kept, svc, day) == DaySum(all, svc, day)
  {
    hide HoursOf, SumOn, DayOf;
    var lo, hi := day * DAY, day * DAY + DAY - 1;
    forall h | DayOf(h) == day ensures Lookup(HoursOf(kept, svc, lo, hi), h) == Lookup(HoursOf(all, svc, lo, hi), h) {
      HourOfDay(kept, svc, day, h);
      HourOfDay(all, svc, day, h);
    }
    SameDay(HoursOf(kept, svc, lo, hi), HoursOf(all, svc, lo, hi), day);
  }

  lemma StoredDays(daily: map<Field, DailyRollup>, d: Field, today: int)
    requires today - 365 <= d.epoch <= today
    ensures Lookup(DaysOf(daily, d.svc, today - 365, today), d.epoch) == Lookup(daily, d)
  {
    if d in daily {
      assert d.epoch in EpochsOf(daily, d.svc);
    }
  }

  /** Such a day counts what all its hours count. */
  lemma StandingDayCounts(all: map<Field, AggregateRollup>, kept: map<Field, AggregateRollup>,
                          daily: map<Field, DailyRollup>, d: Field, now: int, retentionDays: nat,
                          live: Option<AggregateRollup>)
    requires d.epoch < DayOf(now) <= d.epoch + 365 && DayStands(all, kept, daily, d, now, retentionDays)
    ensures CountOn(HistoryOf(kept, daily, d.svc, now, retentionDays, live), DayOf(now), d.epoch) ==
            CountOfDay(SumOn(HoursUpTo(all, d.svc, now, live), d.epoch))
  {
    hide HoursUpTo, HoursOf, SumOn, HourStart, DayOf, DaySum, HoursKept;
    DaySumUpTo(all, d.svc, now, live, d.epoch);
    if d in daily {
      StoredDayCounts(kept, daily, d, now, retentionDays, live);
    } else {
      KeptDaySums(all, kept, d.svc, d.epoch);
      DayInHistory(kept, daily, d.svc, now, retentionDays, live, d.epoch);
      StoredDays(daily, d, DayOf(now));
    }
  }

  lemma TodayCounts(all: map<Field, AggregateRollup>, kept: map<Field, AggregateRollup>,
                    daily: map<Field, DailyRollup>, svc: string, now: int, retentionDays: nat,
                    live: Option<AggregateRollup>)
    requires HoursKept(all, kept, svc, DayOf(now))
    ensures CountOn(HistoryOf(kept, daily, svc, now, retentionDays, live), DayOf(now), DayOf(now)) ==
            CountOfDay(SumOn(HoursUpTo(all, svc, now, live), DayOf(now)))
  {
    hide HistoryOf, HoursUpTo, SumOn, HourStart, DayOf, WindowStart;
    var a, b := HistoryOf(kept, daily, svc, now, retentionDays, live).hours, HoursUpTo(all, svc, now, live);
    forall h | DayOf(h) == DayOf(now) ensures Lookup(a, h) == Lookup(b, h) {
      HistoryHour(kept, daily, svc, now, retentionDays, live, h);
      HourUpTo(all, svc, now, live, h);
      TodayInWindow(now, retentionDays, h);
    }
    SameDay(a, b, DayOf(now));
  }

  lemma TodayInWindow(now: int, retentionDays: nat, h: int)
    requires DayOf(h) == DayOf(now)
    ensures WindowStart(now, retentionDays) <= h
  {
  }

  /**
   * However many hours have expired, uptime over up to a year is the plain sum
   * over every hour ever stored, as long as each day of the window is kept as
   * its daily rollup or as its hours.
   */
  lemma {:induction false} UptimeOutlivesTheHours(all: map<Field, AggregateRollup>, kept: map<Field, AggregateRollup>,
      daily: map<Field, DailyRollup>, svc: string, now: int, retentionDays: nat,
      live: Option<AggregateRollup>, days: nat)
    requires days <= 366 && HoursKept(all, kept, svc, DayOf(now))
    requires forall day :: DayOf(now) - days < day < DayOf(now) ==>
               DayStands(all, kept, daily, Field(svc, day), now, retentionDays)
    ensures UptimeOf(HistoryOf(kept, daily, svc, now, retentionDays, live), DayOf(now), days) ==
            DirectSum(HoursUpTo(all, svc, now, live), DayOf(now), days)
  {
    hide HistoryOf, HoursUpTo, DirectSum, CountOn, SumOn, DayOf, DayStands, HoursKept;
    DirectSumSteps(HoursUpTo(all, svc, now, live), DayOf(now), days);
    if days > 0 {
      UptimeOutlivesTheHours(all, kept, daily, svc, now, retentionDays, live, days - 1);
      if days == 1 {
        TodayCounts(all, kept, daily, svc, now, retentionDays, live);
      } else {
        StandingDayCounts(all, kept, daily, Field(svc, DayOf(now) - days + 1), now, retentionDays, live);
      }
    }
  }
}
