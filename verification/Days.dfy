/**
 * UTC days and their counts: computeDailyFromHours, ByDay and Uptime in
 * dashboard/internal/store/store.go. A day is its number since 1970-01-01.
 */
module Days {
  import opened Base
  import opened Sums
  import opened Rollups

  const HOUR := 3600

  const DAY := 86400

  function HourStart(at: int): int {
    at - at % HOUR
  }

  function DayOf(epoch: int): int {
    epoch / DAY
  }

  type Hours = map<int, AggregateRollup>

  /** Checks of one UTC day. */
  datatype DailyRollup = DailyRollup(success: int, failure: int)

  datatype DayCount = DayCount(success: int, total: int)

  const NONE := DayCount(0, 0)

  function SuccessesOn(hours: Hours, day: int): map<int, int> {
    map h | h in hours && DayOf(h) == day :: hours[h].success
  }

  function FailuresOn(hours: Hours, day: int): map<int, int> {
    map h | h in hours && DayOf(h) == day :: hours[h].failure
  }

  /** The day's checks, summed over its hours. */
  ghost function SumOn(hours: Hours, day: int): DailyRollup {
    DailyRollup(Total(SuccessesOn(hours, day)), Total(FailuresOn(hours, day)))
  }

  function SoFar(byDay: map<int, DailyRollup>, day: int): DailyRollup {
    if day in byDay then byDay[day] else DailyRollup(0, 0)
  }

  /** `byDay` sums the hours that are not in `left`, and holds no other days. */
  ghost predicate Summed(byDay: map<int, DailyRollup>, hours: Hours, left: set<int>) {
    && (forall d :: SoFar(byDay, d) == SumOn(hours - left, d))
    && (forall d :: d in byDay ==> exists h :: h in hours && DayOf(h) == d)
  }

  lemma SumNextHour(hours: Hours, left: set<int>, h: int, day: int)
    requires h in left && h in hours
    ensures var before, now := SumOn(hours - left, day), SumOn(hours - (left - {h}), day);
            now == if DayOf(h) == day
                   then DailyRollup(before.success + hours[h].success, before.failure + hours[h].failure)
                   else before
  {
    var before, now := hours - left, hours - (left - {h});
    if DayOf(h) == day {
      assert SuccessesOn(now, day) == SuccessesOn(before, day)[h := hours[h].success];
      assert FailuresOn(now, day) == FailuresOn(before, day)[h := hours[h].failure];
      TotalPut(SuccessesOn(before, day), h, hours[h].success);
      TotalPut(FailuresOn(before, day), h, hours[h].failure);
    } else {
      assert SuccessesOn(now, day) == SuccessesOn(before, day);
      assert FailuresOn(now, day) == FailuresOn(before, day);
    }
  }

  lemma AddHour(byDay: map<int, DailyRollup>, hours: Hours, left: set<int>, h: int)
    requires Summed(byDay, hours, left) && h in left && h in hours
    ensures var dr := SoFar(byDay, DayOf(h));
            Summed(byDay[DayOf(h) := DailyRollup(dr.success + hours[h].success, dr.failure + hours[h].failure)],
                   hours, left - {h})
  {
    hide SumOn;
    var dr := SoFar(byDay, DayOf(h));
    var now := byDay[DayOf(h) := DailyRollup(dr.success + hours[h].success, dr.failure + hours[h].failure)];
    forall d ensures SoFar(now, d) == SumOn(hours - (left - {h}), d) {
      SumNextHour(hours, left, h, d);
      assert SoFar(byDay, d) == SumOn(hours - left, d);
    }
  }

  lemma NoHoursNoChecks(hours: Hours, day: int)
    requires forall h :: h in hours ==> DayOf(h) != day
    ensures SumOn(hours, day) == DailyRollup(0, 0)
  {
    assert SuccessesOn(hours, day) == map[] && FailuresOn(hours, day) == map[];
  }

  method ComputeDailyFromHours(rollups: Hours) returns (byDay: map<int, DailyRollup>)
    ensures Summed(byDay, rollups, {})
  {
    byDay := map[];
    var left := rollups.Keys;
    forall d ensures SumOn(rollups - left, d) == DailyRollup(0, 0) {
      NoHoursNoChecks(rollups - left, d);
    }
    while left != {}
      invariant left <= rollups.Keys && Summed(byDay, rollups, left)
      decreases left
    {
      hide Summed;
      var h := Pick(left);
      var day := DayOf(h);
      var dr := SoFar(byDay, day);
      AddHour(byDay, rollups, left, h);
      byDay := byDay[day := DailyRollup(dr.success + rollups[h].success, dr.failure + rollups[h].failure)];
      left := left - {h};
    }
  }

  lemma SummedAt(byDay: map<int, DailyRollup>, hours: Hours, day: int)
    requires Summed(byDay, hours, {})
    ensures SoFar(byDay, day) == SumOn(hours, day)
  {
    assert hours - {} == hours;
  }

  // ------------------------------------------------------------------ history

  /** One service's hourly rollups and the daily rollups stored for it. */
  datatype History = History(hours: Hours, days: map<int, DailyRollup>)

  function CountOfDay(d: DailyRollup): DayCount {
    DayCount(d.success, d.success + d.failure)
  }

  /** A finished day counts from its daily rollup when there is one, every other day from its hours. */
  ghost function CountOn(hist: History, today: int, day: int): DayCount {
    CountOfDay(if day in hist.days && day < today then hist.days[day] else SumOn(hist.hours, day))
  }

  function At(m: map<int, DayCount>, day: int): DayCount {
    if day in m then m[day] else NONE
  }

  /** `out` counts the hours that are not in `left`. */
  ghost predicate Counted(out: map<int, DayCount>, hours: Hours, left: set<int>) {
    forall d :: At(out, d) == CountOfDay(SumOn(hours - left, d))
  }

  lemma AtPut(m: map<int, DayCount>, day: int, c: DayCount, other: int)
    ensures At(m[day := c], other) == if other == day then c else At(m, other)
  {
  }

  lemma CountHour(out: map<int, DayCount>, hours: Hours, left: set<int>, h: int)
    requires Counted(out, hours, left) && h in left && h in hours
    ensures var c := At(out, DayOf(h));
            Counted(out[DayOf(h) := DayCount(c.success + hours[h].success,
                c.total + hours[h].success + hours[h].failure)],
                    hours, left - {h})
  {
    var c := At(out, DayOf(h));
    hide SumOn, At, DayOf;
    var n := DayCount(c.success + hours[h].success, c.total + hours[h].success + hours[h].failure);
    forall d ensures At(out[DayOf(h) := n], d) == CountOfDay(SumOn(hours - (left - {h}), d)) {
      SumNextHour(hours, left, h, d);
      AtPut(out, DayOf(h), n, d);
      assert At(out, d) == CountOfDay(SumOn(hours - left, d));
    }
  }

  lemma CountNothing(hours: Hours)
    ensures Counted(map[], hours, hours.Keys)
  {
    forall d ensures SumOn(hours - hours.Keys, d) == DailyRollup(0, 0) {
      NoHoursNoChecks(hours - hours.Keys, d);
    }
  }

  /** `out` also counts the finished days with a daily rollup, but for those in `left`. */
  ghost predicate Replaced(out: map<int, DayCount>, hist: History, today: int, left: set<int>) {
    forall d :: At(out, d) ==
      CountOfDay(if d in hist.days && d !in left && d < today then hist.days[d] else SumOn(hist.hours, d))
  }

  lemma ReplaceDay(out: map<int, DayCount>, hist: History, today: int, left: set<int>, key: int)
    requires Replaced(out, hist, today, left) && key in left && key in hist.days
    ensures Replaced(if key < today then out[key := CountOfDay(hist.days[key])] else out, hist, today, left - {key})
  {
    hide SumOn, At, CountOfDay;
    var now := if key < today then out[key := CountOfDay(hist.days[key])] else out;
    forall d
      ensures At(now, d) == CountOfDay(if d in hist.days && d !in left - {key} && d < today then hist.days[d]
                                       else SumOn(hist.hours, d))
    {
      AtPut(out, key, CountOfDay(hist.days[key]), d);
      assert At(out, d) == CountOfDay(if d in hist.days && d !in left && d < today then hist.days[d]
                                      else SumOn(hist.hours, d));
    }
  }

  lemma ReplaceNothing(out: map<int, DayCount>, hist: History, today: int)
    requires Counted(out, hist.hours, {})
    ensures Replaced(out, hist, today, hist.days.Keys)
  {
    hide SumOn, At;
    assert hist.hours - {} == hist.hours;
    forall d ensures At(out, d) == CountOfDay(SumOn(hist.hours, d)) {
      assert At(out, d) == CountOfDay(SumOn(hist.hours - {}, d));
    }
  }

  method ByDay(hist: History, now: int) returns (out: map<int, DayCount>)
    ensures Replaced(out, hist, DayOf(now), {})
  {
    hide Counted, Replaced;
    out := map[];
    CountNothing(hist.hours);
    var left := hist.hours.Keys;
    while left != {}
      invariant left <= hist.hours.Keys && Counted(out, hist.hours, left)
      decreases left
    {
      var epoch := Pick(left);
      var r := hist.hours[epoch];
      var key := DayOf(epoch);
      CountHour(out, hist.hours, left, epoch);
      var c := if key in out then out[key] else NONE;
      out := out[key := DayCount(c.success + r.success, c.total + r.success + r.failure)];
      left := left - {epoch};
    }
    var today := DayOf(now);
    ReplaceNothing(out, hist, today);
    var days := hist.days.Keys;
    while days != {}
      invariant days <= hist.days.Keys && Replaced(out, hist, today, days)
      decreases days
    {
      var key := Pick(days);
      ReplaceDay(out, hist, today, days, key);
      if key < today {
        out := out[key := CountOfDay(hist.days[key])];
      }
      days := days - {key};
    }
  }

  /** The counts of `days` days ending with `today`, summed. */
  ghost function UptimeOf(hist: History, today: int, days: nat): DayCount {
    if days == 0 then NONE
    else
      var c, rest := CountOn(hist, today, today - days + 1), UptimeOf(hist, today, days - 1);
      DayCount(rest.success + c.success, rest.total + c.total)
  }

  lemma ByDayCounts(byDay: map<int, DayCount>, hist: History, today: int)
    requires Replaced(byDay, hist, today, {})
    ensures forall d :: At(byDay, d) == CountOn(hist, today, d)
  {
    hide SumOn, At, CountOfDay;
  }

  method Uptime(hist: History, days: nat, now: int) returns (success: int, total: int)
    ensures DayCount(success, total) == UptimeOf(hist, DayOf(now), days)
  {
    hide CountOn, Replaced, At;
    var byDay := ByDay(hist, now);
    var today := DayOf(now);
    ByDayCounts(byDay, hist, today);
    success, total := 0, 0;
    for d := 0 to days
      invariant DayCount(success, total) == UptimeOf(hist, today, d)
    {
      assert At(byDay, today - d) == CountOn(hist, today, today - d);
      var c := At(byDay, today - d);
      success := success + c.success;
      total := total + c.total;
    }
  }

  /** The hours of the last `days` days. */
  function LastDays(hours: Hours, today: int, days: nat): Hours {
    map h | h in hours && today - days < DayOf(h) <= today :: hours[h]
  }

  function SuccessesIn(hours: Hours): map<int, int> {
    map h | h in hours :: hours[h].success
  }

  function ChecksIn(hours: Hours): map<int, int> {
    map h | h in hours :: hours[h].success + hours[h].failure
  }

  lemma {:induction false} ChecksSplit(hours: Hours, failures: map<int, int>)
    requires failures == map h | h in hours :: hours[h].failure
    ensures Total(ChecksIn(hours)) == Total(SuccessesIn(hours)) + Total(failures)
    decreases hours
  {
    if hours == map[] {
      assert ChecksIn(hours) == map[] && SuccessesIn(hours) == map[] && failures == map[];
    } else {
      var h := SomeKey(hours);
      var rest := hours - {h};
      ChecksSplit(rest, failures - {h});
      TotalPick(ChecksIn(hours), h);
      TotalPick(SuccessesIn(hours), h);
      TotalPick(failures, h);
      assert ChecksIn(hours) - {h} == ChecksIn(rest);
      assert SuccessesIn(hours) - {h} == SuccessesIn(rest);
    }
  }

  /** The day's own hours, and the rest. */
  function OnDay(hours: Hours, day: int): Hours {
    map h | h in hours && DayOf(h) == day :: hours[h]
  }

  lemma DayIsItsHours(hours: Hours, day: int)
    ensures CountOfDay(SumOn(hours, day)) ==
        DayCount(Total(SuccessesIn(OnDay(hours, day))), Total(ChecksIn(OnDay(hours, day))))
  {
    var own := OnDay(hours, day);
    assert SuccessesIn(own) == SuccessesOn(hours, day);
    assert FailuresOn(hours, day) == map h | h in own :: own[h].failure;
    ChecksSplit(own, FailuresOn(hours, day));
  }

  lemma TotalOfParts(m: map<int, int>, a: map<int, int>, b: map<int, int>)
    requires a.Keys !! b.Keys && m == a + b
    ensures Total(m) == Total(a) + Total(b)
  {
    hide Total;
    TotalSplit(m, a.Keys);
    assert m - a.Keys == b && m - (m.Keys - a.Keys) == a;
  }

  /** The plain sum over the hours of the last `days` days. */
  ghost function DirectSum(hours: Hours, today: int, days: nat): DayCount {
    var span := LastDays(hours, today, days);
    DayCount(Total(SuccessesIn(span)), Total(ChecksIn(span)))
  }

  lemma DirectSumSteps(hours: Hours, today: int, days: nat)
    ensures days == 0 ==> DirectSum(hours, today, days) == NONE
    ensures days > 0 ==>
              var rest, c := DirectSum(hours, today, days - 1), CountOfDay(SumOn(hours, today - days + 1));
              DirectSum(hours, today, days) == DayCount(rest.success + c.success, rest.total + c.total)
  {
    hide SumOn, Total, CountOfDay, OnDay;
    if days == 0 {
      NoSpan(hours, today);
    } else {
      hide SuccessesIn, ChecksIn, LastDays;
      DayIsItsHours(hours, today - days + 1);
      OneDayMore(hours, today, days);
    }
  }

  lemma NoSpan(hours: Hours, today: int)
    ensures DirectSum(hours, today, 0) == NONE
  {
    var span := LastDays(hours, today, 0);
    assert span == map[];
    TotalZero(SuccessesIn(span));
    TotalZero(ChecksIn(span));
  }

  /** Without daily rollups of finished days, the uptime is the plain sum over the hours. */
  lemma {:induction false} UptimeIsTheDirectSum(hist: History, today: int, days: nat)
    requires forall d :: d in hist.days && today - days < d ==> d >= today
    ensures UptimeOf(hist, today, days) == DirectSum(hist.hours, today, days)
  {
    hide SumOn, DirectSum, CountOfDay;
    DirectSumSteps(hist.hours, today, days);
    if days > 0 {
      UptimeIsTheDirectSum(hist, today, days - 1);
      var day := today - days + 1;
      assert CountOn(hist, today, day) == CountOfDay(SumOn(hist.hours, day));
    }
  }

  lemma OneDayMore(hours: Hours, today: int, days: nat)
    requires days > 0
    ensures var span, rest := LastDays(hours, today, days), LastDays(hours, today, days - 1);
            var own := OnDay(hours, today - days + 1);
            && Total(SuccessesIn(span)) == Total(SuccessesIn(rest)) + Total(SuccessesIn(own))
            && Total(ChecksIn(span)) == Total(ChecksIn(rest)) + Total(ChecksIn(own))
  {
    hide Total;
    var span, rest := LastDays(hours, today, days), LastDays(hours, today, days - 1);
    var own := OnDay(hours, today - days + 1);
    TotalOfParts(SuccessesIn(span), SuccessesIn(rest), SuccessesIn(own));
    TotalOfParts(ChecksIn(span), ChecksIn(rest), ChecksIn(own));
  }

  /** Histories that count alike but for one day differ in uptime by that day, if it is in the window. */
  lemma {:induction false} OneDayDiffers(a: History, b: History, today: int, days: nat, day: int)
    requires forall d :: d <= today && d != day ==> CountOn(a, today, d) == CountOn(b, today, d)
    ensures var x, y := CountOn(a, today, day), CountOn(b, today, day);
            var u, v := UptimeOf(a, today, days), UptimeOf(b, today, days);
            var counted := today - days < day <= today;
            && u.success - v.success == (if counted then x.success - y.success else 0)
            && u.total - v.total == (if counted then x.total - y.total else 0)
  {
    hide CountOn;
    if days > 0 {
      OneDayDiffers(a, b, today, days - 1, day);
    }
  }

  /**
   * Once any of a finished day's hours have expired, uptime over a window with
   * that day is what it was from all of its hours, without a daily rollup, if
   * and only if the daily rollup agrees with the hours.
   */
  lemma UptimeSurvivesExpiry(hist: History, day: int, expired: set<int>, today: int, days: nat)
    requires today - days < day < today && day in hist.days
    requires forall h :: h in expired ==> DayOf(h) == day
    ensures UptimeOf(History(hist.hours - expired, hist.days), today, days) ==
            UptimeOf(History(hist.hours, hist.days - {day}), today, days) <==>
            hist.days[day] == SumOn(hist.hours, day)
  {
    hide Total, UptimeOf;
    var later := History(hist.hours - expired, hist.days);
    var before := History(hist.hours, hist.days - {day});
    forall d | d <= today && d != day ensures CountOn(later, today, d) == CountOn(before, today, d) {
      assert SuccessesOn(later.hours, d) == SuccessesOn(hist.hours, d);
      assert FailuresOn(later.hours, d) == FailuresOn(hist.hours, d);
    }
    OneDayDiffers(later, before, today, days, day);
  }

  /** Expiry of a day outside the window changes nothing. */
  lemma UptimeIgnoresOlderDays(hist: History, day: int, expired: set<int>, today: int, days: nat)
    requires day <= today - days && forall h :: h in expired ==> DayOf(h) == day
    ensures UptimeOf(History(hist.hours - expired, hist.days), today, days) ==
            UptimeOf(History(hist.hours, hist.days - {day}), today, days)
  {
    hide Total, UptimeOf;
    var later := History(hist.hours - expired, hist.days);
    var before := History(hist.hours, hist.days - {day});
    forall d | d <= today && d != day ensures CountOn(later, today, d) == CountOn(before, today, d) {
      assert SuccessesOn(later.hours, d) == SuccessesOn(hist.hours, d);
      assert FailuresOn(later.hours, d) == FailuresOn(hist.hours, d);
    }
    OneDayDiffers(later, before, today, days, day);
  }


  ghost predicate Counts(hist: History) {
    && (forall h :: h in hist.hours ==> hist.hours[h].success >= 0 && hist.hours[h].failure >= 0)
    && (forall d :: d in hist.days ==> hist.days[d].success >= 0 && hist.days[d].failure >= 0)
  }

  lemma CountOnNonNegative(hist: History, today: int, day: int)
    requires Counts(hist)
    ensures var c := CountOn(hist, today, day); 0 <= c.success <= c.total
  {
    TotalNonNegative(SuccessesOn(hist.hours, day));
    TotalNonNegative(FailuresOn(hist.hours, day));
  }

  /** A longer window never counts fewer checks, and never more successes than checks. */
  lemma {:induction false} UptimeMonotone(hist: History, today: int, fewer: nat, more: nat)
    requires Counts(hist) && fewer <= more
    ensures var a, b := UptimeOf(hist, today, fewer), UptimeOf(hist, today, more);
            a.success <= b.success && a.total <= b.total && 0 <= b.success <= b.total
    decreases more
  {
    hide CountOn, Counts;
    if more > 0 {
      CountOnNonNegative(hist, today, today - more + 1);
      UptimeMonotone(hist, today, if fewer == more then fewer - 1 else fewer, more - 1);
    }
  }
}
