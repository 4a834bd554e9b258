/**
 * What the latency chart shows of the raw status and detail hashes, hour by
 * hour: rawEntries and Latency in dashboard/internal/store/latency.go.
 */
module ChartSources {
  import opened Base
  import opened HourRollup
  import opened Rollups
  import opened Days
  import opened LatencyChart

  /** The entry is the check at its time: one check, failed or with its response time, if it has one. */
  predicate IsCheck(e: Entry, r: Reading)
    requires r.Read?
  {
    && e.t in r.failing && e.span == 0
    && e.tally.checks == 1 && e.tally.failed == (if r.failing[e.t] then 1 else 0)
    && if !r.failing[e.t] && e.t in r.details then
         e.tally.okCount == 1 && e.tally.sum == r.details[e.t].ms as real &&
         e.tally.min == e.tally.sum && e.tally.max == e.tally.sum
       else e.tally.okCount == 0 && e.tally.sum == 0.0 && e.tally.min == 0.0 && e.tally.max == 0.0
  }

  /** `own` shows each check inside the range once, and nothing else. */
  ghost predicate ShowsChecks(own: seq<Entry>, r: Reading, from: int, to: int)
    requires r.Read?
  {
    && (forall e :: multiset(own)[e] == if from <= e.t <= to && IsCheck(e, r) then 1 else 0)
    && (forall ts :: ts in r.failing && from <= ts <= to ==> exists i :: 0 <= i < |own| && own[i].t == ts)
  }

  lemma RawIsCheck(e: Entry, r: Reading, from: int, to: int)
    requires r.Read?
    ensures IsRaw(e, r, from, to) <==> from <= e.t <= to && IsCheck(e, r)
  {
  }

  lemma CheckAt(r: Reading, ts: int)
    requires r.Read? && ts in r.failing
    ensures EntryOf(SampleAt(r, ts)).t == ts && IsCheck(EntryOf(SampleAt(r, ts)), r)
  {
  }

  /** What ReadHour reads of an hour is its checks. */
  lemma RawHourShows(rh: RawHour, r: Reading, from: int, to: int, own: seq<Entry>)
    requires r.Read? && RawHourOf(rh, r, from, to) && multiset(own) == multiset(rh.entries)
    ensures ShowsChecks(own, r, from, to) && rh.total == |r.failing|
  {
    hide IsRaw, IsCheck, EntryOf, SampleAt;
    forall e ensures multiset(own)[e] == if from <= e.t <= to && IsCheck(e, r) then 1 else 0 {
      RawIsCheck(e, r, from, to);
    }
    forall ts | ts in r.failing && from <= ts <= to ensures exists i :: 0 <= i < |own| && own[i].t == ts {
      CheckAt(r, ts);
      var e := EntryOf(SampleAt(r, ts));
      assert multiset(own)[e] == 1;
      assert e in own;
    }
  }

  /** The hour overlaps the range. */
  predicate InRange(h: int, from: int, to: int) {
    h % 3600 == 0 && h + 3600 > from && h <= to
  }

  lemma RangeIsAsked(h: int, from: int, to: int)
    ensures InRange(h, from, to) <==> Asked(h, from, to)
  {
  }

  ghost predicate CannotBeRead(readings: int -> Reading, from: int, to: int) {
    exists g :: InRange(g, from, to) && readings(g).Unreadable?
  }

  lemma UnreadIsAsked(readings: int -> Reading, from: int, to: int)
    ensures CannotBeRead(readings, from, to) <==> exists g :: Asked(g, from, to) && readings(g).Unreadable?
  {
    hide Asked, InRange;
    forall g ensures InRange(g, from, to) <==> Asked(g, from, to) {
      RangeIsAsked(g, from, to);
    }
  }

  /** The hour has raw checks that could be read. */
  ghost predicate HasChecks(readings: int -> Reading, from: int, to: int, h: int) {
    !CannotBeRead(readings, from, to) && readings(h).Read? && readings(h).failing != map[]
  }

  /**
   * The current and the previous hour of the range, and the hour that begins
   * before it, show their raw checks inside the range whenever there are any:
   * each once and never the stored rollup, however many checks that counts.
   * Without raw checks an hour that begins in the range shows its rollup.
   */
  lemma RecentHourShowsItsChecks(name: string, raws: map<string, map<int, RawHour>>,
                                 byLocation: map<string, seq<Entry>>, readings: string -> (int -> Reading),
                                 rollups: Hours, from: int, to: int, h: int)
    requires LocationDone(name, raws, byLocation, readings, rollups, from, to)
    requires ReadingsInPlace(readings(name)) && RollupsInRange(rollups, from, to) && InRange(h, from, to)
    requires h + 7200 > to || h < from
    ensures var own := LatencyChart.Within(EntriesAt(byLocation, name), h, h + HOUR);
            if HasChecks(readings(name), from, to, h) then ShowsChecks(own, readings(name)(h), from, to)
            else if h >= from && HasRollup(rollups, name, h) then own == [RollupEntry(h, rollups[h].perLocation[name])]
            else own == []
  {
    hide LatencyChart.Within, RollupEntry, ShowsChecks, HourStart, RawHourOf, Sourced, RollupsInRange, ReadingsInPlace;
    hide InPlace, RawFine;
    RangeIsAsked(h, from, to);
    UnreadIsAsked(readings(name), from, to);
    assert h >= HourStart(to) - HOUR || h < from by { hide *; Recent(h, to); }
    var raw, entries := raws[name], EntriesAt(byLocation, name);
    RawIsFine(raw, readings(name), rollups, from, to);
    assert h % HOUR == 0;
    HourOfSeries(entries, raw, rollups, name, from, HourStart(to) - HOUR, h);
    var own := LatencyChart.Within(entries, h, h + HOUR);
    assert h in raw <==> HasChecks(readings(name), from, to, h);
    if h in raw {
      RawHourShows(raw[h], readings(name)(h), from, to, own);
    } else if h >= from && HasRollup(rollups, name, h) {
      OneRollup(own, h, rollups[h].perLocation[name]);
    } else {
      assert multiset(own) == multiset([]);
      NoneOwn(own);
    }
  }

  /** The current and the previous hour are those that end less than an hour before the range does, or after. */
  lemma Recent(h: int, to: int)
    requires h % 3600 == 0
    ensures h + 7200 > to <==> h >= HourStart(to) - HOUR
  {
  }

  lemma NoneOwn(own: seq<Entry>)
    requires multiset(own) == multiset{}
    ensures own == []
  {
    assert |own| == |multiset(own)|;
  }

  /**
   * Every other hour of the range shows, if its rollup counts more checks than
   * could be read, that rollup alone, and otherwise each check once.
   */
  lemma SettledHourShowsOne(name: string, raws: map<string, map<int, RawHour>>, byLocation: map<string, seq<Entry>>,
                            readings: string -> (int -> Reading), rollups: Hours, from: int, to: int, h: int)
    requires LocationDone(name, raws, byLocation, readings, rollups, from, to)
    requires ReadingsInPlace(readings(name)) && RollupsInRange(rollups, from, to)
    requires h % 3600 == 0 && from <= h && h + 7200 <= to
    ensures var own, r := LatencyChart.Within(EntriesAt(byLocation, name), h, h + HOUR), readings(name)(h);
            var checks := if HasChecks(readings(name), from, to, h) then |r.failing| else 0;
            if RollupCount(rollups, name, h) > checks then own == [RollupEntry(h, rollups[h].perLocation[name])]
            else checks > 0 ==> ShowsChecks(own, r, from, to)
  {
    hide LatencyChart.Within, RollupEntry, ShowsChecks, Sourced, RollupsInRange, ReadingsInPlace, InPlace, RawFine;
    hide HourStart, Pool;
    var raw, entries := raws[name], EntriesAt(byLocation, name);
    assert h % HOUR == 0 && h < HourStart(to) - HOUR by { hide *; Recent(h, to); }
    UnreadIsAsked(readings(name), from, to);
    SettledHourCountsTheLarger(entries, raw, readings(name), rollups, name, from, to, h);
    assert Asked(h, from, to) by { SettledIsAsked(h, from, to); }
    assert h in raw <==> HasChecks(readings(name), from, to, h);
    if h in raw {
      assert raw[h].total == |readings(name)(h).failing|;
      if RollupCount(rollups, name, h) <= raw[h].total {
        RawHourShows(raw[h], readings(name)(h), from, to, LatencyChart.Within(entries, h, h + HOUR));
      }
    }
  }

  lemma SettledIsAsked(h: int, from: int, to: int)
    requires h % HOUR == 0 && from <= h < HourStart(to) - HOUR
    ensures Asked(h, from, to)
  {
  }

  /**
   * A point for any number of raw checks, in buckets or in all, counts them and
   * those that failed, and shows the average, the least and the greatest of
   * their response times, or no times when none has one.
   */
  lemma PointShowsChecks(entries: seq<Entry>, s: seq<Sample>, t: int, span: int)
    requires multiset(entries) == multiset(EntriesOf(s)) && AllNormal(entries)
    ensures var p, ms := PointOf(Pool(entries), t, span), Measures(s);
            && p.t == t && p.span == span && p.checks == |s| && p.failed == Failures(s)
            && (p.times.None? <==> ms == [])
            && (ms != [] ==>
                && p.times.value.avg * |ms| as real == Sum(ms) as real
                && (exists lo, hi :: IsLeast(lo, ms) && IsGreatest(hi, ms) &&
                                     p.times.value.min == lo as real && p.times.value.max == hi as real))
  {
    hide Pool, Measures, Failures, Sum, EntryOf, IsLeast, IsGreatest;
    PermutedNormal(entries, EntriesOf(s));
    PoolPermuted(entries, EntriesOf(s));
    RawPool(s);
    var ms, q := Measures(s), Pool(entries);
    if ms != [] {
      var lo, hi :| RangesOver(q, ms, lo, hi);
      AverageBack(Sum(ms), |ms|);
    }
  }

  /**
   * A point for one stored hour counts its checks and failures and shows its
   * average, and its extremes where it has any. A rollup that does not say how
   * many checks were measured is taken to have measured its successes.
   */
  lemma PointShowsRollup(hour: int, lr: LocationRollup, t: int, span: int)
    ensures var e := RollupEntry(hour, lr);
            var p := PointOf(e.tally, t, span);
            && e.t == hour && e.span == 3600 && p.checks == lr.total && p.failed == lr.failure
            && (p.times.Some? <==> lr.measured > 0 || (lr.avgMs > 0.0 && lr.success > 0))
            && (p.times.Some? ==>
                && e.tally.okCount == (if lr.measured > 0 then lr.measured else lr.success)
                && p.times.value.avg == lr.avgMs
                && p.times.value.min == (if lr.maxMs == 0 then lr.avgMs else lr.minMs as real)
                && p.times.value.max == (if lr.maxMs == 0 then lr.avgMs else lr.maxMs as real))
  {
    var n := RollupEntry(hour, lr).tally.okCount;
    if n > 0 {
      DividedBack(lr.avgMs, n);
    }
  }

  lemma DividedBack(avg: real, n: nat)
    requires n > 0
    ensures avg * n as real / n as real == avg
  {
  }

  lemma AverageBack(sum: int, n: nat)
    requires n > 0
    ensures sum as real / n as real * n as real == sum as real
  {
  }

  lemma PermutedNormal(a: seq<Entry>, b: seq<Entry>)
    requires multiset(a) == multiset(b) && AllNormal(a)
    ensures AllNormal(b)
  {
    forall i | 0 <= i < |b| ensures Normal(b[i].tally) {
      assert b[i] in multiset(a);
      assert b[i] in a;
    }
  }
}
