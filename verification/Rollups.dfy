/**
 * An hour's aggregate rollup, from its locations and from what was stored
 * before: aggregate, mergeStored, computeAggregate and liveHour in
 * dashboard/internal/store/store.go.
 */
module Rollups {
  import opened Base
  import opened HourRollup
  import opened Sums
  import Ladder

  type Locations = map<string, LocationRollup>

  /** Missing, a sorted list in the source, is kept as a set. */
  datatype AggregateRollup = AggregateRollup(
    status: Ladder.AggregateStatus, success: int, failure: int, avgMs: real,
    perLocation: Locations, missing: set<string>, inProgress: bool)

  // ---------------------------------------------------------------- aggregate

  function CountsOf(per: Locations): map<string, Ladder.Counts> {
    map l | l in per :: Ladder.Counts(per[l].success, per[l].failure)
  }

  function Successes(per: Locations): map<string, int> {
    map l | l in per :: per[l].success
  }

  function FailuresOf(per: Locations): map<string, int> {
    map l | l in per :: per[l].failure
  }

  function MeasuredOf(per: Locations): map<string, int> {
    map l | l in per :: per[l].measured
  }

  function MsOf(per: Locations): map<string, real> {
    map l | l in per :: if per[l].measured > 0 then per[l].avgMs * per[l].measured as real else 0.0
  }

  /** The hour's rollup, summed from its locations. */
  ghost function Aggregated(per: Locations, missing: set<string>, inProgress: bool): AggregateRollup {
    var n := Total(MeasuredOf(per));
    AggregateRollup(
      Ladder.HourStatus(CountsOf(per)), Total(Successes(per)), Total(FailuresOf(per)),
      if n > 0 then RealTotal(MsOf(per)) / n as real else 0.0, per, missing, inProgress)
  }

  ghost predicate SumsUp(r: AggregateRollup) {
    r == Aggregated(r.perLocation, r.missing, r.inProgress)
  }

  /** What the loop has summed once the locations in `left` are still to come. */
  ghost predicate Summing(per: Locations, left: set<string>, success: int, failure: int, ms: real, n: int) {
    && success == Total(Successes(per) - left)
    && failure == Total(FailuresOf(per) - left)
    && ms == RealTotal(MsOf(per) - left)
    && n == Total(MeasuredOf(per) - left)
  }

  lemma SumNext(per: Locations, left: set<string>, l: string, success: int, failure: int, ms: real, n: int)
    requires l in left && l in per && Summing(per, left, success, failure, ms, n)
    ensures Summing(per, left - {l}, success + per[l].success, failure + per[l].failure,
                    ms + MsOf(per)[l], n + per[l].measured)
  {
    NextKey(Successes(per), left, l);
    NextKey(FailuresOf(per), left, l);
    NextKey(MeasuredOf(per), left, l);
    assert MsOf(per) - (left - {l}) == (MsOf(per) - left)[l := MsOf(per)[l]];
    RealTotalPut(MsOf(per) - left, l, MsOf(per)[l]);
  }

  lemma NextKey(m: map<string, int>, left: set<string>, l: string)
    requires l in left && l in m
    ensures Total(m - (left - {l})) == Total(m - left) + m[l]
  {
    assert m - (left - {l}) == (m - left)[l := m[l]];
    TotalPut(m - left, l, m[l]);
  }

  /** Sums in any order: with real arithmetic the order the source fixes makes no difference. */
  method Aggregate(per: Locations) returns (agg: AggregateRollup)
    ensures SumsUp(agg) && agg.perLocation == per && agg.missing == {} && !agg.inProgress
  {
    hide Total, RealTotal;
    var success, failure, n, totalMs := 0, 0, 0, 0.0;
    var left := per.Keys;
    NothingSummed(per);
    while left != {}
      invariant left <= per.Keys && Summing(per, left, success, failure, totalMs, n)
      decreases left
    {
      var name := Pick(left);
      var lr := per[name];
      SumNext(per, left, name, success, failure, totalMs, n);
      success := success + lr.success;
      failure := failure + lr.failure;
      if lr.measured > 0 {
        totalMs := totalMs + lr.avgMs * lr.measured as real;
      }
      n := n + lr.measured;
      left := left - {name};
    }
    EverythingSummed(per);
    var status := Ladder.AggregateStatusOf(CountsOf(per));
    agg := AggregateRollup(status, success, failure, if n > 0 then totalMs / n as real else 0.0, per, {}, false);
  }

  lemma NothingSummed(per: Locations)
    ensures Summing(per, per.Keys, 0, 0, 0.0, 0)
  {
    assert Successes(per) - per.Keys == map[];
    assert FailuresOf(per) - per.Keys == map[];
    assert MeasuredOf(per) - per.Keys == map[];
    assert MsOf(per) - per.Keys == map[];
  }

  lemma EverythingSummed(per: Locations)
    ensures Successes(per) - {} == Successes(per) && FailuresOf(per) - {} == FailuresOf(per)
    ensures MeasuredOf(per) - {} == MeasuredOf(per) && MsOf(per) - {} == MsOf(per)
  {
  }

  /** The response times of all the locations' samples. */
  ghost function RawMs(samples: map<string, seq<Sample>>): map<string, int> {
    map l | l in samples :: Sum(Measures(samples[l]))
  }

  ghost function RawMeasured(samples: map<string, seq<Sample>>): map<string, int> {
    map l | l in samples :: |Measures(samples[l])|
  }

  lemma {:induction false} RealTotalOfInts(m: map<string, int>, r: map<string, real>)
    requires m.Keys == r.Keys && forall k :: k in m ==> r[k] == m[k] as real
    ensures RealTotal(r) == Total(m) as real
    decreases m
  {
    if m == map[] {
      assert r == map[];
    } else {
      var k :| k in m;
      TotalPick(m, k);
      RealTotalPick(r, k);
      RealTotalOfInts(m - {k}, r - {k});
    }
  }

  lemma LocationMs(lr: LocationRollup, s: seq<Sample>)
    requires RollsUp(lr, s)
    ensures (if lr.measured > 0 then lr.avgMs * lr.measured as real else 0.0) == Sum(Measures(s)) as real
    ensures lr.measured == |Measures(s)|
  {
    RollupBounds(lr, s);
  }

  /** The hour's average is that of all its samples, although it is computed from per-location averages. */
  lemma AverageOfAverages(r: AggregateRollup, samples: map<string, seq<Sample>>)
    requires SumsUp(r) && samples.Keys == r.perLocation.Keys
    requires forall l :: l in samples ==> RollsUp(r.perLocation[l], samples[l])
    ensures var n := Total(RawMeasured(samples));
            r.avgMs == if n > 0 then Total(RawMs(samples)) as real / n as real else 0.0
  {
    AllMs(r.perLocation, samples);
  }

  lemma AllMs(per: Locations, samples: map<string, seq<Sample>>)
    requires samples.Keys == per.Keys
    requires forall l :: l in samples ==> RollsUp(per[l], samples[l])
    ensures RealTotal(MsOf(per)) == Total(RawMs(samples)) as real
    ensures MeasuredOf(per) == RawMeasured(samples)
  {
    hide RollsUp, Sum, Measures, Total, RealTotal;
    forall l | l in samples
      ensures MsOf(per)[l] == RawMs(samples)[l] as real
      ensures per[l].measured == |Measures(samples[l])|
    {
      LocationMs(per[l], samples[l]);
    }
    RealTotalOfInts(RawMs(samples), MsOf(per));
  }

  // ---------------------------------------------------------------- merging

  function TotalAt(per: Locations, l: string): nat {
    if l in per then per[l].total else 0
  }

  /** Each location keeps the record that counts more checks, the latest when they count as many. */
  function MergedLocations(latest: Locations, stored: Locations): Locations {
    map l | l in latest.Keys + stored.Keys && (l in latest || stored[l].total > 0) ::
      if l in stored && stored[l].total > TotalAt(latest, l) then stored[l] else latest[l]
  }

  lemma NothingMerged(latest: Locations, stored: Locations)
    ensures MergedLocations(latest, stored - stored.Keys) == latest
  {
  }

  lemma MergeNext(latest: Locations, stored: Locations, left: set<string>, loc: string)
    requires left <= stored.Keys && loc in left
    ensures var per := MergedLocations(latest, stored - left);
            MergedLocations(latest, stored - (left - {loc})) ==
            if stored[loc].total > TotalAt(per, loc) then per[loc := stored[loc]] else per
  {
  }

  method MergeStored(latest: AggregateRollup, stored: AggregateRollup) returns (merged: AggregateRollup)
    ensures SumsUp(merged) && !merged.inProgress && merged.missing == latest.missing
    ensures merged.perLocation == MergedLocations(latest.perLocation, stored.perLocation)
  {
    hide MergedLocations;
    var per := latest.perLocation;
    var left := stored.perLocation.Keys;
    NothingMerged(latest.perLocation, stored.perLocation);
    while left != {}
      invariant left <= stored.perLocation.Keys
      invariant per == MergedLocations(latest.perLocation, stored.perLocation - left)
      decreases left
    {
      var loc := Pick(left);
      var lr := stored.perLocation[loc];
      MergeNext(latest.perLocation, stored.perLocation, left, loc);
      if lr.total > TotalAt(per, loc) {
        per := per[loc := lr];
      }
      left := left - {loc};
    }
    assert stored.perLocation - {} == stored.perLocation;
    merged := Aggregate(per);
    merged := merged.(missing := latest.missing);
  }

  /** What a read of an hour gives: the rollups of the locations with data, and the locations that failed. */
  ghost predicate ReadFrom(latest: Locations, missing: set<string>, readings: map<string, Reading>) {
    && missing == (set l | l in readings && readings[l].Unreadable?)
    && (forall l :: l in latest <==> l in readings && readings[l].Read? && readings[l].failing != map[])
    && (forall l :: l in latest ==> RollsUpReading(latest[l], readings[l]) && latest[l].total > 0)
  }

  lemma TotalOfReading(r: LocationRollup, reading: Reading)
    requires reading.Read? && RollsUpReading(r, reading)
    ensures r.total > 0 <==> reading.failing != map[]
  {
    var s :| Lists(s, reading) && RollsUp(r, s);
    if reading.failing != map[] {
      var ts := SomeKey(reading.failing);
      assert SampleAt(reading, ts) in s;
    }
    if s != [] {
      assert s[0] in s;
    }
  }

  /** What has been read once the locations in `left` are still to come. */
  ghost predicate ReadSoFar(latest: Locations, missing: set<string>, readings: map<string, Reading>,
      left: set<string>) {
    && missing == (set l | l in readings && l !in left && readings[l].Unreadable?)
    && (forall l :: l in latest <==> l in readings && l !in left && readings[l].Read? && readings[l].failing != map[])
    && (forall l :: l in latest ==> RollsUpReading(latest[l], readings[l]) && latest[l].total > 0)
  }

  lemma ReadFailed(latest: Locations, missing: set<string>, readings: map<string, Reading>, left: set<string>,
      loc: string)
    requires ReadSoFar(latest, missing, readings, left) && loc in left && loc in readings && readings[loc].Unreadable?
    ensures ReadSoFar(latest, missing + {loc}, readings, left - {loc})
  {
    hide RollsUpReading;
  }

  lemma ReadNothing(latest: Locations, missing: set<string>, readings: map<string, Reading>, left: set<string>,
      loc: string)
    requires ReadSoFar(latest, missing, readings, left) && loc in left && loc in readings
    requires readings[loc].Read? && readings[loc].failing == map[]
    ensures ReadSoFar(latest, missing, readings, left - {loc})
  {
    hide RollsUpReading;
    assert missing == set l | l in readings && l !in left - {loc} && readings[l].Unreadable?;
  }

  lemma ReadData(latest: Locations, missing: set<string>, readings: map<string, Reading>, left: set<string>,
      loc: string, lr: LocationRollup)
    requires ReadSoFar(latest, missing, readings, left) && loc in left && loc in readings
    requires readings[loc].Read? && readings[loc].failing != map[]
    requires RollsUpReading(lr, readings[loc]) && lr.total > 0
    ensures ReadSoFar(latest[loc := lr], missing, readings, left - {loc})
  {
    hide RollsUpReading;
    assert missing == set l | l in readings && l !in left - {loc} && readings[l].Unreadable?;
  }

  method ComputeAggregate(readings: map<string, Reading>) returns (agg: AggregateRollup)
    ensures SumsUp(agg) && !agg.inProgress && ReadFrom(agg.perLocation, agg.missing, readings)
  {
    var per: Locations := map[];
    var missing: set<string> := {};
    var left := readings.Keys;
    while left != {}
      invariant left <= readings.Keys && ReadSoFar(per, missing, readings, left)
      decreases left
    {
      hide ReadSoFar;
      var loc := Pick(left);
      if readings[loc].Unreadable? {
        ReadFailed(per, missing, readings, left, loc);
        missing := missing + {loc};
      } else {
        var lr := ComputeLocationRollup(readings[loc]);
        TotalOfReading(lr, readings[loc]);
        if lr.total == 0 {
          ReadNothing(per, missing, readings, left, loc);
        } else {
          ReadData(per, missing, readings, left, loc, lr);
          per := per[loc := lr];
        }
      }
      left := left - {loc};
    }
    assert ReadFrom(per, missing, readings);
    agg := Aggregate(per);
    agg := agg.(missing := missing);
  }

  /** The hour as it stands now, and whether any location has data for it. */
  method LiveHour(readings: map<string, Reading>, stored: AggregateRollup)
    returns (merged: AggregateRollup, found: bool)
    ensures SumsUp(merged) && (found <==> merged.perLocation != map[])
    ensures IsLive(merged, readings, stored)
    ensures found <==> HasSamples(readings) || HasChecks(stored.perLocation)
  {
    hide ReadFrom, MergedLocations, SumsUp, HasSamples, HasChecks;
    var agg := ComputeAggregate(readings);
    merged := MergeStored(agg, stored);
    found := merged.perLocation != map[];
    LiveFrom(merged, readings, stored, agg);
    ReadHasSamples(agg.perLocation, agg.missing, readings);
    MergedHasChecks(agg.perLocation, stored.perLocation);
  }

  /** A location that can be read has samples of the hour. */
  ghost predicate HasSamples(readings: map<string, Reading>) {
    exists l :: l in readings && readings[l].Read? && readings[l].failing != map[]
  }

  predicate HasChecks(per: Locations) {
    exists l :: l in per && per[l].total > 0
  }

  lemma ReadHasSamples(latest: Locations, missing: set<string>, readings: map<string, Reading>)
    requires ReadFrom(latest, missing, readings)
    ensures latest != map[] <==> HasSamples(readings)
  {
    if latest != map[] {
      var l := SomeKey(latest);
    }
  }

  lemma MergedHasChecks(latest: Locations, stored: Locations)
    ensures MergedLocations(latest, stored) != map[] <==> latest != map[] || HasChecks(stored)
  {
    var per := MergedLocations(latest, stored);
    if per != map[] {
      var l := SomeKey(per);
    }
    if latest != map[] {
      var l := SomeKey(latest);
      assert l in per;
    }
    if HasChecks(stored) {
      var l :| l in stored && stored[l].total > 0;
      assert l in per;
    }
  }

  /** The stored record, with whatever a read of every location now counts more of. */
  ghost predicate IsLive(merged: AggregateRollup, readings: map<string, Reading>, stored: AggregateRollup) {
    exists latest: Locations ::
      ReadFrom(latest, merged.missing, readings) && merged.perLocation == MergedLocations(latest, stored.perLocation)
  }

  lemma LiveFrom(merged: AggregateRollup, readings: map<string, Reading>, stored: AggregateRollup, agg: AggregateRollup)
    requires ReadFrom(agg.perLocation, agg.missing, readings) && merged.missing == agg.missing
    requires merged.perLocation == MergedLocations(agg.perLocation, stored.perLocation)
    ensures IsLive(merged, readings, stored)
  {
    hide ReadFrom, MergedLocations;
  }
}
