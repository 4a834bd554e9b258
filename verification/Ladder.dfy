/** The two-stage status of an hour: dashboard/internal/status/ladder.go. */
module Ladder {
  import opened Base

  datatype LocationStatus = LocationSuccess | LocationDegraded | LocationOutage

  datatype AggregateStatus = Unknown | Operational | Degraded | MajorOutage

  /** One location's checks in one hour. */
  datatype Counts = Counts(success: nat, failure: nat)

  function LocationFromCounts(successes: nat, failures: nat): LocationStatus {
    if failures == 0 then LocationSuccess
    else if failures > successes then LocationOutage
    else LocationDegraded
  }

  function StatusOf(c: Counts): LocationStatus {
    LocationFromCounts(c.success, c.failure)
  }

  /** The ladder in terms of how many locations there are, are not a success, and are out. */
  function Aggregate(locations: nat, nonSuccess: nat, outages: nat): AggregateStatus {
    if locations == 0 then Unknown
    else if nonSuccess == locations && outages > 0 then MajorOutage
    else if outages > 0 || nonSuccess > 1 || nonSuccess == locations then Degraded
    else Operational
  }

  function Rank(s: AggregateStatus): nat {
    match s
    case Unknown => 0
    case Operational => 1
    case Degraded => 2
    case MajorOutage => 3
  }

  function WorstAggregate(a: AggregateStatus, b: AggregateStatus): AggregateStatus {
    if Rank(a) >= Rank(b) then a else b
  }

  method AggregateFromLocations(statuses: seq<LocationStatus>) returns (r: AggregateStatus)
    ensures r == Aggregate(|statuses|, |statuses| - multiset(statuses)[LocationSuccess],
        multiset(statuses)[LocationOutage])
  {
    if |statuses| == 0 {
      return Unknown;
    }
    var nonSuccess, outages := 0, 0;
    for i := 0 to |statuses|
      invariant nonSuccess == i - multiset(statuses[..i])[LocationSuccess]
      invariant outages == multiset(statuses[..i])[LocationOutage]
    {
      assert statuses[..i + 1] == statuses[..i] + [statuses[i]];
      if statuses[i] != LocationSuccess {
        nonSuccess := nonSuccess + 1;
      }
      if statuses[i] == LocationOutage {
        outages := outages + 1;
      }
    }
    assert statuses[..|statuses|] == statuses;
    if nonSuccess == |statuses| && outages > 0 {
      return MajorOutage;
    }
    if outages > 0 || nonSuccess > 1 || nonSuccess == |statuses| {
      return Degraded;
    }
    return Operational;
  }

  function NonSuccess(m: map<string, Counts>): set<string> {
    set l | l in m && StatusOf(m[l]) != LocationSuccess
  }

  function Outages(m: map<string, Counts>): set<string> {
    set l | l in m && StatusOf(m[l]) == LocationOutage
  }

  /** An hour's status, from the set of its locations. */
  function HourStatus(m: map<string, Counts>): AggregateStatus {
    Aggregate(|m|, |NonSuccess(m)|, |Outages(m)|)
  }

  /** `statuses` lists the status of every location but those still left to visit. */
  ghost predicate Listed(statuses: seq<LocationStatus>, m: map<string, Counts>, left: set<string>) {
    && |statuses| == |m.Keys - left|
    && |statuses| - multiset(statuses)[LocationSuccess] == |NonSuccess(m) - left|
    && multiset(statuses)[LocationOutage] == |Outages(m) - left|
  }

  lemma VisitOne(s: set<string>, left: set<string>, l: string)
    requires l in left
    ensures |s - (left - {l})| == |s - left| + if l in s then 1 else 0
  {
    if l in s {
      assert s - (left - {l}) == (s - left) + {l};
    } else {
      assert s - (left - {l}) == s - left;
    }
  }

  lemma ListOne(statuses: seq<LocationStatus>, m: map<string, Counts>, left: set<string>, l: string)
    requires l in left && l in m && Listed(statuses, m, left)
    ensures Listed(statuses + [StatusOf(m[l])], m, left - {l})
  {
    VisitOne(m.Keys, left, l);
    VisitOne(NonSuccess(m), left, l);
    VisitOne(Outages(m), left, l);
  }

  /** Whatever order the locations are visited in, the hour gets the same status. */
  method AggregateStatusOf(m: map<string, Counts>) returns (r: AggregateStatus)
    ensures r == HourStatus(m)
  {
    hide Listed, HourStatus, Aggregate, StatusOf;
    var statuses: seq<LocationStatus> := [];
    var left := m.Keys;
    NothingListed(m);
    while left != {}
      invariant left <= m.Keys && Listed(statuses, m, left)
      decreases left
    {
      var l := Pick(left);
      ListOne(statuses, m, left, l);
      statuses := statuses + [StatusOf(m[l])];
      left := left - {l};
    }
    EveryoneListed(statuses, m);
    r := AggregateFromLocations(statuses);
  }

  lemma NothingListed(m: map<string, Counts>)
    ensures Listed([], m, m.Keys)
  {
    assert m.Keys - m.Keys == NonSuccess(m) - m.Keys == Outages(m) - m.Keys == {};
  }

  lemma EveryoneListed(statuses: seq<LocationStatus>, m: map<string, Counts>)
    requires Listed(statuses, m, {})
    ensures HourStatus(m) == Aggregate(|statuses|, |statuses| - multiset(statuses)[LocationSuccess],
                                       multiset(statuses)[LocationOutage])
  {
    assert m.Keys - {} == m.Keys && NonSuccess(m) - {} == NonSuccess(m) && Outages(m) - {} == Outages(m);
    assert |m| == |m.Keys|;
  }

  lemma SetSizeAtMost(a: set<string>, b: set<string>)
    requires a <= b
    ensures |a| <= |b|
    ensures |a| == |b| ==> a == b
  {
    assert b == a + (b - a);
    assert |b| == |a| + |b - a|;
  }

  /** More locations in trouble, out of as many, is never better. */
  lemma WorseCounts(m: map<string, Counts>, w: map<string, Counts>)
    requires m.Keys == w.Keys
    requires NonSuccess(m) <= NonSuccess(w) && Outages(m) <= Outages(w)
    ensures Rank(HourStatus(m)) <= Rank(HourStatus(w))
  {
    SetSizeAtMost(NonSuccess(m), NonSuccess(w));
    SetSizeAtMost(Outages(m), Outages(w));
    SetSizeAtMost(NonSuccess(w), w.Keys);
    assert |m| == |m.Keys| && |w| == |w.Keys|;
  }

  lemma JoinSizes(m: map<string, Counts>, l: string, c: Counts)
    requires l !in m && StatusOf(c) == LocationOutage
    ensures |m[l := c]| == |m| + 1
    ensures NonSuccess(m[l := c]) == NonSuccess(m) + {l}
    ensures Outages(m[l := c]) == Outages(m) + {l}
  {
    OutageIsOut(m, l, c);
    hide NonSuccess, Outages;
    assert m[l := c].Keys == m.Keys + {l};
    assert |m[l := c]| == |m[l := c].Keys|;
  }

  lemma OutageIsOut(m: map<string, Counts>, l: string, c: Counts)
    requires l !in m && StatusOf(c) == LocationOutage
    ensures NonSuccess(m[l := c]) == NonSuccess(m) + {l} && Outages(m[l := c]) == Outages(m) + {l}
  {
  }

  /** A location that is out joins the hour: it is no better than before. */
  lemma OutageJoins(m: map<string, Counts>, l: string, c: Counts)
    requires l !in m && StatusOf(c) == LocationOutage
    ensures Rank(HourStatus(m)) <= Rank(HourStatus(m[l := c]))
  {
    JoinSizes(m, l, c);
    assert |m| == |m.Keys|;
    assert l !in NonSuccess(m) && l !in Outages(m);
    SetSizeAtMost(NonSuccess(m), m.Keys);
  }

  /**
   * Failed checks never improve the hour, at a location with checks or at one
   * that had none: whatever it was called before is no worse than after.
   */
  lemma FailuresNeverImprove(m: map<string, Counts>, l: string, more: nat)
    requires more > 0
    ensures var before := if l in m then m[l] else Counts(0, 0);
            var after := m[l := before.(failure := before.failure + more)];
            WorstAggregate(HourStatus(after), HourStatus(m)) == HourStatus(after)
  {
    var before := if l in m then m[l] else Counts(0, 0);
    var after := m[l := before.(failure := before.failure + more)];
    if l in m {
      assert NonSuccess(m) <= NonSuccess(after);
      assert Outages(m) <= Outages(after);
      WorseCounts(m, after);
    } else {
      OutageJoins(m, l, Counts(0, more));
    }
  }

  /**
   * Successful checks, at a location known or new, worsen the hour exactly when
   * it had no location at all: no data ranks below operational.
   */
  lemma SuccessesNeverWorsen(m: map<string, Counts>, l: string, more: nat)
    requires more > 0
    ensures var before := if l in m then m[l] else Counts(0, 0);
            var after := m[l := before.(success := before.success + more)];
            WorstAggregate(HourStatus(m), HourStatus(after)) == HourStatus(m) <==> m != map[]
  {
    var before := if l in m then m[l] else Counts(0, 0);
    var after := m[l := before.(success := before.success + more)];
    assert NonSuccess(after) <= NonSuccess(m);
    assert Outages(after) <= Outages(m);
    if l in m {
      WorseCounts(after, m);
    } else {
      SuccessJoins(m, l, Counts(more, 0));
    }
  }

  /** A location that is well joins the hour. */
  lemma SuccessJoins(m: map<string, Counts>, l: string, c: Counts)
    requires l !in m && StatusOf(c) == LocationSuccess
    ensures Rank(HourStatus(m[l := c])) <= Rank(HourStatus(m)) <==> m != map[]
  {
    WellIsWell(m, l, c);
    OutagesFail(m);
    hide NonSuccess, Outages;
    var w := m[l := c];
    assert w.Keys == m.Keys + {l};
    assert |w| == |w.Keys| == |m.Keys| + 1 == |m| + 1;
    SetSizeAtMost(NonSuccess(m), m.Keys);
    SetSizeAtMost(Outages(m), NonSuccess(m));
    assert m == map[] <==> |m| == 0;
  }

  lemma WellIsWell(m: map<string, Counts>, l: string, c: Counts)
    requires l !in m && StatusOf(c) == LocationSuccess
    ensures NonSuccess(m[l := c]) == NonSuccess(m) && Outages(m[l := c]) == Outages(m)
  {
  }

  lemma OutagesFail(m: map<string, Counts>)
    ensures Outages(m) <= NonSuccess(m) <= m.Keys
  {
  }

  /**
   * What each status means of the locations' checks: an outage needs a failure
   * at every location and one that failed more than it succeeded, and an
   * operational hour has a location without failures, none that failed more
   * than it succeeded, and at most one that failed at all.
   */
  lemma StatusMeans(m: map<string, Counts>)
    ensures HourStatus(m) == Unknown <==> m == map[]
    ensures HourStatus(m) == MajorOutage <==>
            (forall l :: l in m ==> m[l].failure > 0) && (exists l :: l in m && m[l].failure > m[l].success)
    ensures HourStatus(m) == Operational <==>
            && (exists l :: l in m && m[l].failure == 0)
            && (forall l :: l in m ==> m[l].failure <= m[l].success)
            && (forall k, l :: k in m && l in m && m[k].failure > 0 && m[l].failure > 0 ==> k == l)
  {
    assert |m| == |m.Keys| && (m == map[] <==> |m| == 0);
    SetSizeAtMost(NonSuccess(m), m.Keys);
    SomeOutage(m);
    AllFail(m);
    OneFailure(m);
  }

  lemma OneFailure(m: map<string, Counts>)
    ensures |NonSuccess(m)| <= 1 <==>
            forall k, l :: k in m && l in m && m[k].failure > 0 && m[l].failure > 0 ==> k == l
  {
    AtMostOne(NonSuccess(m));
    assert forall l :: l in NonSuccess(m) <==> l in m && m[l].failure > 0;
  }

  lemma SomeOutage(m: map<string, Counts>)
    ensures |Outages(m)| > 0 <==> exists l :: l in m && m[l].failure > m[l].success
  {
    if |Outages(m)| > 0 {
      var l :| l in Outages(m);
    }
    if exists l :: l in m && m[l].failure > m[l].success {
      var l :| l in m && m[l].failure > m[l].success;
      assert l in Outages(m);
    }
  }

  lemma AllFail(m: map<string, Counts>)
    ensures |NonSuccess(m)| == |m.Keys| <==> forall l :: l in m ==> m[l].failure > 0
  {
    SetSizeAtMost(NonSuccess(m), m.Keys);
    if forall l :: l in m ==> m[l].failure > 0 {
      assert NonSuccess(m) == m.Keys;
    }
  }

  lemma AtMostOne(s: set<string>)
    ensures |s| <= 1 <==> forall k, l :: k in s && l in s ==> k == l
  {
    if s != {} {
      var k :| k in s;
      assert s == {k} + (s - {k});
      if |s| > 1 {
        var l :| l in s - {k};
      } else {
        assert s - {k} == {};
        assert s == {k};
      }
    }
  }
}
