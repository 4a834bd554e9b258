/**
 * What an hour's rollups say of the raw status and detail hashes themselves:
 * ComputeLocationRollup and aggregate in dashboard/internal/store/store.go.
 */
module HourMeaning {
  import opened Base
  import opened Sums
  import opened HourRollup
  import opened Rollups
  import Ladder

  // --------------------------------------------------- one location's hashes

  function FailedAt(r: Reading): set<int>
    requires r.Read?
  {
    set ts | ts in r.failing && r.failing[ts]
  }

  function SucceededAt(r: Reading): set<int>
    requires r.Read?
  {
    set ts | ts in r.failing && !r.failing[ts]
  }

  /** The checks with a response time: those that succeeded and have a detail. */
  function TimedAt(r: Reading): set<int>
    requires r.Read?
  {
    set ts | ts in r.failing && !r.failing[ts] && ts in r.details
  }

  function MessageAt(r: Reading, ts: int): string
    requires r.Read?
  {
    if ts in r.details then r.details[ts].msg else ""
  }

  /** The response time of each check that has one. */
  function TimesOf(r: Reading): map<int, int>
    requires r.Read?
  {
    map ts | ts in TimedAt(r) :: r.details[ts].ms
  }

  // ------------------------------------------------------- samples in order

  function Stamps(s: seq<Sample>): set<int> {
    set x | x in s :: x.ts
  }

  function FailStamps(s: seq<Sample>): set<int> {
    set x | x in s && x.fail :: x.ts
  }

  ghost predicate Timed(x: Sample) {
    !x.fail && x.detail.Some?
  }

  lemma Split(s: seq<Sample>)
    requires s != [] && InOrder(s)
    ensures var p, x := s[..|s| - 1], s[|s| - 1];
            && s == p + [x] && InOrder(p) && (forall y :: y in s <==> y in p || y == x)
            && (forall y :: y in p ==> y.ts < x.ts)
  {
  }

  lemma SplitStamps(s: seq<Sample>)
    requires s != [] && InOrder(s)
    ensures var p, x := s[..|s| - 1], s[|s| - 1];
            && InOrder(p) && Stamps(s) == Stamps(p) + {x.ts} && x.ts !in Stamps(p)
            && FailStamps(s) == FailStamps(p) + (if x.fail then {x.ts} else {}) && FailStamps(p) <= Stamps(p)
  {
    hide InOrder;
    Split(s);
  }

  lemma {:induction false} StampsCount(s: seq<Sample>)
    requires InOrder(s)
    ensures |Stamps(s)| == |s| && |FailStamps(s)| == Failures(s)
    decreases |s|
  {
    if s != [] {
      SplitStamps(s);
      hide Stamps, FailStamps, InOrder;
      StampsCount(s[..|s| - 1]);
    }
  }

  /** `m` holds the response times of the samples that have one. */
  ghost predicate TimesIn(m: map<int, int>, s: seq<Sample>) {
    && (forall ts :: ts in m ==> exists x :: x in s && Timed(x) && x.ts == ts)
    && (forall x :: x in s && Timed(x) ==> x.detail.Some? && x.ts in m && m[x.ts] == x.detail.value.ms)
  }

  ghost predicate HasValue(m: map<int, int>, v: int) {
    exists k :: k in m && m[k] == v
  }

  lemma {:induction false} MeasuresAre(m: map<int, int>, s: seq<Sample>)
    requires InOrder(s) && TimesIn(m, s)
    ensures |Measures(s)| == |m| && Sum(Measures(s)) == Total(m)
    ensures forall v :: v in Measures(s) <==> HasValue(m, v)
    decreases |s|
  {
    hide TimesIn, InOrder, HasValue, Sum, Total, Measures;
    if s == [] {
      NoTimes(m);
    } else {
      var p, x := s[..|s| - 1], s[|s| - 1];
      SplitStamps(s);
      TimesLess(m, s);
      MeasuresLess(s);
      if Timed(x) {
        MeasuresAre(m - {x.ts}, p);
        TotalPick(m, x.ts);
        OneKeyLess(m, x.ts);
        SumOneMore(Measures(p), x.detail.value.ms);
      } else {
        MeasuresAre(m, p);
      }
    }
  }

  lemma NoTimes(m: map<int, int>)
    requires TimesIn(m, [])
    ensures Measures([]) == [] && |m| == 0 && Sum([]) == 0 == Total(m) && forall v :: !HasValue(m, v)
  {
    if m != map[] {
      var k := SomeKey(m);
    }
  }

  lemma MeasuresLess(s: seq<Sample>)
    requires s != []
    ensures var x := s[|s| - 1];
            Measures(s) == if Timed(x) then Measures(s[..|s| - 1]) + [x.detail.value.ms] else Measures(s[..|s| - 1])
  {
  }

  lemma OneKeyLess(m: map<int, int>, k: int)
    requires k in m
    ensures |m| == |m - {k}| + 1
    ensures forall v :: HasValue(m, v) <==> HasValue(m - {k}, v) || v == m[k]
  {
    assert m.Keys == (m - {k}).Keys + {k};
    forall v | HasValue(m, v) && v != m[k] ensures HasValue(m - {k}, v) {
      var j :| j in m && m[j] == v;
      assert j in m - {k};
    }
    forall v | HasValue(m - {k}, v) ensures HasValue(m, v) {
      var j :| j in m - {k} && (m - {k})[j] == v;
      assert j in m;
    }
  }

  lemma SumOneMore(ms: seq<int>, v: int)
    ensures Sum(ms + [v]) == Sum(ms) + v
  {
    assert (ms + [v])[..|ms|] == ms;
  }

  lemma TimesLess(m: map<int, int>, s: seq<Sample>)
    requires s != [] && InOrder(s) && TimesIn(m, s)
    ensures var p, x := s[..|s| - 1], s[|s| - 1];
            if Timed(x) then x.ts in m && m[x.ts] == x.detail.value.ms && TimesIn(m - {x.ts}, p) else TimesIn(m, p)
  {
    hide InOrder, Timed;
    var p, x := s[..|s| - 1], s[|s| - 1];
    Split(s);
    assert x in s;
    var n := if Timed(x) then m - {x.ts} else m;
    forall ts | ts in n ensures exists y :: y in p && Timed(y) && y.ts == ts {
      var y :| y in s && Timed(y) && y.ts == ts;
      assert y in p;
    }
    forall y | y in p && Timed(y) ensures y.detail.Some? && y.ts in n && n[y.ts] == y.detail.value.ms {
      assert y in s && y.ts < x.ts;
      TimedDetail(y);
    }
    assert Timed(x) ==> x.detail.Some? by { TimedDetail(x); }
  }

  lemma TimedDetail(x: Sample)
    ensures Timed(x) ==> x.detail.Some?
  {
  }

  /** `s` holds the samples of the hashes in time order, each timestamp once. */
  ghost predicate Holds(s: seq<Sample>, r: Reading)
    requires r.Read?
  {
    && InOrder(s)
    && (forall i :: 0 <= i < |s| ==> IsSample(s[i], r))
    && (forall ts :: ts in r.failing ==> exists i :: 0 <= i < |s| && s[i].ts == ts)
  }

  predicate IsSample(x: Sample, r: Reading)
    requires r.Read?
  {
    x.ts in r.failing && x.fail == r.failing[x.ts] && x.detail == Lookup(r.details, x.ts)
  }

  lemma ListsHolds(s: seq<Sample>, r: Reading)
    requires r.Read? && Lists(s, r)
    ensures Holds(s, r)
  {
    forall i | 0 <= i < |s| ensures IsSample(s[i], r) {
      assert s[i] in s;
    }
    forall ts | ts in r.failing ensures exists i :: 0 <= i < |s| && s[i].ts == ts {
      assert SampleAt(r, ts) in s;
      var i :| 0 <= i < |s| && s[i] == SampleAt(r, ts);
      assert s[i].ts == ts;
    }
  }

  lemma HeldStamps(s: seq<Sample>, r: Reading)
    requires r.Read? && Holds(s, r)
    ensures Stamps(s) == r.failing.Keys && FailStamps(s) == FailedAt(r)
  {
    hide InOrder;
    forall ts | ts in r.failing ensures ts in Stamps(s) && (r.failing[ts] ==> ts in FailStamps(s)) {
      var i :| 0 <= i < |s| && s[i].ts == ts;
      assert s[i] in s && IsSample(s[i], r);
    }
    forall ts | ts in Stamps(s) ensures ts in r.failing && (ts in FailStamps(s) ==> r.failing[ts]) {
      if ts in FailStamps(s) {
        var x :| x in s && x.fail && x.ts == ts;
        var i :| 0 <= i < |s| && s[i] == x;
        assert IsSample(s[i], r);
      } else {
        var x :| x in s && x.ts == ts;
        var i :| 0 <= i < |s| && s[i] == x;
        assert IsSample(s[i], r);
      }
    }
  }

  lemma HeldTimes(s: seq<Sample>, r: Reading)
    requires r.Read? && Holds(s, r)
    ensures TimesIn(TimesOf(r), s)
  {
    hide InOrder;
    forall ts | ts in TimesOf(r) ensures exists x :: x in s && Timed(x) && x.ts == ts {
      var i :| 0 <= i < |s| && s[i].ts == ts;
      assert s[i] in s && IsSample(s[i], r);
    }
    forall x | x in s && Timed(x) ensures x.ts in TimesOf(r) && TimesOf(r)[x.ts] == x.detail.value.ms {
      var i :| 0 <= i < |s| && s[i] == x;
      assert IsSample(s[i], r);
    }
  }

  /** The successful checks are the rest. */
  lemma Rest(r: Reading)
    requires r.Read?
    ensures |SucceededAt(r)| + |FailedAt(r)| == |r.failing|
  {
    assert SucceededAt(r) + FailedAt(r) == r.failing.Keys && SucceededAt(r) !! FailedAt(r);
  }

  /**
   * A location's counts are those of its hashes: each timestamp is one check,
   * failed or successful as its status says, and the response times are those
   * of the successful ones that have a detail. The greatest is counted from 0.
   */
  lemma RollupCounts(lr: LocationRollup, r: Reading)
    requires r.Read? && RollsUpReading(lr, r)
    ensures lr.total == |r.failing| && lr.failure == |FailedAt(r)| && lr.success == |SucceededAt(r)|
    ensures lr.measured == |TimedAt(r)|
    ensures lr.measured > 0 ==>
              && (exists ts :: ts in TimedAt(r) && r.details[ts].ms == lr.minMs)
              && (forall ts :: ts in TimedAt(r) ==> lr.minMs <= r.details[ts].ms <= lr.maxMs)
              && (lr.maxMs == 0 || exists ts :: ts in TimedAt(r) && r.details[ts].ms == lr.maxMs)
              && lr.avgMs == Total(TimesOf(r)) as real / |TimedAt(r)| as real
    ensures lr.measured == 0 ==> lr.avgMs == 0.0 && lr.minMs == 0 && lr.maxMs == 0
  {
    hide HourRuns, Total, Measures, Sum, Lists, Holds, TimesIn, InOrder, TimedAt, Failures,
         FailedAt, SucceededAt, TimesOf;
    var s :| Lists(s, r) && RollsUp(lr, s);
    ListsHolds(s, r);
    assert InOrder(s) by { hide *; HoldsInOrder(s, r); }
    HeldStamps(s, r);
    HeldTimes(s, r);
    StampsCount(s);
    Rest(r);
    MeasuresAre(TimesOf(r), s);
    TimesAre(r);
    if lr.measured > 0 {
      TimeRange(lr, r, Measures(s));
    }
  }

  lemma HoldsInOrder(s: seq<Sample>, r: Reading)
    requires r.Read? && Holds(s, r)
    ensures InOrder(s)
  {
  }

  lemma TimesAre(r: Reading)
    requires r.Read?
    ensures |TimesOf(r)| == |TimedAt(r)|
  {
    assert TimesOf(r).Keys == TimedAt(r);
  }

  lemma TimeRange(lr: LocationRollup, r: Reading, ms: seq<int>)
    requires r.Read? && IsLeast(lr.minMs, ms) && IsPeak(lr.maxMs, ms)
    requires forall v :: v in ms <==> HasValue(TimesOf(r), v)
    ensures exists ts :: ts in TimedAt(r) && r.details[ts].ms == lr.minMs
    ensures forall ts :: ts in TimedAt(r) ==> lr.minMs <= r.details[ts].ms <= lr.maxMs
    ensures lr.maxMs == 0 || exists ts :: ts in TimedAt(r) && r.details[ts].ms == lr.maxMs
  {
    var m := TimesOf(r);
    var a :| a in m && m[a] == lr.minMs;
    assert a in TimedAt(r) && r.details[a].ms == lr.minMs;
    if lr.maxMs != 0 {
      var b :| b in m && m[b] == lr.maxMs;
      assert b in TimedAt(r) && r.details[b].ms == lr.maxMs;
    }
    forall ts | ts in TimedAt(r) ensures lr.minMs <= r.details[ts].ms <= lr.maxMs {
      assert ts in m && HasValue(m, m[ts]);
    }
  }

  // ------------------------------------------------------------ failure runs

  /** The checks between two times, both included. */
  function Between(r: Reading, lo: int, hi: int): set<int>
    requires r.Read?
  {
    set ts | ts in r.failing && lo <= ts <= hi
  }

  /** All checks from the run's start to its end failed with its message, and it knows how many they are. */
  ghost predicate IsRun(run: FailureRun, r: Reading)
    requires r.Read?
  {
    && run.start in r.failing && run.end in r.failing && run.start <= run.end
    && (forall ts :: ts in Between(r, run.start, run.end) ==> r.failing[ts] && MessageAt(r, ts) == run.message)
    && run.count == |Between(r, run.start, run.end)|
    && (run.openStart <==> forall ts :: ts in r.failing ==> run.start <= ts)
    && (run.openEnd <==> forall ts :: ts in r.failing ==> ts <= run.end)
  }

  /** Between two neighbouring runs there is a success, or a change of message. */
  ghost predicate Apart(a: FailureRun, b: FailureRun, r: Reading)
    requires r.Read?
  {
    a.end < b.start &&
    (a.message != b.message || exists ts :: ts in r.failing && a.end < ts < b.start && !r.failing[ts])
  }

  lemma SpanStamps(s: seq<Sample>, r: Reading, lo: nat, hi: nat)
    requires r.Read? && Holds(s, r) && lo < hi <= |s|
    ensures |Between(r, s[lo].ts, s[hi - 1].ts)| == hi - lo
  {
    hide IsSample;
    var part := s[lo..hi];
    forall ts | ts in Between(r, s[lo].ts, s[hi - 1].ts) ensures ts in Stamps(part) {
      var i := IndexOf(s, r, ts);
      assert part[i - lo] == s[i];
    }
    forall ts | ts in Stamps(part) ensures ts in Between(r, s[lo].ts, s[hi - 1].ts) {
      var x :| x in part && x.ts == ts;
      var i :| 0 <= i < |part| && part[i] == x;
      assert s[lo + i] == x;
      SampleStamp(s, r, lo + i);
    }
    assert Between(r, s[lo].ts, s[hi - 1].ts) == Stamps(part);
    StampsCount(part);
  }

  lemma SampleStamp(s: seq<Sample>, r: Reading, i: nat)
    requires r.Read? && Holds(s, r) && i < |s|
    ensures s[i].ts in r.failing && r.failing[s[i].ts] == s[i].fail && MessageAt(r, s[i].ts) == Msg(s[i])
  {
    assert IsSample(s[i], r);
  }

  lemma IndexOf(s: seq<Sample>, r: Reading, ts: int) returns (i: nat)
    requires r.Read? && Holds(s, r) && ts in r.failing
    ensures i < |s| && s[i].ts == ts
  {
    i :| 0 <= i < |s| && s[i].ts == ts;
  }

  lemma Ordered3(s: seq<Sample>, i: nat, j: nat)
    requires InOrder(s) && i < |s| && j < |s|
    ensures i < j <==> s[i].ts < s[j].ts
    ensures i <= j <==> s[i].ts <= s[j].ts
  {
  }

  lemma SpanIsRun(s: seq<Sample>, r: Reading, span: Span)
    requires r.Read? && Holds(s, r) && MaximalRun(s, Unlimited, span)
    ensures IsRun(RunOf(s, span), r)
  {
    hide MaximalRun, Holds, InOrder;
    assert span.lo < span.hi <= |s| by { hide *; SpanBounds(s, span); }
    assert InOrder(s) by { hide *; HoldsInOrder(s, r); }
    SpanStamps(s, r, span.lo, span.hi);
    Ordered3(s, span.lo, span.hi - 1);
    SampleStamp(s, r, span.lo);
    SampleStamp(s, r, span.hi - 1);
    var run := RunOf(s, span);
    forall ts | ts in Between(r, run.start, run.end) ensures r.failing[ts] && MessageAt(r, ts) == run.message {
      StampInSpan(s, r, span, ts);
    }
    Ends(s, r, span.lo, span.hi);
  }

  lemma StampInSpan(s: seq<Sample>, r: Reading, span: Span, ts: int)
    requires r.Read? && Holds(s, r) && MaximalRun(s, Unlimited, span)
    requires ts in Between(r, s[span.lo].ts, s[span.hi - 1].ts)
    ensures r.failing[ts] && MessageAt(r, ts) == Msg(s[span.lo])
  {
    hide Holds, InOrder;
    assert InOrder(s) by { hide *; HoldsInOrder(s, r); }
    var i := IndexOf(s, r, ts);
    Ordered3(s, span.lo, i);
    Ordered3(s, i, span.hi - 1);
    SpanFails(s, Unlimited, span, i);
    SampleStamp(s, r, i);
  }

  lemma Ends(s: seq<Sample>, r: Reading, lo: nat, hi: nat)
    requires r.Read? && Holds(s, r) && lo < hi <= |s|
    ensures lo == 0 <==> forall ts :: ts in r.failing ==> s[lo].ts <= ts
    ensures hi == |s| <==> forall ts :: ts in r.failing ==> ts <= s[hi - 1].ts
  {
    hide IsSample;
    SampleStamp(s, r, 0);
    SampleStamp(s, r, |s| - 1);
    forall ts | ts in r.failing
      ensures s[0].ts <= ts <= s[|s| - 1].ts
    {
      var i := IndexOf(s, r, ts);
    }
  }

  lemma SpanBounds(s: seq<Sample>, span: Span)
    requires MaximalRun(s, Unlimited, span)
    ensures span.lo < span.hi <= |s|
  {
  }

  lemma SpansApart(s: seq<Sample>, a: Span, b: Span)
    requires InOrder(s) && MaximalRun(s, Unlimited, a) && MaximalRun(s, Unlimited, b) && a.hi <= b.lo
    ensures s[a.hi - 1].ts < s[b.lo].ts
    ensures a.hi == b.lo ==> Msg(s[a.lo]) != Msg(s[b.lo])
    ensures a.hi < b.lo ==> s[a.hi - 1].ts < s[a.hi].ts < s[b.lo].ts
  {
    SpanFails(s, Unlimited, a, a.hi - 1);
    if a.hi == b.lo {
      assert !Joined(s, b.lo, Unlimited);
    }
  }

  /**
   * A location's runs, in order, are the stretches of failing checks of its
   * hashes: each fails throughout with one message, every failing check lies in
   * one, and neighbours are kept apart by a success or by their messages.
   */
  lemma RollupRuns(lr: LocationRollup, r: Reading)
    requires r.Read? && RollsUpReading(lr, r)
    ensures forall k :: 0 <= k < |lr.runs| ==> IsRun(lr.runs[k], r)
    ensures forall ts :: ts in FailedAt(r) ==>
              exists k :: 0 <= k < |lr.runs| && lr.runs[k].start <= ts <= lr.runs[k].end
    ensures forall k :: 0 <= k < |lr.runs| - 1 ==> Apart(lr.runs[k], lr.runs[k + 1], r)
  {
    hide Spans, MaximalRun, IsRun, Lists, Failures, Measures, Apart, Holds, InOrder, RunOf, FailedAt;
    var s :| Lists(s, r) && RollsUp(lr, s);
    ListsHolds(s, r);
    var spans := Spans(s, Unlimited);
    HourRunsAre(s);
    forall k | 0 <= k < |spans| ensures IsRun(lr.runs[k], r) {
      SpanOf(s, k);
      SpanIsRun(s, r, spans[k]);
    }
    forall ts | ts in FailedAt(r) ensures exists k :: 0 <= k < |lr.runs| && lr.runs[k].start <= ts <= lr.runs[k].end {
      var k := FailureInRun(s, r, ts);
      assert lr.runs[k].start <= ts <= lr.runs[k].end;
    }
    forall k | 0 <= k < |spans| - 1 ensures Apart(lr.runs[k], lr.runs[k + 1], r) {
      NeighboursApart(s, r, k);
    }
  }

  lemma HourRunsAre(s: seq<Sample>)
    ensures var spans := Spans(s, Unlimited);
            |HourRuns(s)| == |spans| && forall k :: 0 <= k < |spans| ==> HourRuns(s)[k] == RunOf(s, spans[k])
  {
    hide Spans, RunOf;
  }

  lemma SpanOf(s: seq<Sample>, k: nat)
    requires k < |Spans(s, Unlimited)|
    ensures MaximalRun(s, Unlimited, Spans(s, Unlimited)[k])
  {
    hide MaximalRun, Spans;
    SpansAreTheMaximalRuns(s, Unlimited);
    assert Spans(s, Unlimited)[k] in Spans(s, Unlimited);
  }

  lemma FailureInRun(s: seq<Sample>, r: Reading, ts: int) returns (k: nat)
    requires r.Read? && Holds(s, r) && ts in FailedAt(r)
    ensures k < |Spans(s, Unlimited)|
    ensures var run := RunOf(s, Spans(s, Unlimited)[k]); run.start <= ts <= run.end
  {
    hide Holds, Spans, InOrder;
    assert InOrder(s) by { hide *; HoldsInOrder(s, r); }
    var i := IndexOf(s, r, ts);
    SampleStamp(s, r, i);
    FailureInSpan(s, Unlimited, i);
    var spans := Spans(s, Unlimited);
    k :| 0 <= k < |spans| && spans[k].lo <= i < spans[k].hi;
    Ordered3(s, spans[k].lo, i);
    Ordered3(s, i, spans[k].hi - 1);
  }

  lemma NeighboursApart(s: seq<Sample>, r: Reading, k: nat)
    requires r.Read? && Holds(s, r) && k + 1 < |Spans(s, Unlimited)|
    ensures Apart(RunOf(s, Spans(s, Unlimited)[k]), RunOf(s, Spans(s, Unlimited)[k + 1]), r)
  {
    hide Spans, MaximalRun, Holds, InOrder;
    assert InOrder(s) by { hide *; HoldsInOrder(s, r); }
    var spans := Spans(s, Unlimited);
    SpanOf(s, k);
    SpanOf(s, k + 1);
    var a, b := spans[k], spans[k + 1];
    NeighboursMeet(s, k);
    SpansApart(s, a, b);
    if a.hi < b.lo {
      SampleStamp(s, r, a.hi);
    }
  }

  /** What lies between two neighbouring runs begins with a success. */
  lemma NeighboursMeet(s: seq<Sample>, k: nat)
    requires k + 1 < |Spans(s, Unlimited)|
    ensures var a, b := Spans(s, Unlimited)[k], Spans(s, Unlimited)[k + 1];
            a.hi <= b.lo < |s| && (a.hi < b.lo ==> !s[a.hi].fail)
  {
    hide Spans, MaximalRun;
    var spans := Spans(s, Unlimited);
    SpansAreTheMaximalRuns(s, Unlimited);
    assert Ordered(spans);
    var a, b := spans[k], spans[k + 1];
    if a.hi < b.lo && s[a.hi].fail {
      FailureInSpan(s, Unlimited, a.hi);
      var j :| 0 <= j < |spans| && spans[j].lo <= a.hi < spans[j].hi;
      NotBetween(spans, k, j);
      assert false;
    }
  }

  lemma NotBetween(spans: seq<Span>, k: nat, j: nat)
    requires Ordered(spans) && k + 1 < |spans| && j < |spans| && spans[k].hi < spans[k + 1].lo
    ensures !(spans[j].lo <= spans[k].hi < spans[j].hi)
  {
  }

  // -------------------------------------------------------- the hour's counts

  /** The locations' rollups are of these hashes. */
  ghost predicate RollUp(per: Locations, rs: map<string, Reading>) {
    && per.Keys == rs.Keys
    && forall l :: l in rs ==> rs[l].Read? && RollsUpReading(per[l], rs[l])
  }

  ghost function SuccessCounts(rs: map<string, Reading>): map<string, int> {
    map l | l in rs && rs[l].Read? :: |SucceededAt(rs[l])|
  }

  ghost function FailureCounts(rs: map<string, Reading>): map<string, int> {
    map l | l in rs && rs[l].Read? :: |FailedAt(rs[l])|
  }

  ghost function TimedCounts(rs: map<string, Reading>): map<string, int> {
    map l | l in rs && rs[l].Read? :: |TimedAt(rs[l])|
  }

  ghost function TimeSums(rs: map<string, Reading>): map<string, int> {
    map l | l in rs && rs[l].Read? :: Total(TimesOf(rs[l]))
  }

  ghost predicate SomeFailed(r: Reading) {
    r.Read? && exists ts :: ts in r.failing && r.failing[ts]
  }

  ghost predicate MostFailed(r: Reading) {
    r.Read? && |FailedAt(r)| > |SucceededAt(r)|
  }

  /** Every location failed some check, and one failed more than it succeeded. */
  ghost predicate OutEverywhere(rs: map<string, Reading>) {
    (forall l :: l in rs ==> SomeFailed(rs[l])) && (exists l :: l in rs && MostFailed(rs[l]))
  }

  /** Some location failed no check, none failed more than it succeeded, and at most one failed at all. */
  ghost predicate WellEnough(rs: map<string, Reading>) {
    && (exists l :: l in rs && !SomeFailed(rs[l])) && (forall l :: l in rs ==> !MostFailed(rs[l]))
    && forall k, l :: k in rs && l in rs && SomeFailed(rs[k]) && SomeFailed(rs[l]) ==> k == l
  }

  /**
   * An hour's counts are those of the checks in its locations' hashes, its
   * average is over every response time in them, and its status says how many
   * of the locations failed, and which of them mostly.
   */
  lemma HourCounts(agg: AggregateRollup, rs: map<string, Reading>)
    requires SumsUp(agg) && RollUp(agg.perLocation, rs)
    ensures agg.success == Total(SuccessCounts(rs)) && agg.failure == Total(FailureCounts(rs))
    ensures var n := Total(TimedCounts(rs)); agg.avgMs == if n > 0 then Total(TimeSums(rs)) as real / n as real else 0.0
    ensures agg.status == Ladder.MajorOutage <==> OutEverywhere(rs)
    ensures agg.status == Ladder.Operational <==> WellEnough(rs)
    ensures agg.status == Ladder.Unknown <==> rs == map[]
  {
    hide RollsUpReading, Total, RealTotal, Ladder.HourStatus, RollUp, OutEverywhere, WellEnough;
    hide SuccessCounts, FailureCounts, TimedCounts, TimeSums, MsOf, Successes, FailuresOf, MeasuredOf;
    CountsAgree(agg.perLocation, rs);
    TimesAgree(agg.perLocation, rs);
    StatusOver(agg.perLocation, rs);
  }

  lemma AgreeAt(per: Locations, rs: map<string, Reading>, l: string)
    requires RollUp(per, rs) && l in rs
    ensures rs[l].Read? && l in per && RollsUpReading(per[l], rs[l])
  {
  }

  lemma CountsAgree(per: Locations, rs: map<string, Reading>)
    requires RollUp(per, rs)
    ensures Successes(per) == SuccessCounts(rs) && FailuresOf(per) == FailureCounts(rs)
    ensures MeasuredOf(per) == TimedCounts(rs)
  {
    hide RollsUpReading, FailedAt, SucceededAt, TimedAt;
    forall l | l in rs
      ensures per[l].success == |SucceededAt(rs[l])| && per[l].failure == |FailedAt(rs[l])|
      ensures per[l].measured == |TimedAt(rs[l])|
    {
      RollupCounts(per[l], rs[l]);
    }
  }

  lemma TimesAgree(per: Locations, rs: map<string, Reading>)
    requires RollUp(per, rs)
    ensures RealTotal(MsOf(per)) == Total(TimeSums(rs)) as real
  {
    hide RollsUpReading, Total, RealTotal, TimesOf, TimedAt;
    forall l | l in rs ensures MsOf(per)[l] == Total(TimesOf(rs[l])) as real {
      AgreeAt(per, rs, l);
      LocationTimes(per[l], rs[l]);
    }
    RealTotalOfInts(TimeSums(rs), MsOf(per));
  }

  lemma StatusOver(per: Locations, rs: map<string, Reading>)
    requires RollUp(per, rs)
    ensures Ladder.HourStatus(CountsOf(per)) == Ladder.MajorOutage <==> OutEverywhere(rs)
    ensures Ladder.HourStatus(CountsOf(per)) == Ladder.Operational <==> WellEnough(rs)
    ensures Ladder.HourStatus(CountsOf(per)) == Ladder.Unknown <==> rs == map[]
  {
    hide Ladder.HourStatus, SomeFailed, MostFailed, RollsUpReading;
    var m := CountsOf(per);
    Ladder.StatusMeans(m);
    assert forall l :: l in m <==> l in rs;
    forall l | l in rs
      ensures (SomeFailed(rs[l]) <==> m[l].failure > 0) && (MostFailed(rs[l]) <==> m[l].failure > m[l].success)
    {
      LocationStatus(per[l], rs[l]);
    }
    assert m == map[] <==> rs == map[] by { hide *; SameKeys(m, rs); }
  }

  lemma SameKeys<V, W>(a: map<string, V>, b: map<string, W>)
    requires forall l :: l in a <==> l in b
    ensures a == map[] <==> b == map[]
  {
    if a != map[] {
      var l := SomeKey(a);
    }
    if b != map[] {
      var l := SomeKey(b);
    }
  }

  lemma LocationTimes(lr: LocationRollup, r: Reading)
    requires r.Read? && RollsUpReading(lr, r)
    ensures (if lr.measured > 0 then lr.avgMs * lr.measured as real else 0.0) == Total(TimesOf(r)) as real
  {
    hide RollsUpReading, Total;
    RollupCounts(lr, r);
    if lr.measured > 0 {
      TimesBack(Total(TimesOf(r)), lr.measured);
    } else {
      assert TimesOf(r).Keys == TimedAt(r) == {};
      TotalZero(TimesOf(r));
    }
  }

  lemma LocationStatus(lr: LocationRollup, r: Reading)
    requires r.Read? && RollsUpReading(lr, r)
    ensures (SomeFailed(r) <==> lr.failure > 0) && (MostFailed(r) <==> lr.failure > lr.success)
  {
    hide RollsUpReading, Total, FailedAt, SucceededAt, TimedAt, TimesOf;
    RollupCounts(lr, r);
    FailedSomewhere(r);
  }

  lemma FailedSomewhere(r: Reading)
    requires r.Read?
    ensures SomeFailed(r) <==> |FailedAt(r)| > 0
  {
    if SomeFailed(r) {
      var ts :| ts in r.failing && r.failing[ts];
      assert ts in FailedAt(r);
    } else {
      forall ts ensures ts !in FailedAt(r) {
      }
    }
  }

  lemma TimesBack(sum: int, n: nat)
    requires n > 0
    ensures sum as real / n as real * n as real == sum as real
  {
  }

  /** The locations that a read of an hour found checks of. */
  function Found(readings: map<string, Reading>): map<string, Reading> {
    map l | l in readings && readings[l].Read? && readings[l].failing != map[] :: readings[l]
  }

  /** What a read of the hour gives is summed from every check that it found at any location. */
  lemma ReadHourCounts(agg: AggregateRollup, readings: map<string, Reading>)
    requires SumsUp(agg) && ReadFrom(agg.perLocation, agg.missing, readings)
    ensures RollUp(agg.perLocation, Found(readings))
    ensures agg.success == Total(SuccessCounts(readings)) && agg.failure == Total(FailureCounts(readings))
  {
    hide RollsUpReading, Total, ReadFrom, RollUp, SucceededAt, FailedAt;
    var rs := Found(readings);
    FoundRollUp(agg.perLocation, agg.missing, readings);
    hide SuccessCounts, FailureCounts;
    CountsAgree(agg.perLocation, rs);
    NothingElse(readings);
  }

  lemma FoundRollUp(per: Locations, missing: set<string>, readings: map<string, Reading>)
    requires ReadFrom(per, missing, readings)
    ensures RollUp(per, Found(readings))
  {
    hide RollsUpReading;
  }

  /** Locations without checks count nothing. */
  lemma NothingElse(readings: map<string, Reading>)
    ensures Total(SuccessCounts(Found(readings))) == Total(SuccessCounts(readings))
    ensures Total(FailureCounts(Found(readings))) == Total(FailureCounts(readings))
  {
    hide Total;
    forall l | l in readings && readings[l].Read? && l !in Found(readings)
      ensures |SucceededAt(readings[l])| == 0 == |FailedAt(readings[l])|
    {
      assert SucceededAt(readings[l]) == {} == FailedAt(readings[l]);
    }
    TotalSame(SuccessCounts(Found(readings)), SuccessCounts(readings));
    TotalSame(FailureCounts(Found(readings)), FailureCounts(readings));
  }
}
