/**
 * One location's hour of raw samples and its runs of failures:
 * ComputeLocationRollup in dashboard/internal/store/store.go.
 */
module HourRollup {
  import opened Base
  import opened Sorting
  import Ladder

  /** A sample's detail hash entry: response time and message. */
  datatype Detail = Detail(ms: int, msg: string)

  datatype Sample = Sample(ts: int, fail: bool, detail: Option<Detail>)

  function Msg(s: Sample): string {
    if s.detail.Some? then s.detail.value.msg else ""
  }

  /** A location's answer for one hour: an error, or its status and detail hashes by timestamp. */
  datatype Reading = Unreadable | Read(failing: map<int, bool>, details: map<int, Detail>)

  datatype FailureRun = FailureRun(start: int, end: int, count: nat, message: string, openStart: bool, openEnd: bool)

  datatype LocationRollup = LocationRollup(
    total: nat, success: nat, failure: nat,
    avgMs: real, minMs: int, maxMs: int, measured: nat,
    status: Ladder.LocationStatus, runs: seq<FailureRun>)

  // ---------------------------------------------------------------- samples

  function SampleAt(r: Reading, ts: int): Sample
    requires r.Read? && ts in r.failing
  {
    Sample(ts, r.failing[ts], Lookup(r.details, ts))
  }

  ghost predicate InOrder(s: seq<Sample>) {
    forall i, j :: 0 <= i < j < |s| ==> s[i].ts < s[j].ts
  }

  /** `s` lists exactly the samples of the reading, oldest first. */
  ghost predicate Lists(s: seq<Sample>, r: Reading)
    requires r.Read?
  {
    && InOrder(s)
    && forall x :: x in s <==> x.ts in r.failing && x == SampleAt(r, x.ts)
  }

  predicate TsLeq(a: Sample, b: Sample) {
    a.ts <= b.ts
  }

  lemma ListsUnique(a: seq<Sample>, b: seq<Sample>, r: Reading)
    requires r.Read? && Lists(a, r) && Lists(b, r)
    ensures a == b
  {
    StrictlySortedUnique(a, b, TsLeq);
  }

  /** `s` holds, in any order, the samples of the reading but those still left to read. */
  ghost predicate Gathered(s: seq<Sample>, r: Reading, left: set<int>)
    requires r.Read?
  {
    && (forall x :: x in s <==> x.ts in r.failing && x.ts !in left && x == SampleAt(r, x.ts))
    && (forall i, j :: 0 <= i < j < |s| ==> s[i].ts != s[j].ts)
  }

  lemma GatherOne(s: seq<Sample>, r: Reading, left: set<int>, ts: int)
    requires r.Read? && Gathered(s, r, left) && ts in left && ts in r.failing
    ensures Gathered(s + [SampleAt(r, ts)], r, left - {ts})
  {
    var t := s + [SampleAt(r, ts)];
    forall i, j | 0 <= i < j < |t| ensures t[i].ts != t[j].ts {
      assert t[i] in s;
    }
  }

  /** The samples in an arbitrary order, sorted. */
  method ReadSamples(r: Reading) returns (s: seq<Sample>)
    requires r.Read?
    ensures Lists(s, r)
  {
    var unsorted: seq<Sample> := [];
    var left := r.failing.Keys;
    while left != {}
      invariant left <= r.failing.Keys
      invariant Gathered(unsorted, r, left)
      decreases left
    {
      var ts := Pick(left);
      GatherOne(unsorted, r, left, ts);
      unsorted := unsorted + [SampleAt(r, ts)];
      left := left - {ts};
    }
    s := Sort(unsorted, TsLeq);
    SortedDistinct(unsorted, s);
  }

  lemma SortedDistinct(u: seq<Sample>, s: seq<Sample>)
    requires multiset(u) == multiset(s) && SortedBy(s, TsLeq)
    requires forall i, j :: 0 <= i < j < |u| ==> u[i].ts != u[j].ts
    ensures InOrder(s)
    ensures forall x :: x in s <==> x in u
  {
    forall x ensures x in s <==> x in u {
      assert x in s <==> x in multiset(s);
      assert x in u <==> x in multiset(u);
    }
    forall i, j | 0 <= i < j < |s| ensures s[i].ts < s[j].ts {
      assert TsLeq(s[i], s[j]);
      assert s[i] in u && s[j] in u;
      if s[i].ts == s[j].ts {
        DistinctOnce(u, s[i]);
        assert s[i] == s[j];
        Twice(s, i, j);
      }
    }
  }

  lemma {:induction false} DistinctOnce(u: seq<Sample>, x: Sample)
    requires forall i, j :: 0 <= i < j < |u| ==> u[i].ts != u[j].ts
    ensures multiset(u)[x] <= 1
    ensures forall y :: y in u && x in u && y.ts == x.ts ==> y == x
  {
    if u != [] {
      DistinctOnce(u[1..], x);
      assert u == [u[0]] + u[1..];
      if x == u[0] {
        assert x !in u[1..];
      }
    }
  }

  // ------------------------------------------------------------------- runs

  /** How far apart two samples of one run may be. */
  datatype Gap = Unlimited | Within(seconds: int)

  /** Sample i continues the failure of the sample before it. */
  predicate Joined(s: seq<Sample>, i: nat, gap: Gap)
    requires 0 < i < |s|
  {
    && s[i - 1].fail && s[i].fail
    && Msg(s[i - 1]) == Msg(s[i])
    && (gap.Within? ==> s[i].ts - s[i - 1].ts <= gap.seconds)
  }

  datatype Span = Span(lo: nat, hi: nat)

  /** The runs of failures of a stream of samples, in one pass over it. */
  function Spans(s: seq<Sample>, gap: Gap): (r: seq<Span>)
    ensures forall k :: 0 <= k < |r| ==> r[k].lo < r[k].hi <= |s|
    ensures s != [] && s[|s| - 1].fail <==> r != [] && r[|r| - 1].hi == |s|
    ensures s == [] ==> r == []
  {
    if s == [] then []
    else
      var n := |s| - 1;
      var before := Spans(s[..n], gap);
      if !s[n].fail then before
      else if n > 0 && Joined(s, n, gap) then
        before[..|before| - 1] + [Span(before[|before| - 1].lo, n + 1)]
      else before + [Span(n, n + 1)]
  }

  /** A run that cannot be extended at either end. */
  ghost predicate MaximalRun(s: seq<Sample>, gap: Gap, r: Span) {
    && r.lo < r.hi <= |s|
    && s[r.lo].fail
    && (forall i :: r.lo < i < r.hi ==> Joined(s, i, gap))
    && (r.lo > 0 ==> !Joined(s, r.lo, gap))
    && (r.hi < |s| ==> !Joined(s, r.hi, gap))
  }

  ghost predicate Ordered(spans: seq<Span>) {
    && (forall k :: 0 <= k < |spans| ==> spans[k].lo < spans[k].hi)
    && (forall j, k :: 0 <= j < k < |spans| ==> spans[j].hi <= spans[k].lo)
  }

  /** The spans are the maximal runs of the stream, oldest first. */
  ghost predicate AreMaximalRuns(spans: seq<Span>, s: seq<Sample>, gap: Gap) {
    && Ordered(spans)
    && forall r :: r in spans <==> MaximalRun(s, gap, r)
  }

  /** The one-pass runs are exactly the maximal runs. */
  lemma {:induction false} SpansAreTheMaximalRuns(s: seq<Sample>, gap: Gap)
    ensures AreMaximalRuns(Spans(s, gap), s, gap)
  {
    if s != [] {
      var n := |s| - 1;
      SpansAreTheMaximalRuns(s[..n], gap);
      if n > 0 && Joined(s, n, gap) {
        GrownSpans(s, gap, Spans(s[..n], gap));
      } else {
        KeptSpans(s, gap, Spans(s[..n], gap));
      }
    }
  }

  lemma GrownSpans(s: seq<Sample>, gap: Gap, before: seq<Span>)
    requires |s| > 1 && Joined(s, |s| - 1, gap)
    requires AreMaximalRuns(before, s[..|s| - 1], gap)
    requires before != [] && before[|before| - 1].hi == |s| - 1
    ensures AreMaximalRuns(before[..|before| - 1] + [Span(before[|before| - 1].lo, |s|)], s, gap)
  {
    var last := before[|before| - 1];
    var now := before[..|before| - 1] + [Span(last.lo, |s|)];
    assert last in before;
    LastSpanOnce(before);
    forall r ensures r in now <==> MaximalRun(s, gap, r) {
      GrownRun(s, gap, r, last.lo);
    }
  }

  lemma KeptSpans(s: seq<Sample>, gap: Gap, before: seq<Span>)
    requires |s| > 0 && (|s| > 1 ==> !Joined(s, |s| - 1, gap))
    requires AreMaximalRuns(before, s[..|s| - 1], gap)
    ensures AreMaximalRuns(if s[|s| - 1].fail then before + [Span(|s| - 1, |s|)] else before, s, gap)
  {
    forall k | 0 <= k < |before| ensures before[k].hi <= |s| - 1 {
      assert before[k] in before;
    }
    forall r {
      KeptRun(s, gap, r);
    }
  }

  lemma LastSpanOnce(spans: seq<Span>)
    requires spans != [] && Ordered(spans)
    ensures forall r :: r in spans[..|spans| - 1] <==> r in spans && r != spans[|spans| - 1]
  {
    assert spans == spans[..|spans| - 1] + [spans[|spans| - 1]];
  }

  /** What one more sample that continues the last run does to the maximal runs. */
  lemma GrownRun(s: seq<Sample>, gap: Gap, r: Span, lo: nat)
    requires |s| > 1 && Joined(s, |s| - 1, gap)
    requires MaximalRun(s[..|s| - 1], gap, Span(lo, |s| - 1))
    ensures MaximalRun(s, gap, r) <==> r == Span(lo, |s|) || (MaximalRun(s[..|s| - 1], gap, r) && r.hi != |s| - 1)
    ensures MaximalRun(s[..|s| - 1], gap, r) && r.hi == |s| - 1 ==> r == Span(lo, |s| - 1)
  {
    var n := |s| - 1;
    var p := s[..n];
    assert forall i :: 0 < i < n ==> Joined(p, i, gap) == Joined(s, i, gap);
    if r.hi == n && MaximalRun(p, gap, r) {
      assert !(r.lo < lo) && !(lo < r.lo);
    }
    if r.hi == n + 1 && MaximalRun(s, gap, r) {
      assert !(r.lo < lo) && !(lo < r.lo);
    }
    if MaximalRun(s, gap, r) {
      assert r.hi != n;
    }
  }

  /** One more sample that continues nothing leaves the earlier runs as they are. */
  lemma KeptRun(s: seq<Sample>, gap: Gap, r: Span)
    requires |s| > 0 && (|s| > 1 ==> !Joined(s, |s| - 1, gap))
    ensures MaximalRun(s, gap, r) <==>
            MaximalRun(s[..|s| - 1], gap, r) || (s[|s| - 1].fail && r == Span(|s| - 1, |s|))
  {
    var n := |s| - 1;
    var p := s[..n];
    assert forall i :: 0 < i < n ==> Joined(p, i, gap) == Joined(s, i, gap);
    if MaximalRun(s, gap, r) && r.hi == n + 1 && n > 0 {
      assert !(r.lo < n < r.hi);
    }
  }

  /** A run fails throughout, with one message. */
  lemma {:induction false} SpanFails(s: seq<Sample>, gap: Gap, r: Span, i: nat)
    requires MaximalRun(s, gap, r) && r.lo <= i < r.hi
    ensures s[i].fail && Msg(s[i]) == Msg(s[r.lo])
    decreases i
  {
    if i > r.lo {
      SpanFails(s, gap, r, i - 1);
      assert Joined(s, i, gap);
    }
  }

  /** A failing sample lies in one of the runs. */
  lemma {:induction false} FailureInSpan(s: seq<Sample>, gap: Gap, i: nat)
    requires i < |s| && s[i].fail
    ensures exists k :: 0 <= k < |Spans(s, gap)| && Spans(s, gap)[k].lo <= i < Spans(s, gap)[k].hi
    decreases |s|
  {
    var n := |s| - 1;
    var before, now := Spans(s[..n], gap), Spans(s, gap);
    if i == n {
      assert now[|now| - 1].lo <= i < now[|now| - 1].hi;
    } else {
      FailureInSpan(s[..n], gap, i);
      var k :| 0 <= k < |before| && before[k].lo <= i < before[k].hi;
      assert now[k].lo <= i < now[k].hi;
    }
  }

  function RunOf(s: seq<Sample>, r: Span): FailureRun
    requires r.lo < r.hi <= |s|
  {
    FailureRun(s[r.lo].ts, s[r.hi - 1].ts, r.hi - r.lo, Msg(s[r.lo]), r.lo == 0, r.hi == |s|)
  }

  /** The runs stored for an hour, which is never split by a gap. */
  function HourRuns(s: seq<Sample>): (r: seq<FailureRun>) {
    var spans := Spans(s, Unlimited);
    seq(|spans|, k requires 0 <= k < |spans| => RunOf(s, spans[k]))
  }

  // ----------------------------------------------------------------- counts

  function Failures(s: seq<Sample>): (n: nat)
    ensures n <= |s|
  {
    if s == [] then 0 else Failures(s[..|s| - 1]) + if s[|s| - 1].fail then 1 else 0
  }

  /** Response times of the successful samples that have one. */
  function Measures(s: seq<Sample>): (r: seq<int>)
    ensures |r| <= |s| - Failures(s)
  {
    if s == [] then []
    else
      var x := s[|s| - 1];
      Measures(s[..|s| - 1]) + if !x.fail && x.detail.Some? then [x.detail.value.ms] else []
  }

  function Sum(ms: seq<int>): int {
    if ms == [] then 0 else Sum(ms[..|ms| - 1]) + ms[|ms| - 1]
  }

  ghost predicate IsLeast(x: int, ms: seq<int>) {
    x in ms && forall y :: y in ms ==> x <= y
  }

  /** The largest response time, counted from 0. */
  ghost predicate IsPeak(x: int, ms: seq<int>) {
    (x == 0 || x in ms) && 0 <= x && forall y :: y in ms ==> y <= x
  }

  /** `r` is the rollup of the samples `s`. */
  ghost predicate RollsUp(r: LocationRollup, s: seq<Sample>) {
    var ms := Measures(s);
    && r.total == |s|
    && r.failure == Failures(s)
    && r.success == |s| - Failures(s)
    && r.status == Ladder.LocationFromCounts(r.success, r.failure)
    && r.runs == HourRuns(s)
    && r.measured == |ms|
    && (ms == [] ==> r.avgMs == 0.0 && r.minMs == 0 && r.maxMs == 0)
    && (ms != [] ==> r.avgMs == Sum(ms) as real / |ms| as real && IsLeast(r.minMs, ms) && IsPeak(r.maxMs, ms))
  }

  lemma RollsUpUnique(a: LocationRollup, b: LocationRollup, s: seq<Sample>)
    requires RollsUp(a, s) && RollsUp(b, s)
    ensures a == b
  {
    var ms := Measures(s);
    if ms != [] {
      assert a.minMs in ms && b.minMs in ms;
      assert a.maxMs == b.maxMs;
    }
  }

  /** `r` is the rollup of what a location answered. */
  ghost predicate RollsUpReading(r: LocationRollup, reading: Reading)
    requires reading.Read?
  {
    exists s :: Lists(s, reading) && RollsUp(r, s)
  }

  lemma ReadingRollupUnique(a: LocationRollup, b: LocationRollup, reading: Reading)
    requires reading.Read? && RollsUpReading(a, reading) && RollsUpReading(b, reading)
    ensures a == b
  {
    var s :| Lists(s, reading) && RollsUp(a, s);
    var t :| Lists(t, reading) && RollsUp(b, t);
    ListsUnique(s, t, reading);
    RollsUpUnique(a, b, s);
  }

  /** How the loop's closed and open runs read off the runs of the samples so far. */
  ghost predicate ReadOff(s: seq<Sample>, spans: seq<Span>, runs: seq<FailureRun>, open: bool, cur: FailureRun) {
    && (forall k :: 0 <= k < |spans| ==> spans[k].lo < spans[k].hi <= |s|)
    && |spans| == |runs| + (if open then 1 else 0)
    && (forall k :: 0 <= k < |runs| ==> runs[k] == RunOf(s, spans[k]).(openEnd := false))
    && (open ==> cur.(openEnd := true) == RunOf(s, spans[|runs|]))
  }

  ghost predicate RunsSoFar(s: seq<Sample>, runs: seq<FailureRun>, open: bool, cur: FailureRun) {
    && open == (s != [] && s[|s| - 1].fail)
    && ReadOff(s, Spans(s, Unlimited), runs, open, cur)
  }

  function Close(runs: seq<FailureRun>, open: bool, cur: FailureRun): seq<FailureRun> {
    if open then runs + [cur.(openEnd := false)] else runs
  }

  lemma ReadOffClosed(s: seq<Sample>, x: Sample, spans: seq<Span>, runs: seq<FailureRun>, open: bool, cur: FailureRun)
    requires ReadOff(s, spans, runs, open, cur)
    ensures ReadOff(s + [x], spans, Close(runs, open, cur), false, cur)
    ensures ReadOff(s + [x], spans + [Span(|s|, |s| + 1)], Close(runs, open, cur), true,
                    FailureRun(x.ts, x.ts, 1, Msg(x), s == [], false))
  {
    forall k | 0 <= k < |spans|
      ensures RunOf(s + [x], spans[k]).(openEnd := false) == RunOf(s, spans[k]).(openEnd := false)
    {
    }
  }

  lemma ReadOffGrown(s: seq<Sample>, x: Sample, spans: seq<Span>, runs: seq<FailureRun>, cur: FailureRun)
    requires ReadOff(s, spans, runs, true, cur)
    requires spans[|runs|].hi == |s|
    ensures ReadOff(s + [x], spans[..|runs|] + [Span(spans[|runs|].lo, |s| + 1)], runs, true,
                    cur.(end := x.ts, count := cur.count + 1))
  {
    forall k | 0 <= k < |spans|
      ensures RunOf(s + [x], spans[k]).(openEnd := false) == RunOf(s, spans[k]).(openEnd := false)
    {
    }
  }

  lemma NextSpans(s: seq<Sample>, x: Sample)
    ensures var spans := Spans(s, Unlimited);
            Spans(s + [x], Unlimited) ==
            if !x.fail then spans
            else if s != [] && s[|s| - 1].fail && Msg(s[|s| - 1]) == Msg(x) then
              spans[..|spans| - 1] + [Span(spans[|spans| - 1].lo, |s| + 1)]
            else spans + [Span(|s|, |s| + 1)]
  {
    assert (s + [x])[..|s|] == s;
  }

  lemma NextSuccess(s: seq<Sample>, x: Sample, runs: seq<FailureRun>, open: bool, cur: FailureRun)
    requires RunsSoFar(s, runs, open, cur) && !x.fail
    ensures RunsSoFar(s + [x], Close(runs, open, cur), false, cur)
  {
    hide Spans;
    NextSpans(s, x);
    ReadOffClosed(s, x, Spans(s, Unlimited), runs, open, cur);
  }

  lemma NextFailure(s: seq<Sample>, x: Sample, runs: seq<FailureRun>, open: bool, cur: FailureRun)
    requires RunsSoFar(s, runs, open, cur) && x.fail
    requires !(open && cur.message == Msg(x))
    ensures RunsSoFar(s + [x], Close(runs, open, cur), true, FailureRun(x.ts, x.ts, 1, Msg(x), s == [], false))
  {
    hide Spans, ReadOff, RunOf, Close;
    NextSpans(s, x);
    if open {
      OpenMessage(s, runs, cur);
    }
    ReadOffClosed(s, x, Spans(s, Unlimited), runs, open, cur);
  }

  /** An open run has the message of the newest sample. */
  lemma OpenMessage(s: seq<Sample>, runs: seq<FailureRun>, cur: FailureRun)
    requires RunsSoFar(s, runs, true, cur)
    ensures cur.message == Msg(s[|s| - 1])
  {
    hide Spans;
    SpanMessage(s, |runs|);
  }

  lemma NextSameFailure(s: seq<Sample>, x: Sample, runs: seq<FailureRun>, cur: FailureRun)
    requires RunsSoFar(s, runs, true, cur) && x.fail && cur.message == Msg(x)
    ensures RunsSoFar(s + [x], runs, true, cur.(end := x.ts, count := cur.count + 1))
  {
    hide Spans, Joined;
    var spans := Spans(s, Unlimited);
    assert spans[|runs|].hi == |s|;
    ReadOffGrown(s, x, spans, runs, cur);
    assert Spans(s + [x], Unlimited) == spans[..|runs|] + [Span(spans[|runs|].lo, |s| + 1)] by {
      NextSpans(s, x);
      SpanMessage(s, |runs|);
    }
  }

  /** Every sample of a run has the run's message. */
  lemma SpanMessage(s: seq<Sample>, k: nat)
    requires k < |Spans(s, Unlimited)|
    ensures Msg(s[Spans(s, Unlimited)[k].hi - 1]) == Msg(s[Spans(s, Unlimited)[k].lo])
  {
    SpansAreTheMaximalRuns(s, Unlimited);
    var r := Spans(s, Unlimited)[k];
    assert r in Spans(s, Unlimited) && MaximalRun(s, Unlimited, r);
    SameMessage(s, Unlimited, r.lo, r.hi - 1);
  }

  lemma {:induction false} SameMessage(s: seq<Sample>, gap: Gap, lo: nat, i: nat)
    requires lo <= i < |s|
    requires forall k :: lo < k <= i ==> Joined(s, k, gap)
    ensures Msg(s[i]) == Msg(s[lo])
    decreases i
  {
    if i > lo {
      assert Joined(s, i, gap);
      SameMessage(s, gap, lo, i - 1);
    }
  }

  /** The loop's running figures for the response times measured so far. */
  ghost predicate MeasuredSoFar(ms: seq<int>, n: nat, total: int, least: int, peak: int) {
    && n == |ms| && total == Sum(ms)
    && (n > 0 ==> IsLeast(least, ms))
    && IsPeak(peak, ms)
  }

  lemma MeasureOneMore(ms: seq<int>, v: int, n: nat, total: int, least: int, peak: int)
    requires MeasuredSoFar(ms, n, total, least, peak)
    ensures MeasuredSoFar(ms + [v], n + 1, total + v, if n == 0 || v < least then v else least,
        if v > peak then v else peak)
  {
    var now := ms + [v];
    assert now[..|now| - 1] == ms;
    assert Sum(now) == Sum(ms) + v;
    hide Sum;
    assert forall y :: y in now <==> y in ms || y == v;
  }

  lemma NextMeasure(s: seq<Sample>, x: Sample, n: nat, total: int, least: int, peak: int)
    requires MeasuredSoFar(Measures(s), n, total, least, peak)
    requires x.detail.Some? && !x.fail
    ensures var ms := x.detail.value.ms;
            MeasuredSoFar(Measures(s + [x]), n + 1, total + ms,
                          if n == 0 || ms < least then ms else least, if ms > peak then ms else peak)
  {
    hide MeasuredSoFar;
    assert (s + [x])[..|s|] == s;
    MeasureOneMore(Measures(s), x.detail.value.ms, n, total, least, peak);
  }

  lemma NextUnmeasured(s: seq<Sample>, x: Sample)
    ensures x.fail || x.detail.None? ==> Measures(s + [x]) == Measures(s)
    ensures Failures(s + [x]) == Failures(s) + if x.fail then 1 else 0
  {
    assert (s + [x])[..|s|] == s;
  }

  lemma NothingYet(cur: FailureRun)
    ensures Failures([]) == 0 && MeasuredSoFar(Measures([]), 0, 0, 0, 0) && RunsSoFar([], [], false, cur)
  {
  }

  method ComputeLocationRollup(reading: Reading) returns (r: LocationRollup)
    requires reading.Read?
    ensures RollsUpReading(r, reading)
  {
    hide Spans, Failures, Measures, Sum, HourRuns, ReadOff, IsLeast, IsPeak;
    var s := ReadSamples(reading);
    var successes, failures, msSamples := 0, 0, 0;
    var totalMs, minMs, maxMs := 0, 0, 0;
    var runs: seq<FailureRun> := [];
    var curRun := FailureRun(0, 0, 0, "", false, false);
    var open := false;
    NothingYet(curRun);
    for i := 0 to |s|
      invariant failures == Failures(s[..i]) && successes == i - failures
      invariant MeasuredSoFar(Measures(s[..i]), msSamples, totalMs, minMs, maxMs)
      invariant RunsSoFar(s[..i], runs, open, curRun)
    {
      var smp := s[i];
      assert s[..i + 1] == s[..i] + [smp];
      NextUnmeasured(s[..i], smp);
      if smp.detail.Some? && !smp.fail {
        NextMeasure(s[..i], smp, msSamples, totalMs, minMs, maxMs);
        if msSamples == 0 || smp.detail.value.ms < minMs {
          minMs := smp.detail.value.ms;
        }
        if smp.detail.value.ms > maxMs {
          maxMs := smp.detail.value.ms;
        }
        totalMs := totalMs + smp.detail.value.ms;
        msSamples := msSamples + 1;
      }
      if smp.fail {
        failures := failures + 1;
        if open && curRun.message == Msg(smp) {
          NextSameFailure(s[..i], smp, runs, curRun);
          curRun := curRun.(end := smp.ts, count := curRun.count + 1);
        } else {
          NextFailure(s[..i], smp, runs, open, curRun);
          runs := Close(runs, open, curRun);
          curRun := FailureRun(smp.ts, smp.ts, 1, Msg(smp), i == 0, false);
          open := true;
        }
      } else {
        successes := successes + 1;
        NextSuccess(s[..i], smp, runs, open, curRun);
        runs := Close(runs, open, curRun);
        open := false;
      }
    }
    assert s[..|s|] == s;
    FinishRuns(s, runs, open, curRun);
    if open {
      runs := runs + [curRun.(openEnd := true)];
    }
    r := LocationRollup(successes + failures, successes, failures, 0.0, 0, 0, 0,
                        Ladder.LocationFromCounts(successes, failures), runs);
    if msSamples > 0 {
      r := r.(avgMs := totalMs as real / msSamples as real, minMs := minMs, maxMs := maxMs, measured := msSamples);
    }
    assert RollsUp(r, s);
  }

  lemma FinishRuns(s: seq<Sample>, runs: seq<FailureRun>, open: bool, cur: FailureRun)
    requires RunsSoFar(s, runs, open, cur)
    ensures HourRuns(s) == if open then runs + [cur.(openEnd := true)] else runs
  {
    SpansAreTheMaximalRuns(s, Unlimited);
    var spans := Spans(s, Unlimited);
    forall k | 0 <= k < |runs| ensures runs[k] == RunOf(s, spans[k]) {
      assert k < |spans| - 1 ==> spans[k].hi <= spans[|spans| - 1].lo;
    }
  }

  /** The average lies between the fastest and the slowest, and only successes are measured. */
  lemma RollupBounds(r: LocationRollup, s: seq<Sample>)
    requires RollsUp(r, s)
    ensures r.total == r.success + r.failure && r.measured <= r.success
    ensures r.measured > 0 ==> r.minMs as real <= r.avgMs <= r.maxMs as real
    ensures r.avgMs * r.measured as real == Sum(Measures(s)) as real
  {
    MeasureBounds(r, Measures(s));
  }

  lemma MeasureBounds(r: LocationRollup, ms: seq<int>)
    requires r.measured == |ms|
    requires ms == [] ==> r.avgMs == 0.0
    requires ms != [] ==> r.avgMs == Sum(ms) as real / |ms| as real && IsLeast(r.minMs, ms) && IsPeak(r.maxMs, ms)
    ensures r.measured > 0 ==> r.minMs as real <= r.avgMs <= r.maxMs as real
    ensures r.avgMs * r.measured as real == Sum(ms) as real
  {
    hide Sum, IsLeast, IsPeak;
    if ms == [] {
      NothingMeasured();
    } else {
      MeasuresBetween(ms, r.minMs, r.maxMs);
      SumBounds(ms, r.minMs, r.maxMs);
      AverageBounds(r.avgMs, Sum(ms), |ms|, r.minMs, r.maxMs);
    }
  }

  lemma NothingMeasured()
    ensures Sum([]) == 0
  {
  }

  lemma AverageBounds(avg: real, sum: int, n: int, lo: int, hi: int)
    requires n > 0 && lo * n <= sum <= hi * n && avg == sum as real / n as real
    ensures lo as real <= avg <= hi as real && avg * n as real == sum as real
  {
    DivideBounds(sum, n, lo, hi);
  }

  lemma MeasuresBetween(ms: seq<int>, lo: int, hi: int)
    requires IsLeast(lo, ms) && IsPeak(hi, ms)
    ensures forall i :: 0 <= i < |ms| ==> lo <= ms[i] <= hi
  {
    assert forall i :: 0 <= i < |ms| ==> ms[i] in ms;
  }

  lemma DivideBounds(sum: int, n: int, lo: int, hi: int)
    requires n > 0 && lo * n <= sum <= hi * n
    ensures lo as real <= sum as real / n as real <= hi as real
    ensures (sum as real / n as real) * n as real == sum as real
  {
    assert lo as real * n as real == (lo * n) as real;
    assert hi as real * n as real == (hi * n) as real;
  }

  lemma {:induction false} SumBounds(ms: seq<int>, lo: int, hi: int)
    requires forall i :: 0 <= i < |ms| ==> lo <= ms[i] <= hi
    ensures lo * |ms| <= Sum(ms) <= hi * |ms|
  {
    if ms != [] {
      SumBounds(ms[..|ms| - 1], lo, hi);
    }
  }
}
