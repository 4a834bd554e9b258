/**
 * Joining a location's hourly failure runs across hours: the first half of
 * FailureWindows in dashboard/internal/store/store.go.
 */
module Stitching {
  import opened Base
  import opened HourRollup

  /** StatusMaxAge in seconds. */
  const STATUS_MAX_AGE := 6 * 3600

  /** A location's failures over any number of hours. */
  datatype Segment = Segment(loc: string, msg: string, start: int, end: int, count: nat, ongoing: bool)

  /** One location's segments so far, whether its newest sample failed, and that sample's hour. */
  datatype LocState = LocState(segs: seq<Segment>, open: bool, lastHour: int)

  const NOTHING := LocState([], false, 0)

  function SegmentOf(loc: string, run: FailureRun): Segment {
    Segment(loc, run.message, run.start, run.end, run.count, false)
  }

  /** Extends the last segment by a run that continues it, or starts a new one. */
  function AddRun(loc: string, segs: seq<Segment>, open: bool, run: FailureRun): seq<Segment>
    requires open ==> segs != []
  {
    if open && run.openStart && segs[|segs| - 1].msg == run.message &&
       run.start - segs[|segs| - 1].end <= STATUS_MAX_AGE then
      var last := segs[|segs| - 1];
      segs[..|segs| - 1] + [last.(end := run.end, count := last.count + run.count)]
    else
      segs + [SegmentOf(loc, run)]
  }

  function AddRuns(loc: string, segs: seq<Segment>, open: bool, runs: seq<FailureRun>): (r: seq<Segment>)
    requires open ==> segs != []
    ensures segs != [] || runs != [] ==> r != []
    decreases |runs|
  {
    if runs == [] then segs
    else AddRun(loc, AddRuns(loc, segs, open, runs[..|runs| - 1]), open, runs[|runs| - 1])
  }

  function OpenAfter(runs: seq<FailureRun>): bool {
    runs != [] && runs[|runs| - 1].openEnd
  }

  type Hours = map<int, map<string, LocationRollup>>

  /** A location's state after the given hours, oldest first. */
  function Stitch(rollups: Hours, hours: seq<int>, loc: string): (st: LocState)
    requires forall h :: h in hours ==> h in rollups
    ensures st.open ==> st.segs != []
    decreases |hours|
  {
    if hours == [] then NOTHING
    else
      var h := hours[|hours| - 1];
      var st := Stitch(rollups, hours[..|hours| - 1], loc);
      if loc !in rollups[h] then st
      else
        var runs := rollups[h][loc].runs;
        LocState(AddRuns(loc, st.segs, st.open, runs), OpenAfter(runs), h)
  }

  method StitchRuns(loc: string, segs: seq<Segment>, open: bool, runs: seq<FailureRun>) returns (r: seq<Segment>)
    requires open ==> segs != []
    ensures r == AddRuns(loc, segs, open, runs)
  {
    r := segs;
    for i := 0 to |runs|
      invariant r == AddRuns(loc, segs, open, runs[..i])
    {
      assert runs[..i + 1][..i] == runs[..i];
      var run := runs[i];
      var stitch := open && run.openStart && r[|r| - 1].msg == run.message &&
          run.start - r[|r| - 1].end <= STATUS_MAX_AGE;
      if stitch {
        var last := r[|r| - 1];
        r := r[|r| - 1 := last.(end := run.end, count := last.count + run.count)];
      } else {
        r := r + [Segment(loc, run.message, run.start, run.end, run.count, false)];
      }
    }
    assert runs[..|runs|] == runs;
  }

  // ---------------------------------------------- one pass over the stream

  /** How far apart two failures of one segment may be. */
  const STREAM_GAP := Within(STATUS_MAX_AGE)

  function EpisodeOf(loc: string, s: seq<Sample>, r: Span): Segment
    requires r.lo < r.hi <= |s|
  {
    Segment(loc, Msg(s[r.lo]), s[r.lo].ts, s[r.hi - 1].ts, r.hi - r.lo, false)
  }

  predicate SpansFit(spans: seq<Span>, s: seq<Sample>) {
    forall k :: 0 <= k < |spans| ==> spans[k].lo < spans[k].hi <= |s|
  }

  function EpisodesOf(loc: string, s: seq<Sample>, spans: seq<Span>): seq<Segment>
    requires SpansFit(spans, s)
  {
    seq(|spans|, k requires 0 <= k < |spans| => EpisodeOf(loc, s, spans[k]))
  }

  /** A location's failures, from one pass over all its samples. */
  function Episodes(loc: string, s: seq<Sample>): seq<Segment> {
    EpisodesOf(loc, s, Spans(s, STREAM_GAP))
  }

  function Shift(r: Span, offset: nat): Span {
    Span(r.lo + offset, r.hi + offset)
  }

  function Shifted(spans: seq<Span>, offset: nat): seq<Span> {
    seq(|spans|, k requires 0 <= k < |spans| => Shift(spans[k], offset))
  }

  /** The runs of a stream followed by others, the first of them perhaps joined to the last before. */
  function Concat(joined: bool, before: seq<Span>, after: seq<Span>): seq<Span> {
    if joined && before != [] && after != [] then
      before[..|before| - 1] + [Span(before[|before| - 1].lo, after[0].hi)] + after[1..]
    else before + after
  }

  ghost predicate Meets(a: seq<Sample>, b: seq<Sample>) {
    a != [] && b != [] && Joined(a + b, |a|, STREAM_GAP)
  }

  /** No two neighbours of `b` are too far apart, as in one hour. */
  ghost predicate Close(b: seq<Sample>) {
    forall i :: 0 < i < |b| ==> b[i].ts - b[i - 1].ts <= STATUS_MAX_AGE
  }

  /** The runs of `a + b` are those of `a` followed by those of `b`. */
  lemma {:induction false} SpansOfAppend(a: seq<Sample>, b: seq<Sample>)
    requires Close(b)
    ensures Spans(a + b, STREAM_GAP) == Concat(Meets(a, b), Spans(a, STREAM_GAP), Shifted(Spans(b, Unlimited), |a|))
    ensures b != [] && b[0].fail ==> Spans(b, Unlimited) != []
    decreases |b|
  {
    if b == [] {
      assert a + b == a;
    } else {
      var c := b[..|b| - 1];
      SpansOfAppend(a, c);
      assert (a + b)[..|a + b| - 1] == a + c;
      if c == [] {
        AppendFirst(a, b);
      } else {
        assert Meets(a, b) == Meets(a, c);
        AppendNext(a, b, c);
      }
    }
  }

  lemma AppendFirst(a: seq<Sample>, b: seq<Sample>)
    requires |b| == 1 && (a + b)[..|a|] == a
    ensures Spans(a + b, STREAM_GAP) == Concat(Meets(a, b), Spans(a, STREAM_GAP), Shifted(Spans(b, Unlimited), |a|))
    ensures b[0].fail ==> Spans(b, Unlimited) != []
  {
    assert b[..0] == [];
    if b[0].fail {
      assert Spans(b, Unlimited) == [Span(0, 1)];
      assert Shifted([Span(0, 1)], |a|) == [Span(|a|, |a| + 1)];
      var sa := Spans(a, STREAM_GAP);
      if Meets(a, b) {
        assert Spans(a + b, STREAM_GAP) == sa[..|sa| - 1] + [Span(sa[|sa| - 1].lo, |a| + 1)];
      } else {
        assert Spans(a + b, STREAM_GAP) == sa + [Span(|a|, |a| + 1)];
      }
    }
  }

  /** The definition of Spans, one sample further on. */
  lemma SpansStep(s: seq<Sample>, p: seq<Sample>, gap: Gap)
    requires s != [] && p == s[..|s| - 1]
    ensures !s[|p|].fail ==> Spans(s, gap) == Spans(p, gap)
    ensures s[|p|].fail && |p| > 0 && Joined(s, |p|, gap) ==>
              var before := Spans(p, gap);
              before != [] && Spans(s, gap) == Grown(before, |s|)
    ensures s[|p|].fail && !(|p| > 0 && Joined(s, |p|, gap)) ==>
              Spans(s, gap) == Spans(p, gap) + [Span(|p|, |s|)]
  {
  }

  function Grown(spans: seq<Span>, hi: nat): seq<Span>
    requires spans != []
  {
    spans[..|spans| - 1] + [Span(spans[|spans| - 1].lo, hi)]
  }

  lemma MeetsFails(a: seq<Sample>, b: seq<Sample>)
    requires Meets(a, b)
    ensures b[0].fail
  {
  }

  lemma JoinedInTail(a: seq<Sample>, b: seq<Sample>, i: nat)
    requires Close(b) && 0 < i < |b|
    ensures Joined(a + b, |a| + i, STREAM_GAP) == Joined(b, i, Unlimited)
  {
    assert (a + b)[|a| + i] == b[i] && (a + b)[|a| + i - 1] == b[i - 1];
  }

  lemma AppendNext(a: seq<Sample>, b: seq<Sample>, c: seq<Sample>)
    requires |b| > 1 && Close(b) && c == b[..|b| - 1] && (a + b)[..|a + b| - 1] == a + c
    requires Meets(a, b) == Meets(a, c)
    requires Spans(a + c, STREAM_GAP) == Concat(Meets(a, c), Spans(a, STREAM_GAP), Shifted(Spans(c, Unlimited), |a|))
    requires c[0].fail ==> Spans(c, Unlimited) != []
    ensures Spans(a + b, STREAM_GAP) == Concat(Meets(a, b), Spans(a, STREAM_GAP), Shifted(Spans(b, Unlimited), |a|))
    ensures b[0].fail ==> Spans(b, Unlimited) != []
  {
    hide Spans, Concat, Shifted, Joined, Close, Grown;
    var sa, sc := Spans(a, STREAM_GAP), Spans(c, Unlimited);
    SpansStep(a + b, a + c, STREAM_GAP);
    SpansStep(b, c, Unlimited);
    JoinedInTail(a, b, |c|);
    if Meets(a, b) {
      MeetsFails(a, b);
    }
    hide Meets;
    if b[|c|].fail && Joined(b, |c|, Unlimited) {
      ConcatGrown(Meets(a, b), sa, sc, |a|, |b|);
    } else if b[|c|].fail {
      ConcatMore(Meets(a, b), sa, sc, |a|, Span(|c|, |b|));
    }
  }

  lemma ShiftedGrown(sc: seq<Span>, offset: nat, hi: nat)
    requires sc != []
    ensures Shifted(Grown(sc, hi), offset) == Grown(Shifted(sc, offset), offset + hi)
  {
    var a, b := Shifted(Grown(sc, hi), offset), Grown(Shifted(sc, offset), offset + hi);
    assert |a| == |b| == |sc|;
    forall k | 0 <= k < |sc| ensures a[k] == b[k] {
    }
  }

  lemma JoinedGrown(joined: bool, sa: seq<Span>, x: seq<Span>, hi: nat)
    requires x != []
    ensures var t := Concat(joined, sa, x);
            t != [] && Concat(joined, sa, Grown(x, hi)) == Grown(t, hi)
  {
    if joined && sa != [] {
      var m := sa[..|sa| - 1] + [Span(sa[|sa| - 1].lo, x[0].hi)];
      if |x| == 1 {
        assert Grown(x, hi)[1..] == [] && x[1..] == [];
      } else {
        assert Grown(x, hi)[1..] == Grown(x[1..], hi);
        AppendGrown(m, x[1..], hi);
      }
    } else {
      AppendGrown(sa, x, hi);
    }
  }

  lemma AppendGrown(m: seq<Span>, x: seq<Span>, hi: nat)
    requires x != []
    ensures m + Grown(x, hi) == Grown(m + x, hi)
  {
    assert (m + x)[..|m + x| - 1] == m + x[..|x| - 1];
  }

  lemma ConcatGrown(joined: bool, sa: seq<Span>, sc: seq<Span>, offset: nat, hi: nat)
    requires sc != []
    ensures var t := Concat(joined, sa, Shifted(sc, offset));
            t != [] && Concat(joined, sa, Shifted(Grown(sc, hi), offset)) == Grown(t, offset + hi)
  {
    hide Concat, Grown;
    ShiftedGrown(sc, offset, hi);
    JoinedGrown(joined, sa, Shifted(sc, offset), offset + hi);
  }

  lemma ConcatMore(joined: bool, sa: seq<Span>, sc: seq<Span>, offset: nat, r: Span)
    requires joined ==> sc != []
    ensures Concat(joined, sa, Shifted(sc + [r], offset)) ==
        Concat(joined, sa, Shifted(sc, offset)) + [Shift(r, offset)]
  {
    assert Shifted(sc + [r], offset) == Shifted(sc, offset) + [Shift(r, offset)];
  }

  // ------------------------------------------------- hours against the stream

  ghost predicate LastFailed(s: seq<Sample>) {
    s != [] && s[|s| - 1].fail
  }

  function SegmentsOf(loc: string, runs: seq<FailureRun>): seq<Segment> {
    seq(|runs|, k requires 0 <= k < |runs| => SegmentOf(loc, runs[k]))
  }

  /** Only an hour's first run can continue the hour before. */
  lemma {:induction false} OnlyTheFirstJoins(loc: string, segs: seq<Segment>, open: bool, runs: seq<FailureRun>)
    requires open ==> segs != []
    requires runs != [] && forall k :: 0 < k < |runs| ==> !runs[k].openStart
    ensures AddRuns(loc, segs, open, runs) == AddRun(loc, segs, open, runs[0]) + SegmentsOf(loc, runs[1..])
    decreases |runs|
  {
    var p := runs[..|runs| - 1];
    if p == [] {
      assert AddRuns(loc, segs, open, p) == segs;
      assert SegmentsOf(loc, runs[1..]) == [];
    } else {
      OnlyTheFirstJoins(loc, segs, open, p);
      assert SegmentsOf(loc, runs[1..]) == SegmentsOf(loc, p[1..]) + [SegmentOf(loc, runs[|runs| - 1])];
    }
  }

  lemma LastEpisode(loc: string, a: seq<Sample>)
    requires LastFailed(a)
    ensures var e := Episodes(loc, a);
            e != [] && e[|e| - 1].msg == Msg(a[|a| - 1]) && e[|e| - 1].end == a[|a| - 1].ts
  {
    var spans := Spans(a, STREAM_GAP);
    SpansAreTheMaximalRuns(a, STREAM_GAP);
    var r := spans[|spans| - 1];
    assert r in spans;
    SameMessage(a, STREAM_GAP, r.lo, r.hi - 1);
  }

  lemma {:induction false} FirstSpan(b: seq<Sample>)
    requires b != []
    ensures b[0].fail <==> Spans(b, Unlimited) != [] && Spans(b, Unlimited)[0].lo == 0
    decreases |b|
  {
    if |b| > 1 {
      FirstSpan(b[..|b| - 1]);
    } else {
      assert b[..0] == [];
    }
  }

  lemma FirstRun(b: seq<Sample>)
    ensures forall k :: 0 < k < |HourRuns(b)| ==> !HourRuns(b)[k].openStart
  {
    SpansAreTheMaximalRuns(b, Unlimited);
    var spans := Spans(b, Unlimited);
    forall k | 0 < k < |spans| ensures spans[k].lo > 0 {
      assert spans[0].hi <= spans[k].lo;
    }
  }

  lemma OpenAfterHour(a: seq<Sample>, b: seq<Sample>)
    requires b != []
    ensures OpenAfter(HourRuns(b)) == LastFailed(a + b)
  {
  }

  /** The stored form's test for a run that continues the last segment. */
  predicate Continues(segs: seq<Segment>, open: bool, run: FailureRun)
    requires open ==> segs != []
  {
    open && run.openStart && segs[|segs| - 1].msg == run.message && run.start - segs[|segs| - 1].end <= STATUS_MAX_AGE
  }

  function Extended(segs: seq<Segment>, run: FailureRun): seq<Segment>
    requires segs != []
  {
    var last := segs[|segs| - 1];
    segs[..|segs| - 1] + [last.(end := run.end, count := last.count + run.count)]
  }

  lemma AddRunsCases(loc: string, segs: seq<Segment>, open: bool, runs: seq<FailureRun>)
    requires open ==> segs != []
    requires forall k :: 0 < k < |runs| ==> !runs[k].openStart
    ensures AddRuns(loc, segs, open, runs) ==
            if runs != [] && Continues(segs, open, runs[0]) then Extended(segs, runs[0]) + SegmentsOf(loc, runs[1..])
            else segs + SegmentsOf(loc, runs)
  {
    if runs != [] {
      OnlyTheFirstJoins(loc, segs, open, runs);
      assert SegmentsOf(loc, runs) == [SegmentOf(loc, runs[0])] + SegmentsOf(loc, runs[1..]);
    }
  }

  /** Adding one hour's runs to the segments of the stream before it gives those of the stream with it. */
  lemma AddHour(loc: string, a: seq<Sample>, b: seq<Sample>)
    requires b != [] && Close(b)
    ensures LastFailed(a) ==> Episodes(loc, a) != []
    ensures AddRuns(loc, Episodes(loc, a), LastFailed(a), HourRuns(b)) == Episodes(loc, a + b)
    ensures OpenAfter(HourRuns(b)) == LastFailed(a + b)
  {
    hide Spans, AddRuns, Concat, Shifted, SegmentsOf, Continues;
    var sa, sb := Spans(a, STREAM_GAP), Spans(b, Unlimited);
    OpenAfterHour(a, b);
    FirstRun(b);
    SpansOfAppend(a, b);
    MeetsMeansContinues(loc, a, b);
    assert HourRuns(b) == RunsOf(b, sb);
    AddRunsCases(loc, Episodes(loc, a), LastFailed(a), RunsOf(b, sb));
    hide Meets;
    if Meets(a, b) {
      EpisodesJoined(loc, a, b, sa, sb);
    } else {
      EpisodesKept(loc, a, b, sa, sb);
    }
  }

  function RunsOf(b: seq<Sample>, sb: seq<Span>): seq<FailureRun>
    requires SpansFit(sb, b)
  {
    seq(|sb|, k requires 0 <= k < |sb| => RunOf(b, sb[k]))
  }

  lemma EpisodesKept(loc: string, a: seq<Sample>, b: seq<Sample>, sa: seq<Span>, sb: seq<Span>)
    requires SpansFit(sa, a) && SpansFit(sb, b)
    ensures SpansFit(Concat(false, sa, Shifted(sb, |a|)), a + b)
    ensures EpisodesOf(loc, a + b, Concat(false, sa, Shifted(sb, |a|))) ==
            EpisodesOf(loc, a, sa) + SegmentsOf(loc, RunsOf(b, sb))
  {
    var t := sa + Shifted(sb, |a|);
    forall k | 0 <= k < |t| ensures t[k].lo < t[k].hi <= |a + b| {
    }
    forall k | 0 <= k < |t|
      ensures EpisodeOf(loc, a + b, t[k]) ==
              if k < |sa| then EpisodeOf(loc, a, sa[k]) else SegmentOf(loc, RunOf(b, sb[k - |sa|]))
    {
    }
  }

  lemma EpisodeBefore(loc: string, a: seq<Sample>, b: seq<Sample>, r: Span)
    requires r.lo < r.hi <= |a|
    ensures EpisodeOf(loc, a + b, r) == EpisodeOf(loc, a, r)
  {
  }

  lemma EpisodeAfter(loc: string, a: seq<Sample>, b: seq<Sample>, r: Span)
    requires r.lo < r.hi <= |b|
    ensures EpisodeOf(loc, a + b, Shift(r, |a|)) == SegmentOf(loc, RunOf(b, r))
  {
  }

  lemma EpisodeAcross(loc: string, a: seq<Sample>, b: seq<Sample>, r: Span, q: Span)
    requires r.lo < r.hi == |a| && q.lo == 0 < q.hi <= |b|
    ensures var e, run := EpisodeOf(loc, a, r), RunOf(b, q);
            EpisodeOf(loc, a + b, Span(r.lo, |a| + q.hi)) == e.(end := run.end, count := e.count + run.count)
  {
  }

  lemma ConcatAt(sa: seq<Span>, sb: seq<Span>, offset: nat, k: nat)
    requires sa != [] && sb != [] && k < |sa| + |sb| - 1
    ensures var t, n := Concat(true, sa, Shifted(sb, offset)), |sa| - 1;
            && |t| == |sa| + |sb| - 1
            && t[k] == if k < n then sa[k]
                       else if k == n then Span(sa[n].lo, sb[0].hi + offset)
                       else Shift(sb[k - n], offset)
  {
  }

  lemma EpisodesJoined(loc: string, a: seq<Sample>, b: seq<Sample>, sa: seq<Span>, sb: seq<Span>)
    requires SpansFit(sa, a) && SpansFit(sb, b) && sa != [] && sb != []
    requires sa[|sa| - 1].hi == |a| && sb[0].lo == 0
    ensures var t := Concat(true, sa, Shifted(sb, |a|));
            && SpansFit(t, a + b)
            && EpisodesOf(loc, a + b, t) ==
               Extended(EpisodesOf(loc, a, sa), RunOf(b, sb[0])) + SegmentsOf(loc, RunsOf(b, sb)[1..])
  {
    hide Concat, Shifted, EpisodeOf, SegmentOf, RunOf;
    var n, t := |sa| - 1, Concat(true, sa, Shifted(sb, |a|));
    ConcatAt(sa, sb, |a|, n);
    forall k | 0 <= k < |t| ensures t[k].lo < t[k].hi <= |a + b| {
      ConcatAt(sa, sb, |a|, k);
    }
    var x := Extended(EpisodesOf(loc, a, sa), RunOf(b, sb[0])) + SegmentsOf(loc, RunsOf(b, sb)[1..]);
    forall k | 0 <= k < |t| ensures EpisodeOf(loc, a + b, t[k]) == x[k] {
      ConcatAt(sa, sb, |a|, k);
      if k < n {
        EpisodeBefore(loc, a, b, sa[k]);
      } else if k == n {
        EpisodeAcross(loc, a, b, sa[n], sb[0]);
      } else {
        EpisodeAfter(loc, a, b, sb[k - n]);
      }
    }
  }

  /** The stored form joins exactly when the stream does. */
  lemma MeetsMeansContinues(loc: string, a: seq<Sample>, b: seq<Sample>)
    requires b != []
    ensures LastFailed(a) ==> Episodes(loc, a) != []
    ensures Meets(a, b) <==> HourRuns(b) != [] && Continues(Episodes(loc, a), LastFailed(a), HourRuns(b)[0])
    ensures Meets(a, b) ==>
              var sa, sb := Spans(a, STREAM_GAP), Spans(b, Unlimited);
              sa != [] && sb != [] && sa[|sa| - 1].hi == |a| && sb[0].lo == 0
  {
    FirstSpan(b);
    if LastFailed(a) {
      LastEpisode(loc, a);
    }
    hide Spans;
  }

  /** The samples of one hour. */
  ghost predicate InHour(s: seq<Sample>, h: int) {
    InOrder(s) && forall x :: x in s ==> h <= x.ts < h + 3600
  }

  /** What is stored for the location in each hour is the rollup of that hour's samples. */
  ghost predicate StoredFrom(rollups: Hours, hours: seq<int>, loc: string, samples: map<int, seq<Sample>>) {
    forall h :: h in hours ==>
      && h in rollups && h in samples
      && (loc in rollups[h] <==> samples[h] != [])
      && (loc in rollups[h] ==> RollsUp(rollups[h][loc], samples[h]) && InHour(samples[h], h))
  }

  /** All samples of the hours, as one stream. */
  ghost function Stream(samples: map<int, seq<Sample>>, hours: seq<int>): seq<Sample>
    requires forall h :: h in hours ==> h in samples
  {
    if hours == [] then []
    else
      var h := hours[|hours| - 1];
      assert h in hours;
      Stream(samples, hours[..|hours| - 1]) + samples[h]
  }

  lemma HourIsClose(b: seq<Sample>, h: int)
    requires InHour(b, h) && b != []
    ensures Close(b) && h <= b[|b| - 1].ts < h + 3600
  {
    assert b[|b| - 1] in b;
    forall i | 0 < i < |b| ensures b[i].ts - b[i - 1].ts <= STATUS_MAX_AGE {
      assert b[i] in b && b[i - 1] in b;
    }
  }

  /**
   * Stitching the hourly runs gives what one pass over the whole stream gives,
   * however the stream is cut into hours: the maximal runs of failures with one
   * message and no gap of more than six hours. The state is open exactly when
   * the newest sample failed, and remembers that sample's hour.
   */
  lemma {:induction false} StitchIsOnePass(rollups: Hours, hours: seq<int>, loc: string, samples: map<int, seq<Sample>>)
    requires StoredFrom(rollups, hours, loc, samples)
    ensures var st, s := Stitch(rollups, hours, loc), Stream(samples, hours);
            && st.segs == Episodes(loc, s)
            && st.open == LastFailed(s)
            && (s != [] ==> st.lastHour <= s[|s| - 1].ts < st.lastHour + 3600)
    decreases |hours|
  {
    if hours != [] {
      var h := hours[|hours| - 1];
      var before := hours[..|hours| - 1];
      StitchIsOnePass(rollups, before, loc, samples);
      var a, b := Stream(samples, before), samples[h];
      if b == [] {
        assert a + b == a;
      } else {
        HourIsClose(b, h);
        hide Episodes, AddRuns, HourRuns, Close;
        AddHour(loc, a, b);
      }
    }
  }

  function CountOf(segs: seq<Segment>): nat {
    if segs == [] then 0 else CountOf(segs[..|segs| - 1]) + segs[|segs| - 1].count
  }

  lemma CountGrown(e: seq<Segment>, t: seq<Segment>)
    requires e != [] && |t| == |e| && t[..|t| - 1] == e[..|e| - 1] && t[|t| - 1].count == e[|e| - 1].count + 1
    ensures CountOf(t) == CountOf(e) + 1
  {
  }

  lemma CountStarted(e: seq<Segment>, t: seq<Segment>)
    requires |t| == |e| + 1 && t[..|e|] == e && t[|e|].count == 1
    ensures CountOf(t) == CountOf(e) + 1
  {
  }

  /** The segments of a stream count each failing sample once. */
  lemma {:induction false} EpisodesCountFailures(loc: string, s: seq<Sample>)
    ensures CountOf(Episodes(loc, s)) == Failures(s)
  {
    hide CountOf, Spans;
    if s == [] {
      NoneCounted(loc);
    } else {
      var p, x := s[..|s| - 1], s[|s| - 1];
      EpisodesCountFailures(loc, p);
      var before, spans := Spans(p, STREAM_GAP), Spans(s, STREAM_GAP);
      var e, t := Episodes(loc, p), Episodes(loc, s);
      SpansStep(s, p, STREAM_GAP);
      EpisodesOfPrefix(loc, s, p, before);
      if x.fail && |p| > 0 && Joined(s, |p|, STREAM_GAP) {
        GrownEpisode(loc, s, before);
      } else if x.fail {
        StartedEpisode(loc, s, before);
      }
    }
  }

  lemma GrownEpisode(loc: string, s: seq<Sample>, before: seq<Span>)
    requires before != [] && SpansFit(before, s) && before[|before| - 1].hi == |s| - 1
    ensures SpansFit(Grown(before, |s|), s)
    ensures CountOf(EpisodesOf(loc, s, Grown(before, |s|))) == CountOf(EpisodesOf(loc, s, before)) + 1
  {
    hide CountOf, EpisodeOf;
    var e, t, n := EpisodesOf(loc, s, before), EpisodesOf(loc, s, Grown(before, |s|)), |before| - 1;
    assert t[..n] == e[..n];
    EpisodeLength(loc, s, before[n]);
    EpisodeLength(loc, s, Span(before[n].lo, |s|));
    CountGrown(e, t);
  }

  lemma StartedEpisode(loc: string, s: seq<Sample>, before: seq<Span>)
    requires s != [] && SpansFit(before, s)
    ensures var spans := before + [Span(|s| - 1, |s|)];
            SpansFit(spans, s) && CountOf(EpisodesOf(loc, s, spans)) == CountOf(EpisodesOf(loc, s, before)) + 1
  {
    hide CountOf, EpisodeOf;
    var e, t := EpisodesOf(loc, s, before), EpisodesOf(loc, s, before + [Span(|s| - 1, |s|)]);
    assert t[..|e|] == e;
    EpisodeLength(loc, s, Span(|s| - 1, |s|));
    CountStarted(e, t);
  }

  lemma EpisodeLength(loc: string, s: seq<Sample>, r: Span)
    requires r.lo < r.hi <= |s|
    ensures EpisodeOf(loc, s, r).count == r.hi - r.lo
  {
  }

  lemma NoneCounted(loc: string)
    ensures CountOf(Episodes(loc, [])) == 0
  {
  }

  lemma EpisodesOfPrefix(loc: string, s: seq<Sample>, p: seq<Sample>, spans: seq<Span>)
    requires p <= s && SpansFit(spans, p)
    ensures SpansFit(spans, s) && EpisodesOf(loc, s, spans) == EpisodesOf(loc, p, spans)
  {
  }

  // ----------------------------------------------------------- all locations

  /** With `live`, a location's last segment is ongoing while its newest sample failed recently enough. */
  function Finish(st: LocState, live: bool, now: int): seq<Segment>
    requires st.open ==> st.segs != []
  {
    if live && st.open && st.lastHour >= now - STATUS_MAX_AGE then
      st.segs[|st.segs| - 1 := st.segs[|st.segs| - 1].(ongoing := true)]
    else st.segs
  }

  function OfLocation(segs: seq<Segment>, loc: string): seq<Segment> {
    if segs == [] then []
    else OfLocation(segs[..|segs| - 1], loc) + if segs[|segs| - 1].loc == loc then [segs[|segs| - 1]] else []
  }

  lemma {:induction false} OfLocationAppend(a: seq<Segment>, b: seq<Segment>, loc: string)
    ensures OfLocation(a + b, loc) == OfLocation(a, loc) + OfLocation(b, loc)
    decreases |b|
  {
    if b == [] {
      assert a + b == a;
    } else {
      assert (a + b)[..|a + b| - 1] == a + b[..|b| - 1];
      OfLocationAppend(a, b[..|b| - 1], loc);
    }
  }

  lemma {:induction false} OfOneLocation(segs: seq<Segment>, loc: string, other: string)
    requires forall i :: 0 <= i < |segs| ==> segs[i].loc == loc
    ensures OfLocation(segs, other) == if other == loc then segs else []
    decreases |segs|
  {
    if segs != [] {
      var p := segs[..|segs| - 1];
      OfOneLocation(p, loc, other);
      assert segs == p + [segs[|segs| - 1]];
    }
  }

  lemma {:induction false} AddRunsLocation(loc: string, segs: seq<Segment>, open: bool, runs: seq<FailureRun>)
    requires open ==> segs != []
    requires forall x :: x in segs ==> x.loc == loc
    ensures forall x :: x in AddRuns(loc, segs, open, runs) ==> x.loc == loc
    decreases |runs|
  {
    if runs != [] {
      AddRunsLocation(loc, segs, open, runs[..|runs| - 1]);
    }
  }

  lemma {:induction false} StitchLocation(rollups: Hours, hours: seq<int>, loc: string)
    requires forall h :: h in hours ==> h in rollups
    ensures forall x :: x in Stitch(rollups, hours, loc).segs ==> x.loc == loc
    decreases |hours|
  {
    if hours != [] {
      var h := hours[|hours| - 1];
      var st := Stitch(rollups, hours[..|hours| - 1], loc);
      StitchLocation(rollups, hours[..|hours| - 1], loc);
      if loc in rollups[h] {
        AddRunsLocation(loc, st.segs, st.open, rollups[h][loc].runs);
      }
    }
  }

  /** The three maps of FailureWindows, read as one location's state. */
  ghost function StateIn(segs: map<string, seq<Segment>>, open: map<string, bool>, last: map<string, int>,
      loc: string): LocState
    requires segs.Keys == open.Keys == last.Keys
  {
    if loc in segs then LocState(segs[loc], open[loc], last[loc]) else NOTHING
  }

  /** Every location's segments, the locations in no particular order. */
  method AllSegments(rollups: Hours, hours: seq<int>, now: int, live: bool) returns (all: seq<Segment>)
    requires forall h :: h in hours ==> h in rollups
    ensures forall loc :: OfLocation(all, loc) == Finish(Stitch(rollups, hours, loc), live, now)
  {
    var segByLoc: map<string, seq<Segment>> := map[];
    var open: map<string, bool> := map[];
    var lastHour: map<string, int> := map[];
    for i := 0 to |hours|
      invariant segByLoc.Keys == open.Keys == lastHour.Keys
      invariant forall loc :: StateIn(segByLoc, open, lastHour, loc) == Stitch(rollups, hours[..i], loc)
    {
      var h := hours[i];
      assert hours[..i + 1][..i] == hours[..i];
      segByLoc, open, lastHour := StitchOneHour(rollups, hours[..i], h, segByLoc, open, lastHour);
      assert forall loc :: Stitch(rollups, hours[..i + 1], loc) == Stitch(rollups, hours[..i] + [h], loc) by {
        assert hours[..i + 1] == hours[..i] + [h];
      }
    }
    assert hours[..|hours|] == hours;
    all := FinishAll(rollups, hours, now, live, segByLoc, open, lastHour);
  }

  method FinishAll(rollups: Hours, ghost hours: seq<int>, now: int, live: bool,
                   segByLoc: map<string, seq<Segment>>, open: map<string, bool>, lastHour: map<string, int>)
    returns (all: seq<Segment>)
    requires forall h :: h in hours ==> h in rollups
    requires segByLoc.Keys == open.Keys == lastHour.Keys
    requires forall loc :: StateIn(segByLoc, open, lastHour, loc) == Stitch(rollups, hours, loc)
    ensures forall loc :: OfLocation(all, loc) == Finish(Stitch(rollups, hours, loc), live, now)
  {
    hide Stitch, OfLocation, Finish, Finished;
    all := [];
    FinishNothing(rollups, hours, live, now, segByLoc.Keys);
    var left := segByLoc.Keys;
    while left != {}
      invariant left <= segByLoc.Keys && Finished(all, rollups, hours, live, now, left)
      decreases left
    {
      var loc := Pick(left);
      var segs := segByLoc[loc];
      StitchLocation(rollups, hours, loc);
      assert StateIn(segByLoc, open, lastHour, loc) == Stitch(rollups, hours, loc);
      FinishIs(Stitch(rollups, hours, loc), live, now, loc);
      if live && open[loc] && lastHour[loc] >= now - STATUS_MAX_AGE {
        segs := segs[|segs| - 1 := segs[|segs| - 1].(ongoing := true)];
      }
      FinishNext(all, segs, rollups, hours, live, now, left, loc);
      all := all + segs;
      left := left - {loc};
    }
    FinishedAll(all, rollups, hours, live, now);
  }

  /** `all` holds the finished segments of every location but those in `left`. */
  ghost predicate Finished(all: seq<Segment>, rollups: Hours, hours: seq<int>, live: bool, now: int, left: set<string>)
    requires forall h :: h in hours ==> h in rollups
  {
    forall loc :: OfLocation(all, loc) == if loc in left then [] else Finish(Stitch(rollups, hours, loc), live, now)
  }

  lemma FinishNext(all: seq<Segment>, segs: seq<Segment>, rollups: Hours, hours: seq<int>, live: bool, now: int,
      left: set<string>, loc: string)
    requires forall h :: h in hours ==> h in rollups
    requires Finished(all, rollups, hours, live, now, left) && loc in left
    requires segs == Finish(Stitch(rollups, hours, loc), live, now)
    requires forall i :: 0 <= i < |segs| ==> segs[i].loc == loc
    ensures Finished(all + segs, rollups, hours, live, now, left - {loc})
  {
    hide Stitch, OfLocation, Finish;
    forall other
      ensures OfLocation(all + segs, other) ==
          if other in left - {loc} then [] else Finish(Stitch(rollups, hours, other), live, now)
    {
      OfLocationAppend(all, segs, other);
      OfOneLocation(segs, loc, other);
    }
  }

  lemma FinishedAll(all: seq<Segment>, rollups: Hours, hours: seq<int>, live: bool, now: int)
    requires forall h :: h in hours ==> h in rollups
    requires Finished(all, rollups, hours, live, now, {})
    ensures forall loc :: OfLocation(all, loc) == Finish(Stitch(rollups, hours, loc), live, now)
  {
    hide Stitch, OfLocation, Finish;
  }

  lemma FinishIs(st: LocState, live: bool, now: int, loc: string)
    requires (st.open ==> st.segs != []) && forall x :: x in st.segs ==> x.loc == loc
    ensures var segs := Finish(st, live, now);
            && segs == (if live && st.open && st.lastHour >= now - STATUS_MAX_AGE then
                          st.segs[|st.segs| - 1 := st.segs[|st.segs| - 1].(ongoing := true)]
                        else st.segs)
            && forall i :: 0 <= i < |segs| ==> segs[i].loc == loc
  {
    assert forall i :: 0 <= i < |st.segs| ==> st.segs[i] in st.segs;
  }

  lemma FinishNothing(rollups: Hours, hours: seq<int>, live: bool, now: int, locs: set<string>)
    requires forall h :: h in hours ==> h in rollups
    requires forall loc :: loc !in locs ==> Stitch(rollups, hours, loc) == NOTHING
    ensures Finished([], rollups, hours, live, now, locs)
  {
    hide Stitch;
  }

  lemma NextHour(rollups: Hours, before: seq<int>, h: int, loc: string)
    requires h in rollups && forall g :: g in before ==> g in rollups
    ensures var st := Stitch(rollups, before, loc);
            Stitch(rollups, before + [h], loc) ==
            if loc in rollups[h]
            then LocState(AddRuns(loc, st.segs, st.open, rollups[h][loc].runs), OpenAfter(rollups[h][loc].runs), h)
            else st
  {
    assert (before + [h])[..|before|] == before;
  }

  method StitchOneHour(rollups: Hours, ghost before: seq<int>, h: int,
                       segs0: map<string, seq<Segment>>, open0: map<string, bool>, last0: map<string, int>)
    returns (segs: map<string, seq<Segment>>, open: map<string, bool>, last: map<string, int>)
    requires h in rollups && forall g :: g in before ==> g in rollups
    requires segs0.Keys == open0.Keys == last0.Keys
    requires forall loc :: StateIn(segs0, open0, last0, loc) == Stitch(rollups, before, loc)
    ensures segs.Keys == open.Keys == last.Keys
    ensures forall loc :: StateIn(segs, open, last, loc) == Stitch(rollups, before + [h], loc)
  {
    hide Stitch, AddRuns;
    segs, open, last := segs0, open0, last0;
    forall loc | loc !in rollups[h] ensures Stitch(rollups, before + [h], loc) == Stitch(rollups, before, loc) {
      NextHour(rollups, before, h, loc);
    }
    var left := rollups[h].Keys;
    while left != {}
      invariant left <= rollups[h].Keys
      invariant segs.Keys == open.Keys == last.Keys
      invariant forall loc :: StateIn(segs, open, last, loc) ==
                  Stitch(rollups, if loc in rollups[h] && loc !in left then before + [h] else before, loc)
      decreases left
    {
      var loc := Pick(left);
      var runs := rollups[h][loc].runs;
      assert StateIn(segs, open, last, loc) == Stitch(rollups, before, loc);
      NextHour(rollups, before, h, loc);
      var soFar := if loc in segs then segs[loc] else [];
      var wasOpen := loc in open && open[loc];
      var s := StitchRuns(loc, soFar, wasOpen, runs);
      segs, open, last := segs[loc := s], open[loc := OpenAfter(runs)], last[loc := h];
      left := left - {loc};
    }
  }
}
