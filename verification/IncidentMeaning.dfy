/**
 * Where the incidents lie among the failing samples, and in what order they are
 * listed: FailureWindows in dashboard/internal/store/store.go.
 */
module IncidentMeaning {
  import opened Base
  import opened Sorting
  import opened HourRollup
  import opened Stitching
  import opened Incidents

  // ------------------------------------------------------ episodes of a stream

  /** A failing sample with this message. */
  ghost predicate FailsIn(s: seq<Sample>, ts: int, msg: string) {
    exists i :: 0 <= i < |s| && s[i].fail && s[i].ts == ts && Msg(s[i]) == msg
  }

  lemma SpanIsMaximal(s: seq<Sample>, k: nat)
    requires k < |Spans(s, STREAM_GAP)|
    ensures MaximalRun(s, STREAM_GAP, Spans(s, STREAM_GAP)[k])
  {
    hide MaximalRun, Spans;
    SpansAreTheMaximalRuns(s, STREAM_GAP);
    assert Spans(s, STREAM_GAP)[k] in Spans(s, STREAM_GAP);
  }

  /** An episode begins and ends with failures of its message. */
  lemma EpisodeEnds(loc: string, s: seq<Sample>, k: nat)
    requires k < |Episodes(loc, s)|
    ensures var e := Episodes(loc, s)[k]; e.loc == loc && FailsIn(s, e.start, e.msg) && FailsIn(s, e.end, e.msg)
  {
    hide MaximalRun, Spans;
    var r := Spans(s, STREAM_GAP)[k];
    SpanIsMaximal(s, k);
    SpanFails(s, STREAM_GAP, r, r.lo);
    SpanFails(s, STREAM_GAP, r, r.hi - 1);
  }

  /** Each failure lies in an episode of its message. */
  lemma FailureInEpisode(loc: string, s: seq<Sample>, ts: int, msg: string) returns (k: nat)
    requires InOrder(s) && FailsIn(s, ts, msg)
    ensures k < |Episodes(loc, s)|
    ensures var e := Episodes(loc, s)[k]; e.loc == loc && e.msg == msg && e.start <= ts <= e.end
  {
    hide MaximalRun, Spans;
    var i :| 0 <= i < |s| && s[i].fail && s[i].ts == ts && Msg(s[i]) == msg;
    FailureInSpan(s, STREAM_GAP, i);
    var spans := Spans(s, STREAM_GAP);
    k :| 0 <= k < |spans| && spans[k].lo <= i < spans[k].hi;
    SpanIsMaximal(s, k);
    SpanFails(s, STREAM_GAP, spans[k], i);
  }

  lemma {:induction false} StreamInOrder(rollups: Hours, hours: seq<int>, loc: string, samples: map<int, seq<Sample>>)
    requires StoredFrom(rollups, hours, loc, samples) && forall h :: h in hours ==> h % 3600 == 0
    requires forall i, j :: 0 <= i < j < |hours| ==> hours[i] < hours[j]
    ensures var s := Stream(samples, hours);
            InOrder(s) && forall i :: 0 <= i < |s| ==> hours != [] && s[i].ts < hours[|hours| - 1] + 3600
    decreases |hours|
  {
    hide StoredFrom, InOrder;
    if hours == [] {
      NothingOrdered();
    } else {
      var before, h := hours[..|hours| - 1], hours[|hours| - 1];
      assert hours == before + [h] && h in hours && forall g :: g in before ==> g in hours;
      StoredLess(rollups, before, h, loc, samples);
      StreamInOrder(rollups, before, loc, samples);
      HourApart(before, h, hours);
      JoinedInOrder(Stream(samples, before), samples[h], h);
    }
  }

  lemma NothingOrdered()
    ensures InOrder([])
  {
  }

  lemma StoredLess(rollups: Hours, before: seq<int>, h: int, loc: string, samples: map<int, seq<Sample>>)
    requires StoredFrom(rollups, before + [h], loc, samples)
    ensures StoredFrom(rollups, before, loc, samples)
    ensures h in samples && InOrder(samples[h])
    ensures forall i :: 0 <= i < |samples[h]| ==> h <= samples[h][i].ts < h + 3600
  {
    assert h in before + [h] && forall g :: g in before ==> g in before + [h];
    var b := samples[h];
    if b != [] {
      assert InHour(b, h);
      forall i | 0 <= i < |b| ensures h <= b[i].ts < h + 3600 {
        assert b[i] in b;
      }
    }
  }

  lemma HourApart(before: seq<int>, h: int, hours: seq<int>)
    requires hours == before + [h] && (forall g :: g in hours ==> g % 3600 == 0)
    requires forall i, j :: 0 <= i < j < |hours| ==> hours[i] < hours[j]
    ensures before != [] ==> before[|before| - 1] + 3600 <= h
  {
    if before != [] {
      assert hours[|before| - 1] in hours && hours[|before|] in hours;
    }
  }

  lemma JoinedInOrder(a: seq<Sample>, b: seq<Sample>, h: int)
    requires InOrder(a) && InOrder(b)
    requires (forall i :: 0 <= i < |a| ==> a[i].ts < h) && forall i :: 0 <= i < |b| ==> h <= b[i].ts < h + 3600
    ensures InOrder(a + b) && forall i :: 0 <= i < |a + b| ==> (a + b)[i].ts < h + 3600
  {
  }

  // ----------------------------------------------------------- the incidents

  /** A failing sample of the location with this message. */
  ghost predicate FailsAt(samples: AllSamples, hours: seq<int>, loc: string, ts: int, msg: string) {
    loc in samples && (forall h :: h in hours ==> h in samples[loc]) && FailsIn(Stream(samples[loc], hours), ts, msg)
  }

  lemma HoursThere(rollups: Hours, hours: seq<int>, samples: AllSamples, loc: string)
    requires AllStoredFrom(rollups, hours, samples) && loc in samples
    ensures forall h :: h in hours ==> h in samples[loc]
  {
    assert StoredFrom(rollups, hours, loc, samples[loc]);
  }

  /** A finished segment is an episode, ongoing or not. */
  lemma SegmentIsEpisode(rollups: Hours, hours: seq<int>, loc: string, samples: map<int, seq<Sample>>, live: bool,
                         now: int, k: nat)
    requires StoredFrom(rollups, hours, loc, samples)
    ensures |Finish(Stitch(rollups, hours, loc), live, now)| == |Episodes(loc, Stream(samples, hours))|
    ensures k < |Episodes(loc, Stream(samples, hours))| ==>
              var x, e := Finish(Stitch(rollups, hours, loc), live, now)[k], Episodes(loc, Stream(samples, hours))[k];
              x.loc == e.loc && x.msg == e.msg && x.start == e.start && x.end == e.end
  {
    hide Stitch, StoredFrom, Episodes;
    StitchIsOnePass(rollups, hours, loc, samples);
  }

  ghost predicate Inside(w: FailureWindow, loc: string, ts: int, msg: string) {
    w.message == msg && loc in w.locations && w.start <= ts <= w.end
  }

  lemma {:induction false} OfLocationIn(segs: seq<Segment>, loc: string, x: Segment)
    ensures x in OfLocation(segs, loc) ==> x in segs && x.loc == loc
    decreases |segs|
  {
    if segs != [] {
      OfLocationIn(segs[..|segs| - 1], loc, x);
    }
  }

  lemma Member(w: FailureWindow, segs: seq<Segment>, c: set<Segment>, a: Segment)
    requires Describes(w, segs, c) && a in c
    ensures w.message == a.msg && a.loc in w.locations && w.start <= a.start && a.end <= w.end
  {
  }

  lemma OneIncident(ws: seq<FailureWindow>, segs: seq<Segment>, a: Segment, b: Segment) returns (w: FailureWindow)
    requires AreIncidents(ws, segs) && a in segs && b in segs && (a == b || Near(a, b))
    ensures w in ws && w.message == a.msg == b.msg && a.loc in w.locations && b.loc in w.locations
    ensures w.start <= a.start && a.end <= w.end && w.start <= b.start && b.end <= w.end
  {
    hide Connected, Describes, Sound, WindowLeq, Near;
    assert Covered(ws, segs, a);
    var all := SetOf(segs);
    w :| w in ws && Describes(w, segs, Incident(all, a));
    ConnectedRefl(all, a);
    if a != b {
      ConnectedStep(all, a, a, b);
    }
    Member(w, segs, Incident(all, a), a);
    Member(w, segs, Incident(all, a), b);
  }

  lemma SegmentInside(w: FailureWindow, x: Segment, ts: int)
    requires w.message == x.msg && x.loc in w.locations && w.start <= x.start && x.end <= w.end
    requires x.start <= ts <= x.end
    ensures Inside(w, x.loc, ts, x.msg)
  {
  }

  /** Every failing sample lies in a segment of its location with its message. */
  lemma FailureInSegment(rollups: Hours, hours: seq<int>, live: bool, now: int, samples: AllSamples,
                         segs: seq<Segment>, ws: seq<FailureWindow>, loc: string, ts: int, msg: string)
      returns (x: Segment)
    requires AllStoredFrom(rollups, hours, samples) && Derived(ws, rollups, live, now, hours, segs)
    requires (forall h :: h in rollups ==> h % 3600 == 0) && FailsAt(samples, hours, loc, ts, msg)
    ensures x in segs && x.loc == loc && x.msg == msg && x.start <= ts <= x.end
  {
    hide AreIncidents, Stitch, Finish, OfLocation, Episodes, FailsIn, WellFormed, StoredFrom;
    StreamInOrder(rollups, hours, loc, samples[loc]);
    var k := FailureInEpisode(loc, Stream(samples[loc], hours), ts, msg);
    SegmentIsEpisode(rollups, hours, loc, samples[loc], live, now, k);
    x := OfLocation(segs, loc)[k];
    assert x in OfLocation(segs, loc);
    OfLocationIn(segs, loc, x);
  }

  lemma FailureInIncident(rollups: Hours, hours: seq<int>, live: bool, now: int, samples: AllSamples,
                          segs: seq<Segment>, ws: seq<FailureWindow>, loc: string, ts: int, msg: string)
      returns (w: FailureWindow)
    requires AllStoredFrom(rollups, hours, samples) && Derived(ws, rollups, live, now, hours, segs)
    requires (forall h :: h in rollups ==> h % 3600 == 0) && FailsAt(samples, hours, loc, ts, msg)
    ensures w in ws && Inside(w, loc, ts, msg)
  {
    hide AreIncidents, AllStoredFrom, FailsAt, FromRollups, SortedKeys, WellFormed;
    var x := FailureInSegment(rollups, hours, live, now, samples, segs, ws, loc, ts, msg);
    w := OneIncident(ws, segs, x, x);
  }

  lemma SegmentFails(rollups: Hours, hours: seq<int>, live: bool, now: int, samples: AllSamples, segs: seq<Segment>,
                     x: Segment)
    requires AllStoredFrom(rollups, hours, samples) && SortedKeys(hours, rollups)
    requires FromRollups(segs, rollups, hours, live, now) && x in segs
    ensures FailsAt(samples, hours, x.loc, x.start, x.msg) && FailsAt(samples, hours, x.loc, x.end, x.msg)
  {
    hide Stitch, Finish, OfLocation, Episodes, FailsIn, StoredFrom;
    KnownLocation(rollups, hours, live, now, samples, segs, x);
    HoursThere(rollups, hours, samples, x.loc);
    InOwnLocation(segs, x);
    var own := OfLocation(segs, x.loc);
    var k :| 0 <= k < |own| && own[k] == x;
    SegmentIsEpisode(rollups, hours, x.loc, samples[x.loc], live, now, k);
    EpisodeEnds(x.loc, Stream(samples[x.loc], hours), k);
  }

  lemma DescribedParts(w: FailureWindow, segs: seq<Segment>, c: set<Segment>) returns (x: Segment, y: Segment)
    requires Describes(w, segs, c)
    ensures x in c && x.start == w.start && y in c && y.end == w.end
    ensures forall loc :: loc in w.locations ==> exists z :: z in c && z.loc == loc
  {
    hide CountIn;
    x :| x in c && x.start == w.start;
    y :| y in c && y.end == w.end;
  }

  lemma SoundAt(ws: seq<FailureWindow>, segs: seq<Segment>, w: FailureWindow) returns (c: set<Segment>)
    requires AreIncidents(ws, segs) && w in ws
    ensures Describes(w, segs, c) && forall x :: x in c ==> x in segs
  {
    hide Describes, Connected, Covered, WindowLeq;
    assert Sound(ws, segs);
    var a :| a in segs && Describes(w, segs, Incident(SetOf(segs), a));
    c := Incident(SetOf(segs), a);
  }

  /** An incident begins and ends with failing samples of its message, and holds one of each of its locations. */
  lemma IncidentHolds(rollups: Hours, hours: seq<int>, live: bool, now: int, samples: AllSamples, segs: seq<Segment>,
                      ws: seq<FailureWindow>, w: FailureWindow)
    requires AllStoredFrom(rollups, hours, samples) && Derived(ws, rollups, live, now, hours, segs) && w in ws
    ensures exists loc :: loc in w.locations && FailsAt(samples, hours, loc, w.start, w.message)
    ensures exists loc :: loc in w.locations && FailsAt(samples, hours, loc, w.end, w.message)
    ensures forall loc :: loc in w.locations ==>
              exists ts :: w.start <= ts <= w.end && FailsAt(samples, hours, loc, ts, w.message)
  {
    hide AllStoredFrom, AreIncidents, FromRollups, SortedKeys, Describes, FailsAt, WellFormed;
    var c := SoundAt(ws, segs, w);
    var x, y := DescribedParts(w, segs, c);
    forall z | z in c
      ensures FailsAt(samples, hours, z.loc, z.start, w.message) && FailsAt(samples, hours, z.loc, z.end, w.message)
      ensures z.loc in w.locations && w.start <= z.start <= w.end
    {
      MemberFails(rollups, hours, live, now, samples, segs, ws, w, c, z);
    }
    assert FailsAt(samples, hours, x.loc, w.start, w.message) && FailsAt(samples, hours, y.loc, w.end, w.message);
    forall loc | loc in w.locations
      ensures exists ts :: w.start <= ts <= w.end && FailsAt(samples, hours, loc, ts, w.message)
    {
      var z: Segment :| z in c && z.loc == loc;
      assert FailsAt(samples, hours, loc, z.start, w.message);
    }
  }

  lemma MemberFails(rollups: Hours, hours: seq<int>, live: bool, now: int, samples: AllSamples, segs: seq<Segment>,
                    ws: seq<FailureWindow>, w: FailureWindow, c: set<Segment>, z: Segment)
    requires AllStoredFrom(rollups, hours, samples) && Derived(ws, rollups, live, now, hours, segs)
    requires Describes(w, segs, c) && z in c && z in segs
    ensures FailsAt(samples, hours, z.loc, z.start, w.message) && FailsAt(samples, hours, z.loc, z.end, w.message)
    ensures z.loc in w.locations && w.start <= z.start <= w.end
  {
    hide AllStoredFrom, AreIncidents, FromRollups, SortedKeys, FailsAt, Describes;
    SegmentFails(rollups, hours, live, now, samples, segs, z);
    Member(w, segs, c, z);
    assert WellFormed(segs) && z.start <= z.end;
  }

  /**
   * Where the incidents lie: every failing sample is inside one with its
   * message, its location among its locations; and every incident begins and
   * ends with a failing sample of one of its locations, and holds one of each.
   */
  lemma IncidentsAreWhereChecksFail(rollups: Hours, hours: seq<int>, live: bool, now: int, samples: AllSamples,
                                    ws: seq<FailureWindow>)
    requires SortedKeys(hours, rollups) && AllStoredFrom(rollups, hours, samples)
    requires IncidentsOf(ws, rollups, live, now) && forall h :: h in rollups ==> h % 3600 == 0
    ensures forall loc, ts, msg :: FailsAt(samples, hours, loc, ts, msg) ==>
              exists w :: w in ws && Inside(w, loc, ts, msg)
    ensures forall w :: w in ws ==>
              && (exists loc :: loc in w.locations && FailsAt(samples, hours, loc, w.start, w.message))
              && (exists loc :: loc in w.locations && FailsAt(samples, hours, loc, w.end, w.message))
    ensures forall w, loc :: w in ws && loc in w.locations ==>
              exists ts :: w.start <= ts <= w.end && FailsAt(samples, hours, loc, ts, w.message)
  {
    hide AllStoredFrom, Derived, SortedKeys, Inside, FailsAt;
    var h, segs :| Derived(ws, rollups, live, now, h, segs);
    assert SortedKeys(h, rollups) by { hide *; DerivedKeys(ws, rollups, live, now, h, segs); }
    SameHours(rollups, hours, h);
    forall loc, ts, msg | FailsAt(samples, hours, loc, ts, msg) ensures exists w :: w in ws && Inside(w, loc, ts, msg) {
      var w := FailureInIncident(rollups, hours, live, now, samples, segs, ws, loc, ts, msg);
    }
    forall w | w in ws
      ensures exists loc :: loc in w.locations && FailsAt(samples, hours, loc, w.start, w.message)
      ensures exists loc :: loc in w.locations && FailsAt(samples, hours, loc, w.end, w.message)
      ensures forall loc :: loc in w.locations ==>
                exists ts :: w.start <= ts <= w.end && FailsAt(samples, hours, loc, ts, w.message)
    {
      IncidentHolds(rollups, hours, live, now, samples, segs, ws, w);
    }
  }

  lemma DerivedKeys(ws: seq<FailureWindow>, rollups: Hours, live: bool, now: int, hours: seq<int>, segs: seq<Segment>)
    requires Derived(ws, rollups, live, now, hours, segs)
    ensures SortedKeys(hours, rollups)
  {
  }

  // --------------------------------------------------- what belongs together

  /**
   * Failing samples of one message, at whatever locations, that lie no more
   * than 300 seconds apart belong to one incident.
   */
  lemma NearFailuresShareAnIncident(rollups: Hours, hours: seq<int>, live: bool, now: int, samples: AllSamples,
                                    ws: seq<FailureWindow>, a: string, t: int, b: string, u: int, msg: string)
    requires SortedKeys(hours, rollups) && AllStoredFrom(rollups, hours, samples)
    requires IncidentsOf(ws, rollups, live, now) && forall h :: h in rollups ==> h % 3600 == 0
    requires FailsAt(samples, hours, a, t, msg) && FailsAt(samples, hours, b, u, msg) && t <= u <= t + 300
    ensures exists w :: w in ws && Inside(w, a, t, msg) && Inside(w, b, u, msg)
  {
    hide AllStoredFrom, Derived, SortedKeys, FailsAt, AreIncidents, Inside;
    var h, segs :| Derived(ws, rollups, live, now, h, segs);
    assert SortedKeys(h, rollups) by { hide *; DerivedKeys(ws, rollups, live, now, h, segs); }
    SameHours(rollups, hours, h);
    var x := FailureInSegment(rollups, hours, live, now, samples, segs, ws, a, t, msg);
    var y := FailureInSegment(rollups, hours, live, now, samples, segs, ws, b, u, msg);
    assert AreIncidents(ws, segs) by { hide *; DerivedIncidents(ws, rollups, live, now, h, segs); }
    var w := OneIncident(ws, segs, x, y);
    SegmentInside(w, x, t);
    SegmentInside(w, y, u);
  }

  lemma DerivedIncidents(ws: seq<FailureWindow>, rollups: Hours, live: bool, now: int, hours: seq<int>,
                         segs: seq<Segment>)
    requires Derived(ws, rollups, live, now, hours, segs)
    ensures AreIncidents(ws, segs) && WellFormed(segs)
  {
  }

  /** The second segment begins more than 300 seconds after the first ends. */
  predicate Past(a: Segment, b: Segment) {
    b.start > a.end + 300
  }

  /** All segments of an incident lie on one side of a segment that none of them is near. */
  lemma OneSide(all: set<Segment>, a: Segment, z: Segment, x: Segment)
    requires (forall y :: y in all ==> y.start <= y.end) && z in all && a in all && x in Incident(all, a)
    requires forall y :: y in Incident(all, a) ==> y.msg == z.msg && !Near(y, z)
    ensures Past(x, z) <==> Past(a, z)
  {
    hide Connected;
    ConnectedRefl(all, a);
    var c := set y | y in Incident(all, a) && (Past(y, z) <==> Past(a, z));
    forall u, v | u in c && v in all && Near(u, v) ensures v in c {
      ConnectedStep(all, a, u, v);
      assert v in Incident(all, a);
    }
    assert x in c by { ReachedFrom(all, c, a, x); }
  }

  lemma ReachedFrom(all: set<Segment>, c: set<Segment>, a: Segment, x: Segment)
    requires a in c && Connected(all, a, x)
    requires forall u, v :: u in c && v in all && Near(u, v) ==> v in c
    ensures x in c
  {
    hide Near;
    var p :| IsPath(all, p) && p[0] == a && p[|p| - 1] == x;
    PathStays(all, c, p, |p| - 1);
  }

  /** Each segment of one incident lies on the same side of each of another. */
  lemma SameSide(all: set<Segment>, a: Segment, b: Segment, x: Segment, z: Segment)
    requires (forall y :: y in all ==> y.start <= y.end) && a in all && b in all && b !in Incident(all, a)
    requires x in Incident(all, a) && z in Incident(all, b)
    requires forall y :: y in Incident(all, a) + Incident(all, b) ==> y.msg == a.msg
    ensures Past(x, z) <==> Past(a, b)
    ensures Past(x, z) || Past(z, x)
  {
    hide Connected, Incident, Near, Past;
    forall u, v | u in Incident(all, a) && v in Incident(all, b) ensures !Near(u, v) && !Near(v, u) {
      NotNear(all, a, b, u, v);
    }
    assert a in Incident(all, a) && z in all by { hide *; OwnIncident(all, a); InAll(all, b, z); }
    OneSide(all, a, z, x);
    OneSide(all, b, a, z);
    OwnIncident(all, b);
    Sides(a, z);
    Sides(a, b);
    InAll(all, a, x);
    Sides(x, z);
  }

  lemma OwnIncident(all: set<Segment>, a: Segment)
    requires a in all
    ensures a in Incident(all, a)
  {
    hide Connected;
    ConnectedRefl(all, a);
  }

  lemma InAll(all: set<Segment>, a: Segment, x: Segment)
    requires x in Incident(all, a)
    ensures x in all
  {
  }

  /** Segments of a message that are not near one another lie one past the other. */
  lemma Sides(a: Segment, b: Segment)
    requires a.start <= a.end && b.start <= b.end && a.msg == b.msg && !Near(a, b)
    ensures Past(a, b) <==> !Past(b, a)
  {
  }

  lemma NotNear(all: set<Segment>, a: Segment, b: Segment, x: Segment, z: Segment)
    requires b in all && b !in Incident(all, a) && x in Incident(all, a) && z in Incident(all, b)
    ensures !Near(x, z) && !Near(z, x)
  {
    hide Connected;
    if Near(x, z) || Near(z, x) {
      assert Near(x, z);
      ConnectedStep(all, a, x, z);
      ConnectedReverse(all, b, z);
      ConnectedTrans(all, a, z, b);
    }
  }

  lemma Separated(segs: seq<Segment>, a: Segment, b: Segment, v: FailureWindow, w: FailureWindow)
    requires WellFormed(segs) && a in segs && b in segs && v.message == w.message
    requires Describes(v, segs, Incident(SetOf(segs), a)) && Describes(w, segs, Incident(SetOf(segs), b))
    requires b !in Incident(SetOf(segs), a)
    ensures v.start > w.end + 300 || w.start > v.end + 300
  {
    hide Describes, Incident, Near, Past;
    var all := SetOf(segs);
    var first, last := DescribedParts(v, segs, Incident(all, a));
    var from, to := DescribedParts(w, segs, Incident(all, b));
    OwnIncident(all, a);
    forall y | y in Incident(all, a) + Incident(all, b) ensures y.msg == v.message {
      if y in Incident(all, a) {
        Member(v, segs, Incident(all, a), y);
      } else {
        Member(w, segs, Incident(all, b), y);
      }
    }
    assert a in Incident(all, a) + Incident(all, b);
    SameSide(all, a, b, last, from);
    SameSide(all, a, b, first, to);
    assert Past(last, from) || Past(to, first);
    SidesEnd(first, last, from, to);
  }

  lemma SidesEnd(first: Segment, last: Segment, from: Segment, to: Segment)
    requires Past(last, from) || Past(to, first)
    ensures first.start > to.end + 300 || from.start > last.end + 300
  {
  }

  lemma SameDescribed(segs: seq<Segment>, c: set<Segment>, v: FailureWindow, w: FailureWindow)
    requires Describes(v, segs, c) && Describes(w, segs, c)
    ensures v.start == w.start && v.message == w.message
  {
    hide CountIn;
  }

  /** Two incidents of one message lie more than 300 seconds apart. */
  lemma IncidentsLieApart(rollups: Hours, live: bool, now: int, ws: seq<FailureWindow>, i: nat, j: nat)
    requires IncidentsOf(ws, rollups, live, now) && i < j < |ws| && ws[i].message == ws[j].message
    ensures ws[i].start > ws[j].end + 300 || ws[j].start > ws[i].end + 300
  {
    hide Derived, AreIncidents, Incident, Describes, WellFormed;
    var h, segs :| Derived(ws, rollups, live, now, h, segs);
    DerivedIncidents(ws, rollups, live, now, h, segs);
    var all := SetOf(segs);
    var a := SoundFor(ws, segs, ws[i]);
    var b := SoundFor(ws, segs, ws[j]);
    if b in Incident(all, a) {
      assert Incident(all, a) == Incident(all, b) by { hide *; SameIncidentOf(all, a, b); }
      SameDescribed(segs, Incident(all, a), ws[i], ws[j]);
      OnceListed(ws, segs, i, j);
      assert false;
    }
    Separated(segs, a, b, ws[i], ws[j]);
  }

  lemma SameIncidentOf(all: set<Segment>, a: Segment, b: Segment)
    requires b in Incident(all, a)
    ensures Incident(all, a) == Incident(all, b)
  {
    hide Connected;
    SameIncident(all, a, b);
  }

  lemma SoundFor(ws: seq<FailureWindow>, segs: seq<Segment>, w: FailureWindow) returns (a: Segment)
    requires AreIncidents(ws, segs) && w in ws
    ensures a in segs && Describes(w, segs, Incident(SetOf(segs), a))
  {
    hide Describes, Incident, Covered, WindowLeq;
    assert Sound(ws, segs);
    a :| a in segs && Describes(w, segs, Incident(SetOf(segs), a));
  }

  lemma OnceListed(ws: seq<FailureWindow>, segs: seq<Segment>, i: nat, j: nat)
    requires AreIncidents(ws, segs) && i < j < |ws|
    ensures ws[i].start != ws[j].start || ws[i].message != ws[j].message
  {
    hide Sound, Covered;
    assert WindowLeq(ws[i], ws[j]) && !WindowLeq(ws[j], ws[i]);
  }

  // -------------------------------------------------------------- their order

  /** `a` is a proper prefix of `b`, or the first character in which they differ is the smaller one. */
  ghost predicate ComesBefore(a: string, b: string) {
    exists k :: 0 <= k <= |a| && k < |b| && a[..k] == b[..k] && (k == |a| || a[k] < b[k])
  }

  lemma {:induction false} StrictlyLess(a: string, b: string)
    requires StringLeq(a, b) && !StringLeq(b, a)
    ensures ComesBefore(a, b)
  {
    if a == [] || a[0] < b[0] {
      assert a[..0] == b[..0];
    } else {
      StrictlyLess(a[1..], b[1..]);
      var x, y := a[1..], b[1..];
      var k :| 0 <= k <= |x| && k < |y| && x[..k] == y[..k] && (k == |x| || x[k] < y[k]);
      assert a[..k + 1] == [a[0]] + a[1..][..k];
      assert b[..k + 1] == [b[0]] + b[1..][..k];
    }
  }

  /** The incidents are listed by when they began, the newest first, and those that began together by message. */
  lemma NewestFirst(rollups: Hours, live: bool, now: int, ws: seq<FailureWindow>, i: nat, j: nat)
    requires IncidentsOf(ws, rollups, live, now) && i < j < |ws|
    ensures ws[i].start > ws[j].start || (ws[i].start == ws[j].start && ComesBefore(ws[i].message, ws[j].message))
  {
    hide SortedKeys, FromRollups, WellFormed, Sound, Covered, StringLeq;
    var h, segs :| Derived(ws, rollups, live, now, h, segs);
    assert WindowLeq(ws[i], ws[j]) && !WindowLeq(ws[j], ws[i]);
    if ws[i].start == ws[j].start {
      StrictlyLess(ws[i].message, ws[j].message);
    }
  }
}
