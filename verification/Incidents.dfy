/**
 * Merging locations' failure segments into incidents: mergeSegments and the
 * end of FailureWindows in dashboard/internal/store/store.go.
 */
module Incidents {
  import opened Base
  import opened Sorting
  import opened Stitching
  import HourRollup
  import Sums

  /** mergeGapSeconds. */
  const MERGE_GAP := 300

  /** An incident. Locations, a sorted list in the source, is kept as a set. */
  datatype FailureWindow = FailureWindow(locations: set<string>, message: string, start: int, end: int, count: nat,
      ongoing: bool)

  // ------------------------------------------------------- what an incident is

  /** The two segments overlap in time, give or take the merge gap, and share their message. */
  predicate Near(a: Segment, b: Segment) {
    a.msg == b.msg && a.start <= b.end + MERGE_GAP && b.start <= a.end + MERGE_GAP
  }

  ghost predicate IsPath(all: set<Segment>, p: seq<Segment>) {
    && p != []
    && (forall i :: 0 <= i < |p| ==> p[i] in all)
    && (forall i :: 0 < i < |p| ==> Near(p[i - 1], p[i]))
  }

  ghost predicate Connected(all: set<Segment>, a: Segment, b: Segment) {
    exists p :: IsPath(all, p) && p[0] == a && p[|p| - 1] == b
  }

  /** The segments connected to `a`. */
  ghost function Incident(all: set<Segment>, a: Segment): set<Segment> {
    set b | b in all && Connected(all, a, b)
  }

  ghost function SetOf(segs: seq<Segment>): set<Segment> {
    set x | x in segs
  }

  /** The number of failing samples in those of the segments that are in `c`. */
  ghost function CountIn(segs: seq<Segment>, c: set<Segment>): nat {
    if segs == [] then 0
    else CountIn(segs[..|segs| - 1], c) + if segs[|segs| - 1] in c then segs[|segs| - 1].count else 0
  }

  /** `w` sums up the segments in `c`, and no others. */
  ghost predicate Describes(w: FailureWindow, segs: seq<Segment>, c: set<Segment>) {
    && (forall x :: x in c ==> x.msg == w.message && w.start <= x.start && x.end <= w.end)
    && (exists x :: x in c && x.start == w.start)
    && (exists x :: x in c && x.end == w.end)
    && w.count == CountIn(segs, c)
    && (w.ongoing <==> exists x :: x in c && x.ongoing)
    && w.locations == set x | x in c :: x.loc
  }

  /** Every window describes an incident. */
  ghost predicate Sound(ws: seq<FailureWindow>, segs: seq<Segment>) {
    forall w :: w in ws ==> exists a :: a in segs && Describes(w, segs, Incident(SetOf(segs), a))
  }

  /** Some window describes the incident of `a`. */
  ghost predicate Covered(ws: seq<FailureWindow>, segs: seq<Segment>, a: Segment) {
    exists w :: w in ws && Describes(w, segs, Incident(SetOf(segs), a))
  }

  /** The order windows are returned in: newest first, then by message. */
  predicate WindowLeq(a: FailureWindow, b: FailureWindow) {
    a.start > b.start || (a.start == b.start && StringLeq(a.message, b.message))
  }

  /** The list of the incidents of the segments, each of them once, in order. */
  ghost predicate AreIncidents(ws: seq<FailureWindow>, segs: seq<Segment>) {
    && Sound(ws, segs)
    && (forall a :: a in segs ==> Covered(ws, segs, a))
    && (forall i, j :: 0 <= i < j < |ws| ==> WindowLeq(ws[i], ws[j]) && !WindowLeq(ws[j], ws[i]))
  }

  // ------------------------------------------------------------- connectedness

  lemma ConnectedRefl(all: set<Segment>, a: Segment)
    requires a in all
    ensures Connected(all, a, a)
  {
    assert IsPath(all, [a]);
  }

  lemma ConnectedStep(all: set<Segment>, a: Segment, b: Segment, c: Segment)
    requires Connected(all, a, b) && c in all && Near(b, c)
    ensures Connected(all, a, c)
  {
    var p :| IsPath(all, p) && p[0] == a && p[|p| - 1] == b;
    var q := p + [c];
    assert IsPath(all, q) && q[0] == a && q[|q| - 1] == c;
  }

  lemma ConnectedReverse(all: set<Segment>, a: Segment, b: Segment)
    requires Connected(all, a, b)
    ensures Connected(all, b, a)
  {
    var p :| IsPath(all, p) && p[0] == a && p[|p| - 1] == b;
    var q := seq(|p|, i requires 0 <= i < |p| => p[|p| - 1 - i]);
    forall i | 0 < i < |q| ensures Near(q[i - 1], q[i]) {
      assert Near(p[|p| - 1 - i], p[|p| - i]);
    }
    assert IsPath(all, q) && q[0] == b && q[|q| - 1] == a;
  }

  lemma ConnectedTrans(all: set<Segment>, a: Segment, b: Segment, c: Segment)
    requires Connected(all, a, b) && Connected(all, b, c)
    ensures Connected(all, a, c)
  {
    var p :| IsPath(all, p) && p[0] == a && p[|p| - 1] == b;
    var q :| IsPath(all, q) && q[0] == b && q[|q| - 1] == c;
    var r := p + q[1..];
    forall i | 0 < i < |r| ensures Near(r[i - 1], r[i]) {
      if i >= |p| {
        assert r[i] == q[i - |p| + 1] && r[i - 1] == q[i - |p|];
      }
    }
    assert IsPath(all, r) && r[0] == a && r[|r| - 1] == c;
  }

  lemma SameIncident(all: set<Segment>, a: Segment, b: Segment)
    requires Connected(all, a, b)
    ensures Incident(all, a) == Incident(all, b)
  {
    ConnectedReverse(all, a, b);
    forall x | x in all ensures Connected(all, a, x) <==> Connected(all, b, x) {
      if Connected(all, a, x) {
        ConnectedTrans(all, b, a, x);
      }
      if Connected(all, b, x) {
        ConnectedTrans(all, a, b, x);
      }
    }
  }

  /** A path cannot leave a set that no member has a neighbour outside of. */
  lemma {:induction false} PathStays(all: set<Segment>, c: set<Segment>, p: seq<Segment>, i: nat)
    requires IsPath(all, p) && i < |p| && p[0] in c
    requires forall x, y :: x in c && y in all && Near(x, y) ==> y in c
    ensures p[i] in c
  {
    if i > 0 {
      PathStays(all, c, p, i - 1);
      assert Near(p[i - 1], p[i]);
    }
  }

  /** A connected set with no neighbours outside is an incident. */
  lemma ClosedIsIncident(all: set<Segment>, c: set<Segment>, a: Segment)
    requires a in c && c <= all
    requires forall x, y :: x in c && y in all && Near(x, y) ==> y in c
    requires forall x :: x in c ==> Connected(all, a, x)
    ensures forall x :: x in c ==> Incident(all, x) == c
  {
    forall y | y in Incident(all, a) ensures y in c {
      var p :| IsPath(all, p) && p[0] == a && p[|p| - 1] == y;
      PathStays(all, c, p, |p| - 1);
    }
    assert Incident(all, a) == c;
    forall x | x in c ensures Incident(all, x) == c {
      SameIncident(all, a, x);
    }
  }

  // ------------------------------------------------------ blocks of a sorted list

  ghost predicate ByStart(g: seq<Segment>) {
    && (forall i :: 0 <= i < |g| ==> g[i].start <= g[i].end)
    && (forall i, j :: 0 <= i < j < |g| ==> g[i].start <= g[j].start)
  }

  /** Everything before index k ended more than the gap before anything from k on starts. */
  ghost predicate Cut(g: seq<Segment>, k: nat) {
    forall i, j :: 0 <= i < k <= j < |g| ==> g[i].end + MERGE_GAP < g[j].start
  }

  /** Between two cuts, each segment starts within reach of an earlier one. */
  ghost predicate Chained(g: seq<Segment>, lo: nat, hi: nat)
    requires lo <= hi <= |g|
  {
    forall k :: lo < k < hi ==> exists m :: lo <= m < k && g[k].start <= g[m].end + MERGE_GAP
  }

  ghost function Members(g: seq<Segment>, lo: nat, hi: nat): set<Segment>
    requires lo <= hi <= |g|
  {
    set x | x in g[lo..hi]
  }

  lemma {:induction false} ChainConnects(all: set<Segment>, g: seq<Segment>, lo: nat, hi: nat, k: nat)
    requires lo <= k < hi <= |g| && ByStart(g) && Chained(g, lo, hi)
    requires forall i :: 0 <= i < |g| ==> g[i] in all && g[i].msg == g[lo].msg
    ensures Connected(all, g[lo], g[k])
    decreases k
  {
    if k == lo {
      ConnectedRefl(all, g[lo]);
    } else {
      var m :| lo <= m < k && g[k].start <= g[m].end + MERGE_GAP;
      ChainConnects(all, g, lo, hi, m);
      ConnectedStep(all, g[lo], g[m], g[k]);
    }
  }

  /** A neighbour of a block's member is in the block. */
  lemma BlockClosed(g: seq<Segment>, lo: nat, hi: nat, i: nat, j: nat)
    requires lo <= i < hi <= |g| && j < |g| && ByStart(g) && Cut(g, lo) && Cut(g, hi)
    requires Near(g[i], g[j])
    ensures lo <= j < hi
  {
  }

  /** A block between two cuts holds exactly one incident. */
  lemma BlockIsIncident(all: set<Segment>, g: seq<Segment>, lo: nat, hi: nat)
    requires lo < hi <= |g| && ByStart(g) && Chained(g, lo, hi) && Cut(g, lo) && Cut(g, hi)
    requires forall x :: x in g <==> x in all && x.msg == g[lo].msg
    ensures forall x :: x in Members(g, lo, hi) ==> Incident(all, x) == Members(g, lo, hi)
  {
    hide Cut, ByStart, Chained, Connected, Incident;
    var c := Members(g, lo, hi);
    forall i | 0 <= i < |g| ensures g[i] in all && g[i].msg == g[lo].msg {
      assert g[i] in g;
    }
    forall x, y | x in c && y in all && Near(x, y) ensures y in c {
      var i :| lo <= i < hi && g[i] == x;
      assert y.msg == g[lo].msg;
      assert y in g;
      var j :| 0 <= j < |g| && g[j] == y;
      BlockClosed(g, lo, hi, i, j);
      assert g[lo..hi][j - lo] == y;
    }
    forall x | x in c ensures Connected(all, g[lo], x) {
      var i :| lo <= i < hi && g[i] == x;
      ChainConnects(all, g, lo, hi, i);
    }
    assert g[lo..hi][0] == g[lo];
    ClosedIsIncident(all, c, g[lo]);
  }

  // -------------------------------------------------------------------- counts

  lemma {:induction false} CountInAppend(a: seq<Segment>, b: seq<Segment>, c: set<Segment>)
    ensures CountIn(a + b, c) == CountIn(a, c) + CountIn(b, c)
    decreases |b|
  {
    if b == [] {
      assert a + b == a;
    } else {
      assert (a + b)[..|a + b| - 1] == a + b[..|b| - 1];
      CountInAppend(a, b[..|b| - 1], c);
    }
  }

  /** The order of the segments does not matter. */
  lemma {:induction false} CountInPermuted(a: seq<Segment>, b: seq<Segment>, c: set<Segment>)
    requires multiset(a) == multiset(b)
    ensures CountIn(a, c) == CountIn(b, c)
    decreases |a|
  {
    hide CountIn;
    assert |a| == |multiset(a)| == |multiset(b)| == |b|;
    if a == [] {
      assert b == [];
    } else {
      var n := |a| - 1;
      TakeOut(a, n);
      assert a[..n] + a[n + 1..] == a[..n];
      var k := FindIn(b, a[n]);
      TakeOut(b, k);
      CountInPermuted(a[..n], b[..k] + b[k + 1..], c);
      CountInPick(a, n, c);
      CountInPick(b, k, c);
    }
  }

  lemma CountInPick(a: seq<Segment>, k: nat, c: set<Segment>)
    requires k < |a|
    ensures CountIn(a, c) == CountIn(a[..k] + a[k + 1..], c) + CountIn([a[k]], c)
  {
    hide CountIn;
    var l, r := a[..k], a[k + 1..];
    assert a == l + [a[k]] + r;
    CountInAppend(l + [a[k]], r, c);
    CountInAppend(l, [a[k]], c);
    CountInAppend(l, r, c);
  }

  lemma {:induction false} CountInNone(a: seq<Segment>, c: set<Segment>)
    requires forall i :: 0 <= i < |a| ==> a[i] !in c
    ensures CountIn(a, c) == 0
    decreases |a|
  {
    if a != [] {
      CountInNone(a[..|a| - 1], c);
    }
  }

  lemma {:induction false} CountInAll(a: seq<Segment>, c: set<Segment>)
    requires forall i :: 0 <= i < |a| ==> a[i] in c
    ensures CountIn(a, c) == CountOf(a)
    decreases |a|
  {
    if a != [] {
      CountInAll(a[..|a| - 1], c);
    }
  }

  function OfMessage(segs: seq<Segment>, msg: string): seq<Segment> {
    if segs == [] then []
    else OfMessage(segs[..|segs| - 1], msg) + if segs[|segs| - 1].msg == msg then [segs[|segs| - 1]] else []
  }

  lemma {:induction false} OfMessageFacts(segs: seq<Segment>, msg: string, c: set<Segment>)
    requires forall x :: x in c ==> x.msg == msg
    ensures forall x :: x in OfMessage(segs, msg) <==> x in segs && x.msg == msg
    ensures CountIn(segs, c) == CountIn(OfMessage(segs, msg), c)
    decreases |segs|
  {
    if segs != [] {
      var p, x := segs[..|segs| - 1], segs[|segs| - 1];
      assert segs == p + [x];
      OfMessageFacts(p, msg, c);
      if x.msg == msg {
        CountInAppend(OfMessage(p, msg), [x], c);
        assert CountIn([x], c) == if x in c then x.count else 0;
      } else {
        assert x !in c && OfMessage(segs, msg) == OfMessage(p, msg);
      }
    }
  }

  lemma OfMessageCount(segs: seq<Segment>, msg: string, c: set<Segment>)
    requires forall x :: x in c ==> x.msg == msg
    ensures CountIn(segs, c) == CountIn(OfMessage(segs, msg), c)
  {
    hide OfMessage, CountIn;
    OfMessageFacts(segs, msg, c);
  }

  lemma CountInStretch(g: seq<Segment>, lo: nat, hi: nat, c: set<Segment>)
    requires lo <= hi <= |g| && forall i :: 0 <= i < |g| ==> (g[i] in c <==> lo <= i < hi)
    ensures CountIn(g, c) == CountOf(g[lo..hi])
  {
    hide CountIn, CountOf;
    assert g == g[..lo] + (g[lo..hi] + g[hi..]);
    CountInAppend(g[..lo], g[lo..hi] + g[hi..], c);
    CountInAppend(g[lo..hi], g[hi..], c);
    CountInNone(g[..lo], c);
    CountInNone(g[hi..], c);
    CountInAll(g[lo..hi], c);
  }

  /** A block's members are counted once each, wherever the segments are listed. */
  lemma BlockCount(segs: seq<Segment>, g: seq<Segment>, lo: nat, hi: nat)
    requires lo < hi <= |g| && ByStart(g) && Cut(g, lo) && Cut(g, hi)
    requires multiset(g) == multiset(OfMessage(segs, g[lo].msg))
    requires forall i :: 0 <= i < |g| ==> g[i].msg == g[lo].msg
    ensures CountIn(segs, Members(g, lo, hi)) == CountOf(g[lo..hi])
  {
    hide CountIn, CountOf, OfMessage, Members, ByStart, Cut;
    var c := Members(g, lo, hi);
    MembersInside(g, lo, hi);
    OfMessageCount(segs, g[lo].msg, c);
    CountInPermuted(g, OfMessage(segs, g[lo].msg), c);
    CountInStretch(g, lo, hi, c);
  }

  lemma MembersInside(g: seq<Segment>, lo: nat, hi: nat)
    requires lo < hi <= |g| && ByStart(g) && Cut(g, lo) && Cut(g, hi)
    ensures forall i :: 0 <= i < |g| ==> (g[i] in Members(g, lo, hi) <==> lo <= i < hi)
    ensures forall x :: x in Members(g, lo, hi) ==> exists i :: lo <= i < hi && g[i] == x
  {
    forall i | 0 <= i < |g| ensures g[i] in Members(g, lo, hi) <==> lo <= i < hi {
      if lo <= i < hi {
        assert g[lo..hi][i - lo] == g[i];
      }
    }
  }

  // ------------------------------------------------------------------ merging

  predicate StartLeq(a: Segment, b: Segment) {
    a.start <= b.start
  }

  /** What the inner loop knows of the incident it is gathering. */
  ghost predicate Gathering(w: FailureWindow, g: seq<Segment>, lo: nat, hi: nat)
    requires lo < hi <= |g|
  {
    && w.message == g[lo].msg && w.start == g[lo].start
    && (forall k :: lo <= k < hi ==> g[k].end <= w.end)
    && (exists k :: lo <= k < hi && g[k].end == w.end)
    && w.count == CountOf(g[lo..hi])
    && (w.ongoing <==> exists k :: lo <= k < hi && g[k].ongoing)
    && w.locations == set k | lo <= k < hi :: g[k].loc
  }

  function Absorb(w: FailureWindow, x: Segment): FailureWindow {
    w.(end := Max(w.end, x.end), count := w.count + x.count,
       ongoing := w.ongoing || x.ongoing, locations := w.locations + {x.loc})
  }

  lemma GatherNext(w: FailureWindow, g: seq<Segment>, lo: nat, hi: nat)
    requires lo < hi < |g| && Gathering(w, g, lo, hi)
    ensures Gathering(Absorb(w, g[hi]), g, lo, hi + 1)
  {
    var v := Absorb(w, g[hi]);
    assert g[lo..hi + 1][..hi - lo] == g[lo..hi];
    var k :| lo <= k < hi && g[k].end == w.end;
    assert g[if w.end < g[hi].end then hi else k].end == v.end;
    assert v.locations == set k | lo <= k < hi + 1 :: g[k].loc;
    if v.ongoing {
      if g[hi].ongoing {
      } else {
        var o :| lo <= o < hi && g[o].ongoing;
        assert lo <= o < hi + 1 && g[o].ongoing;
      }
    }
  }

  /** What the loop gathers over the indices of a block holds of the block's members. */
  lemma OverMembers(g: seq<Segment>, lo: nat, hi: nat, c: set<Segment>)
    requires lo < hi <= |g|
    requires forall i :: 0 <= i < |g| ==> (g[i] in c <==> lo <= i < hi)
    requires forall x :: x in c ==> exists i :: lo <= i < hi && g[i] == x
    ensures (set x | x in c :: x.loc) == set k | lo <= k < hi :: g[k].loc
    ensures (exists k :: lo <= k < hi && g[k].ongoing) <==> exists x :: x in c && x.ongoing
  {
    var named := set x | x in c :: x.loc;
    var gathered := set k | lo <= k < hi :: g[k].loc;
    forall l | l in named ensures l in gathered {
      var x :| x in c && x.loc == l;
      var i :| lo <= i < hi && g[i] == x;
    }
    forall l | l in gathered ensures l in named {
      var k :| lo <= k < hi && g[k].loc == l;
      assert g[k] in c;
    }
  }

  /** A gathered block describes its members. */
  lemma GatheredDescribes(w: FailureWindow, segs: seq<Segment>, g: seq<Segment>, lo: nat, hi: nat)
    requires lo < hi <= |g| && Gathering(w, g, lo, hi) && ByStart(g) && Cut(g, lo) && Cut(g, hi)
    requires forall i :: 0 <= i < |g| ==> g[i].msg == g[lo].msg
    requires multiset(g) == multiset(OfMessage(segs, g[lo].msg))
    ensures Describes(w, segs, Members(g, lo, hi))
  {
    var c := Members(g, lo, hi);
    BlockCount(segs, g, lo, hi);
    MembersInside(g, lo, hi);
    hide Members, CountIn, CountOf, Cut, OfMessage, ByStart;
    OverMembers(g, lo, hi, c);
    MemberBounds(w, g, lo, hi, c);
  }

  lemma MemberBounds(w: FailureWindow, g: seq<Segment>, lo: nat, hi: nat, c: set<Segment>)
    requires lo < hi <= |g| && Gathering(w, g, lo, hi) && ByStart(g)
    requires forall i :: 0 <= i < |g| ==> g[i].msg == g[lo].msg
    requires forall i :: 0 <= i < |g| ==> (g[i] in c <==> lo <= i < hi)
    requires forall x :: x in c ==> exists i :: lo <= i < hi && g[i] == x
    ensures forall x :: x in c ==> x.msg == w.message && w.start <= x.start && x.end <= w.end
    ensures exists x :: x in c && x.start == w.start
    ensures exists x :: x in c && x.end == w.end
  {
    hide CountOf;
    forall x | x in c ensures x.msg == w.message && w.start <= x.start && x.end <= w.end {
      var i :| lo <= i < hi && g[i] == x;
    }
    assert g[lo] in c && g[lo].start == w.start;
    var k :| lo <= k < hi && g[k].end == w.end;
    assert g[k] in c;
  }

  /** `g` lists the segments with the message, by start. */
  ghost predicate IsGroup(g: seq<Segment>, segs: seq<Segment>, msg: string) {
    && ByStart(g)
    && multiset(g) == multiset(OfMessage(segs, msg))
    && (forall x :: x in g <==> x in segs && x.msg == msg)
  }

  lemma GroupFromSort(g: seq<Segment>, segs: seq<Segment>, msg: string)
    requires forall x :: x in segs ==> x.start <= x.end
    requires SortedBy(g, StartLeq) && multiset(g) == multiset(OfMessage(segs, msg))
    ensures IsGroup(g, segs, msg)
  {
    OfMessageFacts(segs, msg, {});
    var m := OfMessage(segs, msg);
    forall x ensures x in g <==> x in m {
      assert x in g <==> x in multiset(g);
      assert x in m <==> x in multiset(m);
    }
    forall i | 0 <= i < |g| ensures g[i].start <= g[i].end {
      assert g[i] in g;
    }
    forall i, j | 0 <= i < j < |g| ensures g[i].start <= g[j].start {
      assert StartLeq(g[i], g[j]);
    }
  }

  lemma GroupFacts(g: seq<Segment>, segs: seq<Segment>, msg: string)
    requires IsGroup(g, segs, msg)
    ensures ByStart(g) && multiset(g) == multiset(OfMessage(segs, msg))
    ensures forall i :: 0 <= i < |g| ==> g[i].msg == msg && g[i] in segs
    ensures forall x :: x in g <==> x in SetOf(segs) && x.msg == msg
  {
    forall i | 0 <= i < |g| ensures g[i].msg == msg && g[i] in segs {
      assert g[i] in g;
    }
  }

  /** A gathered block is the incident of each of its segments. */
  lemma GatheredIncident(w: FailureWindow, segs: seq<Segment>, msg: string, g: seq<Segment>, lo: nat, hi: nat)
    requires IsGroup(g, segs, msg)
    requires lo < hi <= |g| && Gathering(w, g, lo, hi) && Chained(g, lo, hi) && Cut(g, lo) && Cut(g, hi)
    ensures forall k :: lo <= k < hi ==> Describes(w, segs, Incident(SetOf(segs), g[k]))
    ensures w.message == msg && w.start == g[lo].start
  {
    hide CountIn, CountOf, OfMessage, Incident, Chained, ByStart, Gathering, Describes, Cut, IsGroup, SetOf, Members;
    GroupFacts(g, segs, msg);
    BlockIsIncident(SetOf(segs), g, lo, hi);
    MembersInside(g, lo, hi);
    GatheredDescribes(w, segs, g, lo, hi);
    GatheringMessage(w, g, lo, hi);
  }

  lemma GatheringMessage(w: FailureWindow, g: seq<Segment>, lo: nat, hi: nat)
    requires lo < hi <= |g| && Gathering(w, g, lo, hi)
    ensures w.message == g[lo].msg && w.start == g[lo].start
  {
  }

  function Opening(x: Segment): FailureWindow {
    FailureWindow({x.loc}, x.msg, x.start, x.end, x.count, x.ongoing)
  }

  lemma GatherFirst(g: seq<Segment>, lo: nat)
    requires lo < |g|
    ensures Gathering(Opening(g[lo]), g, lo, lo + 1) && Chained(g, lo, lo + 1)
  {
    assert g[lo..lo + 1] == [g[lo]] && [g[lo]][..0] == [];
    assert g[lo].end == Opening(g[lo]).end;
  }

  lemma ChainNext(w: FailureWindow, g: seq<Segment>, lo: nat, hi: nat)
    requires lo < hi < |g| && Gathering(w, g, lo, hi) && Chained(g, lo, hi)
    requires g[hi].start <= w.end + MERGE_GAP
    ensures Chained(g, lo, hi + 1)
  {
    var m := LastEnd(w, g, lo, hi);
    hide Gathering;
    forall k | lo < k < hi + 1 ensures exists m :: lo <= m < k && g[k].start <= g[m].end + MERGE_GAP {
      if k == hi {
        assert lo <= m < k && g[k].start <= g[m].end + MERGE_GAP;
      }
    }
  }

  /** The member that ends last. */
  lemma LastEnd(w: FailureWindow, g: seq<Segment>, lo: nat, hi: nat) returns (m: nat)
    requires lo < hi <= |g| && Gathering(w, g, lo, hi)
    ensures lo <= m < hi && g[m].end == w.end
  {
    hide CountOf;
    m :| lo <= m < hi && g[m].end == w.end;
  }

  lemma CutNext(w: FailureWindow, g: seq<Segment>, lo: nat, hi: nat)
    requires lo < hi <= |g| && ByStart(g) && Gathering(w, g, lo, hi) && Cut(g, lo)
    requires hi < |g| ==> g[hi].start > w.end + MERGE_GAP
    ensures Cut(g, hi)
  {
    hide CountOf;
    forall i, j | 0 <= i < hi <= j < |g| ensures g[i].end + MERGE_GAP < g[j].start {
      if i >= lo {
        assert g[hi].start <= g[j].start;
      }
    }
  }

  /** The next block's window: everything from `lo` that chains on. */
  method GatherBlock(g: seq<Segment>, lo: nat) returns (win: FailureWindow, hi: nat)
    requires lo < |g| && ByStart(g) && Cut(g, lo)
    ensures lo < hi <= |g| && Gathering(win, g, lo, hi) && Chained(g, lo, hi) && Cut(g, hi)
  {
    hide Gathering, Chained, Cut, ByStart;
    win := Opening(g[lo]);
    hi := lo + 1;
    GatherFirst(g, lo);
    while hi < |g| && g[hi].start <= win.end + MERGE_GAP
      invariant lo < hi <= |g|
      invariant Gathering(win, g, lo, hi) && Chained(g, lo, hi)
    {
      GatherNext(win, g, lo, hi);
      ChainNext(win, g, lo, hi);
      if g[hi].end > win.end {
        win := win.(end := g[hi].end);
      }
      win := win.(count := win.count + g[hi].count, ongoing := win.ongoing || g[hi].ongoing,
                  locations := win.locations + {g[hi].loc});
      hi := hi + 1;
    }
    CutNext(win, g, lo, hi);
  }

  /** The windows found so far are the incidents of the first `i` of the group, oldest first. */
  ghost predicate MergedSoFar(ws: seq<FailureWindow>, segs: seq<Segment>, msg: string, g: seq<Segment>, i: nat)
    requires i <= |g|
  {
    && Sound(ws, segs)
    && (forall k :: 0 <= k < i ==> Covered(ws, segs, g[k]))
    && (forall k :: 0 <= k < |ws| ==> ws[k].message == msg && (i < |g| ==> ws[k].start < g[i].start))
    && (forall k, l :: 0 <= k < l < |ws| ==> ws[k].start < ws[l].start)
  }

  lemma MergeOne(ws: seq<FailureWindow>, win: FailureWindow, segs: seq<Segment>, msg: string, g: seq<Segment>, lo: nat,
      hi: nat)
    requires lo < hi <= |g| && MergedSoFar(ws, segs, msg, g, lo) && IsGroup(g, segs, msg)
    requires Gathering(win, g, lo, hi) && Chained(g, lo, hi) && Cut(g, lo) && Cut(g, hi)
    ensures MergedSoFar(ws + [win], segs, msg, g, hi)
  {
    hide CountIn, CountOf, OfMessage, Incident, Chained, Gathering, Describes, Covered, Sound;
    GatheredIncident(win, segs, msg, g, lo, hi);
    GroupFacts(g, segs, msg);
    assert g[lo] in segs;
    AddWindow(ws, win, segs, g, lo, hi);
    assert hi < |g| ==> win.start < g[hi].start && g[lo].start <= g[hi].start by {
      assert g[lo].start <= g[lo].end;
    }
  }

  /** The incidents with one message, oldest first. */
  method MergeMessage(ghost segs: seq<Segment>, msg: string, g: seq<Segment>) returns (ws: seq<FailureWindow>)
    requires IsGroup(g, segs, msg)
    ensures MergedSoFar(ws, segs, msg, g, |g|)
  {
    hide Gathering, Chained, Covered, Sound, OfMessage;
    NothingMerged(segs, msg, g);
    ws := [];
    var i := 0;
    while i < |g|
      invariant i <= |g| && Cut(g, i)
      invariant MergedSoFar(ws, segs, msg, g, i)
    {
      var win, j := GatherBlock(g, i);
      MergeOne(ws, win, segs, msg, g, i, j);
      ws := ws + [win];
      i := j;
    }
  }

  lemma NothingMerged(segs: seq<Segment>, msg: string, g: seq<Segment>)
    ensures MergedSoFar([], segs, msg, g, 0)
  {
  }

  lemma AddWindow(ws: seq<FailureWindow>, win: FailureWindow, segs: seq<Segment>, g: seq<Segment>, lo: nat, hi: nat)
    requires lo < hi <= |g| && Sound(ws, segs)
    requires forall k :: 0 <= k < lo ==> Covered(ws, segs, g[k])
    requires forall k :: lo <= k < hi ==> Describes(win, segs, Incident(SetOf(segs), g[k]))
    requires g[lo] in segs
    ensures Sound(ws + [win], segs)
    ensures forall k :: 0 <= k < hi ==> Covered(ws + [win], segs, g[k])
  {
    hide Describes, Incident;
    forall k | 0 <= k < hi ensures Covered(ws + [win], segs, g[k]) {
      if k < lo {
        CoveredMore(ws, [win], segs, g[k]);
      } else {
        assert win in ws + [win];
      }
    }
  }

  lemma CoveredMore(a: seq<FailureWindow>, b: seq<FailureWindow>, segs: seq<Segment>, x: Segment)
    requires Covered(a, segs, x) || Covered(b, segs, x)
    ensures Covered(a + b, segs, x)
  {
    hide Describes, Incident;
    var w :| (w in a || w in b) && Describes(w, segs, Incident(SetOf(segs), x));
    assert w in a + b;
  }

  ghost predicate DistinctKeys(ws: seq<FailureWindow>) {
    forall i, j :: 0 <= i < j < |ws| ==> ws[i].start != ws[j].start || ws[i].message != ws[j].message
  }

  /** The windows are the incidents of every message but those left. */
  ghost predicate MessagesMerged(ws: seq<FailureWindow>, segs: seq<Segment>, left: set<string>) {
    && Sound(ws, segs)
    && (forall a :: a in segs && a.msg !in left ==> Covered(ws, segs, a))
    && (forall i :: 0 <= i < |ws| ==> ws[i].message !in left)
    && DistinctKeys(ws)
  }

  lemma MergeNextMessage(ws: seq<FailureWindow>, more: seq<FailureWindow>, segs: seq<Segment>, left: set<string>,
                         msg: string, g: seq<Segment>)
    requires MessagesMerged(ws, segs, left) && msg in left
    requires IsGroup(g, segs, msg) && MergedSoFar(more, segs, msg, g, |g|)
    ensures MessagesMerged(ws + more, segs, left - {msg})
  {
    hide Describes, Incident, OfMessage, ByStart;
    forall a | a in segs && a.msg !in left - {msg} ensures Covered(ws + more, segs, a) {
      if a.msg == msg {
        assert a in g;
        var k :| 0 <= k < |g| && g[k] == a;
        assert Covered(more, segs, g[k]);
      }
      CoveredMore(ws, more, segs, a);
    }
  }

  method MergeSegments(segs: seq<Segment>) returns (windows: seq<FailureWindow>)
    requires forall x :: x in segs ==> x.start <= x.end
    ensures AreIncidents(windows, segs)
  {
    hide Covered, Sound, MergedSoFar, IsGroup, OfMessage;
    var ws: seq<FailureWindow> := [];
    var msgs := set x | x in segs :: x.msg;
    var left := msgs;
    NoMessageMerged(segs);
    while left != {}
      invariant MessagesMerged(ws, segs, left)
      decreases left
    {
      var msg := Pick(left);
      var group := GroupByMessage(segs, msg);
      var g := Sort(group, StartLeq);
      GroupFromSort(g, segs, msg);
      var more := MergeMessage(segs, msg, g);
      MergeNextMessage(ws, more, segs, left, msg, g);
      ws := ws + more;
      left := left - {msg};
    }
    WindowOrder();
    windows := Sort(ws, WindowLeq);
    SortedWindows(ws, windows, segs);
  }

  lemma NoMessageMerged(segs: seq<Segment>)
    ensures MessagesMerged([], segs, set x | x in segs :: x.msg)
  {
  }

  method GroupByMessage(segs: seq<Segment>, msg: string) returns (g: seq<Segment>)
    ensures g == OfMessage(segs, msg)
  {
    g := [];
    for i := 0 to |segs|
      invariant g == OfMessage(segs[..i], msg)
    {
      assert segs[..i + 1][..i] == segs[..i];
      if segs[i].msg == msg {
        g := g + [segs[i]];
      }
    }
    assert segs[..|segs|] == segs;
  }

  lemma WindowOrder()
    ensures TotalPreorder(WindowLeq)
  {
    forall a, b ensures WindowLeq(a, b) || WindowLeq(b, a) {
      StringLeqTotal(a.message, b.message);
    }
    forall a, b, c | WindowLeq(a, b) && WindowLeq(b, c) ensures WindowLeq(a, c) {
      if a.start == b.start == c.start {
        StringLeqTransitive(a.message, b.message, c.message);
      }
    }
  }

  lemma StrictlySorted(ws: seq<FailureWindow>, r: seq<FailureWindow>)
    requires multiset(r) == multiset(ws) && SortedBy(r, WindowLeq) && DistinctKeys(ws)
    ensures forall i, j :: 0 <= i < j < |r| ==> WindowLeq(r[i], r[j]) && !WindowLeq(r[j], r[i])
  {
    forall i, j | 0 <= i < j < |r| ensures WindowLeq(r[i], r[j]) && !WindowLeq(r[j], r[i]) {
      Twice(r, i, j);
      assert r[i] in multiset(r) && r[j] in multiset(r);
      StringLeqTotal(r[i].message, r[j].message);
      if r[i].start == r[j].start && r[i].message == r[j].message {
        SameKeySameWindow(ws, r[i], r[j]);
      }
    }
  }

  lemma SortedWindows(ws: seq<FailureWindow>, r: seq<FailureWindow>, segs: seq<Segment>)
    requires multiset(r) == multiset(ws) && SortedBy(r, WindowLeq)
    requires MessagesMerged(ws, segs, {})
    ensures AreIncidents(r, segs)
  {
    hide Describes, Incident, WindowLeq;
    StrictlySorted(ws, r);
    forall w ensures w in r <==> w in ws {
      assert w in r <==> w in multiset(r);
      assert w in ws <==> w in multiset(ws);
    }
    forall a | a in segs ensures Covered(r, segs, a) {
      var w :| w in ws && Describes(w, segs, Incident(SetOf(segs), a));
      assert w in r;
    }
  }

  lemma {:induction false} SameKeySameWindow(ws: seq<FailureWindow>, a: FailureWindow, b: FailureWindow)
    requires DistinctKeys(ws)
    requires a.start == b.start && a.message == b.message
    ensures a in ws && b in ws ==> a == b
    ensures multiset(ws)[a] <= 1
  {
    if ws != [] {
      SameKeySameWindow(ws[1..], a, b);
      assert ws == [ws[0]] + ws[1..];
      if a == ws[0] {
        assert a !in ws[1..];
      }
    }
  }

  // ------------------------------------------------------ order and conservation

  lemma DescribesUnique(v: FailureWindow, w: FailureWindow, s: seq<Segment>, t: seq<Segment>, c: set<Segment>)
    requires multiset(s) == multiset(t) && Describes(v, s, c) && Describes(w, t, c)
    ensures v == w
  {
    CountInPermuted(s, t, c);
    hide CountIn;
    var a :| a in c && a.start == v.start;
    var b :| b in c && b.start == w.start;
    var d :| d in c && d.end == v.end;
    var e :| e in c && e.end == w.end;
    assert v.message == w.message && v.start == w.start && v.end == w.end;
  }

  lemma SameMembers(s: seq<Segment>, t: seq<Segment>)
    requires multiset(s) == multiset(t)
    ensures SetOf(s) == SetOf(t) && forall x :: x in s <==> x in t
  {
    forall x ensures x in s <==> x in t {
      assert x in s <==> x in multiset(s);
      assert x in t <==> x in multiset(t);
    }
  }

  lemma EveryWindowShared(v: seq<FailureWindow>, w: seq<FailureWindow>, s: seq<Segment>, t: seq<Segment>)
    requires multiset(s) == multiset(t) && Sound(v, s)
    requires forall a :: a in t ==> Covered(w, t, a)
    ensures forall x :: x in v ==> x in w
  {
    hide Describes, Incident;
    SameMembers(s, t);
    forall x | x in v ensures x in w {
      var a :| a in s && Describes(x, s, Incident(SetOf(s), a));
      assert Covered(w, t, a);
      var y :| y in w && Describes(y, t, Incident(SetOf(t), a));
      DescribesUnique(x, y, s, t, Incident(SetOf(s), a));
    }
  }

  /** Whatever order the segments come in, the same list of incidents is returned. */
  lemma OrderDoesNotMatter(v: seq<FailureWindow>, w: seq<FailureWindow>, s: seq<Segment>, t: seq<Segment>)
    requires multiset(s) == multiset(t) && AreIncidents(v, s) && AreIncidents(w, t)
    ensures v == w
  {
    hide WindowLeq, Covered, Sound;
    EveryWindowShared(v, w, s, t);
    EveryWindowShared(w, v, t, s);
    StrictlySortedUnique(v, w, WindowLeq);
  }

  function WindowCount(ws: seq<FailureWindow>): nat {
    if ws == [] then 0 else WindowCount(ws[..|ws| - 1]) + ws[|ws| - 1].count
  }

  /** The segments that some window of the list describes the incident of. */
  ghost function CoveredBy(ws: seq<FailureWindow>, segs: seq<Segment>): set<Segment> {
    set x | x in segs && Covered(ws, segs, x)
  }

  lemma {:induction false} CountInUnion(segs: seq<Segment>, c: set<Segment>, d: set<Segment>)
    requires c !! d
    ensures CountIn(segs, c + d) == CountIn(segs, c) + CountIn(segs, d)
    decreases |segs|
  {
    if segs != [] {
      CountInUnion(segs[..|segs| - 1], c, d);
    }
  }

  ghost predicate WellFormed(segs: seq<Segment>) {
    forall x :: x in segs ==> x.start <= x.end
  }

  /** One window never describes two incidents: their first segments would be near each other. */
  lemma OneIncidentPerWindow(w: FailureWindow, segs: seq<Segment>, a: Segment, b: Segment)
    requires WellFormed(segs) && a in segs && b in segs
    requires Describes(w, segs, Incident(SetOf(segs), a)) && Describes(w, segs, Incident(SetOf(segs), b))
    ensures Incident(SetOf(segs), a) == Incident(SetOf(segs), b)
  {
    var all := SetOf(segs);
    var p :| p in Incident(all, a) && p.start == w.start;
    var q :| q in Incident(all, b) && q.start == w.start;
    hide Connected, CountIn;
    assert Near(p, q);
    ConnectedRefl(all, p);
    ConnectedStep(all, p, p, q);
    SameIncident(all, a, p);
    SameIncident(all, p, q);
    SameIncident(all, b, q);
  }

  /** Distinct windows describe incidents with nothing in common. */
  lemma NextWindowDisjoint(ws: seq<FailureWindow>, w: FailureWindow, segs: seq<Segment>, a: Segment)
    requires WellFormed(segs) && a in segs && w !in ws && Describes(w, segs, Incident(SetOf(segs), a))
    ensures CoveredBy(ws, segs) !! Incident(SetOf(segs), a)
    ensures CoveredBy(ws + [w], segs) == CoveredBy(ws, segs) + Incident(SetOf(segs), a)
  {
    hide Describes, Connected;
    var all := SetOf(segs);
    var c := Incident(all, a);
    forall x | x in segs
      ensures x in c <==> Describes(w, segs, Incident(all, x))
    {
      ConnectedRefl(all, x);
      if x in c {
        SameIncident(all, a, x);
      } else if Describes(w, segs, Incident(all, x)) {
        OneIncidentPerWindow(w, segs, a, x);
      }
    }
    hide Incident;
    forall x | x in segs
      ensures Covered(ws + [w], segs, x) <==> Covered(ws, segs, x) || x in c
      ensures x in c ==> !Covered(ws, segs, x)
    {
      CoveredByOne(ws, w, segs, x);
      if x in c && Covered(ws, segs, x) {
        var v :| v in ws && Describes(v, segs, Incident(all, x));
        DescribesUnique(v, w, segs, segs, Incident(all, x));
      }
    }
  }

  lemma CoveredByOne(ws: seq<FailureWindow>, w: FailureWindow, segs: seq<Segment>, x: Segment)
    ensures Covered(ws + [w], segs, x) <==> Covered(ws, segs, x) || Describes(w, segs, Incident(SetOf(segs), x))
  {
    hide Describes, Incident;
    if Covered(ws, segs, x) {
      CoveredMore(ws, [w], segs, x);
    }
    if Describes(w, segs, Incident(SetOf(segs), x)) {
      assert w in ws + [w];
    }
  }

  lemma DescribesCount(w: FailureWindow, segs: seq<Segment>, c: set<Segment>)
    requires Describes(w, segs, c)
    ensures w.count == CountIn(segs, c)
  {
  }

  lemma NothingCovered(segs: seq<Segment>)
    ensures CoveredBy([], segs) == {}
  {
  }

  lemma {:induction false} CoveredCount(ws: seq<FailureWindow>, segs: seq<Segment>)
    requires WellFormed(segs) && Sound(ws, segs)
    requires forall i, j :: 0 <= i < j < |ws| ==> ws[i] != ws[j]
    ensures WindowCount(ws) == CountIn(segs, CoveredBy(ws, segs))
    decreases |ws|
  {
    hide Incident, Describes, CountIn, CoveredBy, Covered, WellFormed;
    if ws == [] {
      NothingCovered(segs);
      CountInNone(segs, {});
    } else {
      var p, w := ws[..|ws| - 1], ws[|ws| - 1];
      assert ws == p + [w];
      assert forall v :: v in p ==> v in ws;
      CoveredCount(p, segs);
      assert w in ws;
      var a :| a in segs && Describes(w, segs, Incident(SetOf(segs), a));
      NextWindowDisjoint(p, w, segs, a);
      DescribesCount(w, segs, Incident(SetOf(segs), a));
      CountInUnion(segs, CoveredBy(p, segs), Incident(SetOf(segs), a));
    }
  }

  /** The incidents count every failing sample once. */
  lemma IncidentsCountEverything(ws: seq<FailureWindow>, segs: seq<Segment>)
    requires WellFormed(segs) && AreIncidents(ws, segs)
    ensures WindowCount(ws) == CountOf(segs)
  {
    forall i, j | 0 <= i < j < |ws| ensures ws[i] != ws[j] {
      assert WindowLeq(ws[i], ws[j]) && !WindowLeq(ws[j], ws[i]);
    }
    hide Incident, Describes;
    CoveredCount(ws, segs);
    forall i | 0 <= i < |segs| ensures segs[i] in CoveredBy(ws, segs) {
      assert segs[i] in segs;
    }
    CountInAll(segs, CoveredBy(ws, segs));
  }

  // --------------------------------------------------------------- the whole

  /** Segments whose locations and counts are those of the stored rollups, in any order. */
  ghost predicate FromRollups(segs: seq<Segment>, rollups: Hours, hours: seq<int>, live: bool, now: int)
    requires forall h :: h in hours ==> h in rollups
  {
    forall loc :: OfLocation(segs, loc) == Finish(Stitch(rollups, hours, loc), live, now)
  }

  ghost predicate SortedKeys(hours: seq<int>, rollups: Hours) {
    && (forall h :: h in hours <==> h in rollups)
    && (forall i, j :: 0 <= i < j < |hours| ==> hours[i] < hours[j])
  }

  /** One hour's runs lie inside the hour, and only the first can continue the hour before. */
  ghost predicate InsideHour(runs: seq<HourRollup.FailureRun>, h: int) {
    && (forall k :: 0 <= k < |runs| ==> h <= runs[k].start <= runs[k].end < h + 3600)
    && (forall k :: 0 < k < |runs| ==> !runs[k].openStart)
  }

  /** Every stored hour holds runs of that hour. */
  ghost predicate RunsInTheirHours(rollups: Hours) {
    && (forall h :: h in rollups ==> h % 3600 == 0)
    && (forall h, loc :: h in rollups && loc in rollups[h] ==> InsideHour(rollups[h][loc].runs, h))
  }

  /** What ComputeLocationRollup stores for an hour's samples lies inside the hour. */
  lemma HourRunsInside(s: seq<HourRollup.Sample>, h: int)
    requires InHour(s, h)
    ensures InsideHour(HourRollup.HourRuns(s), h)
  {
    hide HourRollup.Spans;
    FirstRun(s);
    var spans := HourRollup.Spans(s, HourRollup.Unlimited);
    SampleTimes(s, h);
    hide InHour;
    forall k | 0 <= k < |spans| ensures h <= s[spans[k].lo].ts <= s[spans[k].hi - 1].ts < h + 3600 {
    }
  }

  lemma SampleTimes(s: seq<HourRollup.Sample>, h: int)
    requires InHour(s, h)
    ensures forall i :: 0 <= i < |s| ==> h <= s[i].ts < h + 3600
    ensures forall i, j :: 0 <= i <= j < |s| ==> s[i].ts <= s[j].ts
  {
    forall i | 0 <= i < |s| ensures h <= s[i].ts < h + 3600 {
      assert s[i] in s;
    }
  }

  predicate IntLeq(a: int, b: int) {
    a <= b
  }

  method SortHours(rollups: Hours) returns (hours: seq<int>)
    ensures SortedKeys(hours, rollups)
  {
    var unsorted: seq<int> := [];
    var left := rollups.Keys;
    while left != {}
      invariant left <= rollups.Keys
      invariant forall h :: h in unsorted <==> h in rollups && h !in left
      invariant forall i, j :: 0 <= i < j < |unsorted| ==> unsorted[i] != unsorted[j]
      decreases left
    {
      var h := Pick(left);
      unsorted := unsorted + [h];
      left := left - {h};
    }
    hours := Sort(unsorted, IntLeq);
    forall h ensures h in hours <==> h in rollups {
      assert h in hours <==> h in multiset(hours);
      assert h in unsorted <==> h in multiset(unsorted);
    }
    forall i, j | 0 <= i < j < |hours| ensures hours[i] < hours[j] {
      assert IntLeq(hours[i], hours[j]);
      Twice(hours, i, j);
      OnceOnly(unsorted, hours[i]);
    }
  }

  lemma {:induction false} OnceOnly(s: seq<int>, x: int)
    requires forall i, j :: 0 <= i < j < |s| ==> s[i] != s[j]
    ensures multiset(s)[x] <= 1
  {
    if s != [] {
      OnceOnly(s[1..], x);
      assert s == [s[0]] + s[1..];
    }
  }

  /** The incidents of the segments stitched from the sorted hours. */
  ghost predicate Derived(ws: seq<FailureWindow>, rollups: Hours, live: bool, now: int, hours: seq<int>,
      segs: seq<Segment>) {
    SortedKeys(hours, rollups) && FromRollups(segs, rollups, hours, live, now) && WellFormed(segs) &&
        AreIncidents(ws, segs)
  }

  /** `ws` are the incidents of the stored hours. */
  ghost predicate IncidentsOf(ws: seq<FailureWindow>, rollups: Hours, live: bool, now: int) {
    exists hours, segs :: Derived(ws, rollups, live, now, hours, segs)
  }

  /** `rollups` are the stored hours, with the current one computed live when asked for. */
  method FailureWindows(rollups: Hours, now: int, live: bool) returns (windows: seq<FailureWindow>)
    requires RunsInTheirHours(rollups)
    ensures IncidentsOf(windows, rollups, live, now)
  {
    var hours := SortHours(rollups);
    var all := AllSegments(rollups, hours, now, live);
    hide AreIncidents, OfLocation, Stitch, Finish, RunsInTheirHours, SortedKeys;
    AllForward(rollups, hours, all, live, now);
    windows := MergeSegments(all);
    assert Derived(windows, rollups, live, now, hours, all);
  }

  lemma AllForward(rollups: Hours, hours: seq<int>, all: seq<Segment>, live: bool, now: int)
    requires RunsInTheirHours(rollups) && SortedKeys(hours, rollups) && FromRollups(all, rollups, hours, live, now)
    ensures WellFormed(all)
  {
    hide OfLocation, Stitch, RunsInTheirHours;
    forall x | x in all ensures x.start <= x.end {
      InOwnLocation(all, x);
      StitchForward(rollups, hours, x.loc);
      var segs := Stitch(rollups, hours, x.loc).segs;
      var finished := Finish(Stitch(rollups, hours, x.loc), live, now);
      assert x in finished;
      var i :| 0 <= i < |finished| && finished[i] == x;
      assert segs[i] in segs && segs[i].start == x.start && segs[i].end == x.end;
    }
  }

  lemma {:induction false} InOwnLocation(segs: seq<Segment>, x: Segment)
    ensures x in segs ==> x in OfLocation(segs, x.loc)
    ensures multiset(OfLocation(segs, x.loc))[x] == multiset(segs)[x]
    decreases |segs|
  {
    if segs != [] {
      assert segs == segs[..|segs| - 1] + [segs[|segs| - 1]];
      InOwnLocation(segs[..|segs| - 1], x);
    }
  }

  lemma {:induction false} StitchForward(rollups: Hours, hours: seq<int>, loc: string)
    requires RunsInTheirHours(rollups) && forall h :: h in hours ==> h in rollups
    requires forall i, j :: 0 <= i < j < |hours| ==> hours[i] < hours[j]
    ensures var segs := Stitch(rollups, hours, loc).segs;
            WellFormed(segs) && forall x :: x in segs ==> hours != [] && x.start < hours[|hours| - 1] + 3600
    decreases |hours|
  {
    if hours != [] {
      var h := hours[|hours| - 1];
      assert h in hours;
      var before := hours[..|hours| - 1];
      var st := Stitch(rollups, before, loc);
      StitchForward(rollups, before, loc);
      assert before != [] ==> before[|before| - 1] in hours && before[|before| - 1] + 3600 <= h;
      if loc in rollups[h] {
        AddForward(loc, st.segs, st.open, rollups[h][loc].runs, h);
      }
    }
  }

  lemma AddForward(loc: string, segs: seq<Segment>, open: bool, runs: seq<HourRollup.FailureRun>, h: int)
    requires open ==> segs != []
    requires InsideHour(runs, h)
    requires forall x :: x in segs ==> x.start <= x.end && x.start < h
    ensures forall x :: x in AddRuns(loc, segs, open, runs) ==> x.start <= x.end && x.start < h + 3600
  {
    hide AddRuns, Continues;
    AddRunsCases(loc, segs, open, runs);
    var t := AddRuns(loc, segs, open, runs);
    assert forall i :: 0 <= i < |segs| ==> segs[i] in segs;
    forall i | 0 <= i < |t| ensures t[i].start <= t[i].end && t[i].start < h + 3600 {
      if runs != [] && Continues(segs, open, runs[0]) {
        JoinsForward(segs, open, runs[0]);
        assert i < |segs| || t[i] == SegmentOf(loc, runs[i - |segs| + 1]);
      } else {
        assert i < |segs| || t[i] == SegmentOf(loc, runs[i - |segs|]);
      }
    }
  }

  lemma JoinsForward(segs: seq<Segment>, open: bool, run: HourRollup.FailureRun)
    requires open ==> segs != []
    requires Continues(segs, open, run)
    ensures segs != [] && |Extended(segs, run)| == |segs|
    ensures Extended(segs, run)[..|segs| - 1] == segs[..|segs| - 1]
    ensures Extended(segs, run)[|segs| - 1].start == segs[|segs| - 1].start &&
        Extended(segs, run)[|segs| - 1].end == run.end
  {
  }

  /** The whole list of incidents is decided by the stored hours: map order plays no part. */
  lemma IncidentsAreDetermined(rollups: Hours, live: bool, now: int, v: seq<FailureWindow>, w: seq<FailureWindow>)
    requires IncidentsOf(v, rollups, live, now) && IncidentsOf(w, rollups, live, now)
    ensures v == w
  {
    hide Derived;
    var hv, sv :| Derived(v, rollups, live, now, hv, sv);
    var hw, sw :| Derived(w, rollups, live, now, hw, sw);
    SameDerivation(rollups, live, now, v, hv, sv, w, hw, sw);
  }

  lemma SameHours(rollups: Hours, a: seq<int>, b: seq<int>)
    requires SortedKeys(a, rollups) && SortedKeys(b, rollups)
    ensures a == b
  {
    forall i | 0 <= i < |a| ensures a[i] in b {
      assert a[i] in a && a[i] in rollups;
    }
    forall i | 0 <= i < |b| ensures b[i] in a {
      assert b[i] in b && b[i] in rollups;
    }
    StrictlySortedUnique(a, b, IntLeq);
  }

  lemma SameDerivation(rollups: Hours, live: bool, now: int,
                       v: seq<FailureWindow>, hv: seq<int>, sv: seq<Segment>,
                       w: seq<FailureWindow>, hw: seq<int>, sw: seq<Segment>)
    requires Derived(v, rollups, live, now, hv, sv) && Derived(w, rollups, live, now, hw, sw)
    ensures v == w
  {
    hide AreIncidents, SortedKeys, WellFormed, OfLocation, Stitch, Finish;
    SameHours(rollups, hv, hw);
    forall x ensures multiset(sv)[x] == multiset(sw)[x] {
      InOwnLocation(sv, x);
      InOwnLocation(sw, x);
      assert OfLocation(sv, x.loc) == OfLocation(sw, x.loc);
    }
    assert multiset(sv) == multiset(sw);
    OrderDoesNotMatter(v, w, sv, sw);
  }

  /** The failing samples counted by the segments of each location. */
  ghost function CountsBy(segs: seq<Segment>, locs: set<string>): map<string, int> {
    map l | l in locs :: CountOf(OfLocation(segs, l))
  }

  lemma CountNext(p: seq<Segment>, x: Segment, l: string)
    ensures CountOf(OfLocation(p + [x], l)) == CountOf(OfLocation(p, l)) + if x.loc == l then x.count else 0
  {
    assert (p + [x])[..|p|] == p;
    var before, now := OfLocation(p, l), OfLocation(p + [x], l);
    if x.loc == l {
      assert now[..|now| - 1] == before;
    } else {
      assert now == before;
    }
  }

  lemma CountsNext(p: seq<Segment>, x: Segment, locs: set<string>)
    requires x.loc in locs
    ensures x.loc in CountsBy(p, locs)
    ensures CountsBy(p + [x], locs) == CountsBy(p, locs)[x.loc := CountsBy(p, locs)[x.loc] + x.count]
  {
    hide CountOf, OfLocation;
    forall l: string | l in locs
      ensures CountOf(OfLocation(p + [x], l)) == CountOf(OfLocation(p, l)) + if x.loc == l then x.count else 0
    {
      CountNext(p, x, l);
    }
  }

  lemma {:induction false} CountByLocation(segs: seq<Segment>, locs: set<string>)
    requires forall i :: 0 <= i < |segs| ==> segs[i].loc in locs
    ensures CountOf(segs) == Sums.Total(CountsBy(segs, locs))
    decreases |segs|
  {
    hide CountOf, OfLocation, Sums.Total;
    if segs == [] {
      NothingCounted(locs);
    } else {
      hide CountsBy;
      var p, x := segs[..|segs| - 1], segs[|segs| - 1];
      assert segs == p + [x];
      CountByLocation(p, locs);
      CountsNext(p, x, locs);
      CountOneMore(p, x);
      Sums.TotalBump(CountsBy(p, locs), CountsBy(segs, locs), x.loc, x.count);
    }
  }

  lemma NothingCounted(locs: set<string>)
    ensures CountOf([]) == 0 == Sums.Total(CountsBy([], locs))
  {
    assert forall l :: l in locs ==> CountsBy([], locs)[l] == CountOf(OfLocation([], l)) == 0;
    Sums.TotalZero(CountsBy([], locs));
  }

  lemma CountOneMore(p: seq<Segment>, x: Segment)
    ensures CountOf(p + [x]) == CountOf(p) + x.count
  {
    assert (p + [x])[..|p|] == p;
  }

  lemma FinishCount(st: LocState, live: bool, now: int)
    requires st.open ==> st.segs != []
    ensures CountOf(Finish(st, live, now)) == CountOf(st.segs)
  {
    var f := Finish(st, live, now);
    if st.segs != [] {
      assert f[..|f| - 1] == st.segs[..|st.segs| - 1];
    }
  }

  /** Every location's samples, hour by hour. */
  type AllSamples = map<string, map<int, seq<HourRollup.Sample>>>

  ghost predicate AllStoredFrom(rollups: Hours, hours: seq<int>, samples: AllSamples) {
    && (forall loc :: loc in samples ==> StoredFrom(rollups, hours, loc, samples[loc]))
    && (forall h, loc :: h in hours && h in rollups && loc in rollups[h] ==> loc in samples)
  }

  /** How many samples of each location failed. */
  ghost function FailingBy(rollups: Hours, hours: seq<int>, samples: AllSamples): map<string, int>
    requires AllStoredFrom(rollups, hours, samples)
  {
    map loc | loc in samples :: FailingAt(rollups, hours, loc, samples[loc])
  }

  ghost function FailingAt(rollups: Hours, hours: seq<int>, loc: string, samples: map<int, seq<HourRollup.Sample>>): int
    requires StoredFrom(rollups, hours, loc, samples)
  {
    HourRollup.Failures(Stream(samples, hours))
  }

  lemma LocationCount(rollups: Hours, hours: seq<int>, loc: string, samples: map<int, seq<HourRollup.Sample>>,
                      live: bool, now: int)
    requires StoredFrom(rollups, hours, loc, samples)
    ensures CountOf(Finish(Stitch(rollups, hours, loc), live, now)) == FailingAt(rollups, hours, loc, samples)
  {
    StitchIsOnePass(rollups, hours, loc, samples);
    FinishCount(Stitch(rollups, hours, loc), live, now);
    EpisodesCountFailures(loc, Stream(samples, hours));
  }

  /**
   * From raw samples to incidents: when every stored hour is the rollup of its
   * samples, the incidents count every failing sample of every location once.
   */
  lemma IncidentsCountFailingSamples(rollups: Hours, hours: seq<int>, live: bool, now: int,
                                     samples: AllSamples, ws: seq<FailureWindow>)
    requires SortedKeys(hours, rollups) && AllStoredFrom(rollups, hours, samples)
    requires IncidentsOf(ws, rollups, live, now)
    ensures WindowCount(ws) == Sums.Total(FailingBy(rollups, hours, samples))
  {
    hide AllStoredFrom, FailingBy, WellFormed, AreIncidents, FromRollups, SortedKeys;
    var h, segs :| Derived(ws, rollups, live, now, h, segs);
    SameHours(rollups, hours, h);
    SegmentsCountFailingSamples(rollups, hours, live, now, samples, segs, ws);
  }

  lemma SegmentsCountFailingSamples(rollups: Hours, hours: seq<int>, live: bool, now: int,
                                    samples: AllSamples, segs: seq<Segment>, ws: seq<FailureWindow>)
    requires AllStoredFrom(rollups, hours, samples) && Derived(ws, rollups, live, now, hours, segs)
    ensures WindowCount(ws) == Sums.Total(FailingBy(rollups, hours, samples))
  {
    IncidentsCountEverything(ws, segs);
    hide AreIncidents, StoredFrom, Stitch;
    forall i | 0 <= i < |segs| ensures segs[i].loc in samples {
      KnownLocation(rollups, hours, live, now, samples, segs, segs[i]);
    }
    CountByLocation(segs, samples.Keys);
    forall loc | loc in samples
      ensures CountOf(OfLocation(segs, loc)) == FailingAt(rollups, hours, loc, samples[loc])
    {
      LocationCount(rollups, hours, loc, samples[loc], live, now);
    }
    assert CountsBy(segs, samples.Keys) == FailingBy(rollups, hours, samples);
  }

  lemma KnownLocation(rollups: Hours, hours: seq<int>, live: bool, now: int, samples: AllSamples,
                      segs: seq<Segment>, x: Segment)
    requires AllStoredFrom(rollups, hours, samples)
    requires SortedKeys(hours, rollups) && FromRollups(segs, rollups, hours, live, now) && x in segs
    ensures x.loc in samples
  {
    hide StoredFrom;
    InOwnLocation(segs, x);
    if x.loc !in samples {
      AbsentLocation(rollups, hours, x.loc);
    }
  }

  lemma {:induction false} AbsentLocation(rollups: Hours, hours: seq<int>, loc: string)
    requires forall h :: h in hours ==> h in rollups && loc !in rollups[h]
    ensures Stitch(rollups, hours, loc) == NOTHING
    decreases |hours|
  {
    if hours != [] {
      assert hours[|hours| - 1] in hours;
      AbsentLocation(rollups, hours[..|hours| - 1], loc);
    }
  }

  /**
   * A location's last segment, and no other, is ongoing, exactly when live is
   * asked for, its newest sample failed and that sample's hour is recent.
   */
  lemma OngoingMeansFailingNow(rollups: Hours, hours: seq<int>, loc: string, samples: map<int, seq<HourRollup.Sample>>,
                               live: bool, now: int)
    requires StoredFrom(rollups, hours, loc, samples)
    ensures var s, st := Stream(samples, hours), Stitch(rollups, hours, loc);
            var f := Finish(st, live, now);
            var failing := live && LastFailed(s) && st.lastHour >= now - STATUS_MAX_AGE;
            && (failing ==> f != [] && f[|f| - 1].end == s[|s| - 1].ts)
            && forall i :: 0 <= i < |f| ==> (f[i].ongoing <==> failing && i == |f| - 1)
    ensures var s, st := Stream(samples, hours), Stitch(rollups, hours, loc);
            LastFailed(s) ==> st.lastHour <= s[|s| - 1].ts < st.lastHour + 3600
  {
    hide Stitch;
    StitchIsOnePass(rollups, hours, loc, samples);
    var s := Stream(samples, hours);
    if LastFailed(s) {
      LastEpisode(loc, s);
    }
  }
}
