/**
 * The latency chart: what each location's points are made of. entry.merge,
 * entry.point, rollupEntry, rawEntries and Latency in
 * dashboard/internal/store/latency.go.
 */
module LatencyChart {
  import opened Base
  import opened HourRollup
  import opened Sorting
  import opened Rollups
  import opened Days

  // ---------------------------------------------------------------- tallies

  /** What any number of checks add up to. `okCount` counts those with a response time. */
  datatype Tally = Tally(checks: nat, failed: nat, okCount: nat, sum: real, min: real, max: real)

  /** One check, one stored hour, or one bucket of either. */
  datatype Entry = Entry(t: int, span: int, tally: Tally)

  datatype Times = Times(avg: real, min: real, max: real)

  datatype Point = Point(t: int, span: int, times: Option<Times>, checks: nat, failed: nat)

  const NOTHING := Tally(0, 0, 0, 0.0, 0.0, 0.0)

  predicate Normal(a: Tally) {
    a.okCount == 0 ==> a.sum == 0.0 && a.min == 0.0 && a.max == 0.0
  }

  function Merged(a: Tally, b: Tally): Tally {
    Tally(a.checks + b.checks, a.failed + b.failed, a.okCount + b.okCount, a.sum + b.sum,
          if b.okCount > 0 && (a.okCount == 0 || b.min < a.min) then b.min else a.min,
          if b.okCount > 0 && (a.okCount == 0 || b.max > a.max) then b.max else a.max)
  }

  /** Merging in any order and any grouping gives the same. */
  lemma MergeLaws(a: Tally, b: Tally, c: Tally)
    requires Normal(a) && Normal(b) && Normal(c)
    ensures Normal(Merged(a, b))
    ensures Merged(a, b) == Merged(b, a)
    ensures Merged(Merged(a, b), c) == Merged(a, Merged(b, c))
    ensures Merged(NOTHING, a) == a == Merged(a, NOTHING)
  {
  }

  class Accumulator {
    var checks: nat
    var failed: nat
    var okCount: nat
    var sum: real
    var min: real
    var max: real

    function Value(): Tally
      reads this
    {
      Tally(checks, failed, okCount, sum, min, max)
    }

    constructor ()
      ensures Value() == NOTHING
    {
      checks, failed, okCount, sum, min, max := 0, 0, 0, 0.0, 0.0, 0.0;
    }

    method Merge(o: Tally)
      modifies this
      ensures Value() == Merged(old(Value()), o)
    {
      if o.okCount > 0 {
        if okCount == 0 || o.min < min {
          min := o.min;
        }
        if okCount == 0 || o.max > max {
          max := o.max;
        }
      }
      checks := checks + o.checks;
      failed := failed + o.failed;
      okCount := okCount + o.okCount;
      sum := sum + o.sum;
    }

    method Reset()
      modifies this
      ensures Value() == NOTHING
    {
      checks, failed, okCount, sum, min, max := 0, 0, 0, 0.0, 0.0, 0.0;
    }
  }

  function PointOf(a: Tally, t: int, span: int): Point {
    Point(t, span, if a.okCount > 0 then Some(Times(a.sum / a.okCount as real, a.min, a.max)) else None, a.checks,
        a.failed)
  }

  /** All of `s` merged. */
  function Pool(s: seq<Entry>): Tally {
    if s == [] then NOTHING else Merged(Pool(s[..|s| - 1]), s[|s| - 1].tally)
  }

  ghost predicate AllNormal(s: seq<Entry>) {
    forall i :: 0 <= i < |s| ==> Normal(s[i].tally)
  }

  lemma {:induction false} PoolNormal(s: seq<Entry>)
    requires AllNormal(s)
    ensures Normal(Pool(s))
    decreases |s|
  {
    if s != [] {
      PoolNormal(s[..|s| - 1]);
    }
  }

  lemma PoolMore(s: seq<Entry>, e: Entry)
    ensures Pool(s + [e]) == Merged(Pool(s), e.tally)
  {
    assert (s + [e])[..|s|] == s;
  }

  /** The least and greatest response time are those of some entry, and no entry has one beyond them. */
  lemma {:induction false} PoolRange(s: seq<Entry>)
    requires AllNormal(s)
    ensures var p := Pool(s);
            && (p.okCount > 0 <==> exists i :: 0 <= i < |s| && s[i].tally.okCount > 0)
            && (forall i :: 0 <= i < |s| && s[i].tally.okCount > 0 ==>
                  p.min <= s[i].tally.min && s[i].tally.max <= p.max)
            && (p.okCount > 0 ==> exists i :: 0 <= i < |s| && s[i].tally.okCount > 0 && s[i].tally.min == p.min)
            && (p.okCount > 0 ==> exists i :: 0 <= i < |s| && s[i].tally.okCount > 0 && s[i].tally.max == p.max)
    decreases |s|
  {
    if s != [] {
      var r, n := s[..|s| - 1], |s| - 1;
      PoolRange(r);
      assert forall i :: 0 <= i < n ==> r[i] == s[i];
      if Pool(r).okCount > 0 {
        var i :| 0 <= i < |r| && r[i].tally.okCount > 0 && r[i].tally.min == Pool(r).min;
        var j :| 0 <= j < |r| && r[j].tally.okCount > 0 && r[j].tally.max == Pool(r).max;
        assert s[i] == r[i] && s[j] == r[j];
      }
      assert s[n].tally.okCount > 0 || Pool(s).min == Pool(r).min;
    }
  }

  /** Any entry may be merged first. */
  lemma {:induction false} PoolPick(s: seq<Entry>, k: nat)
    requires AllNormal(s) && k < |s|
    ensures Pool(s) == Merged(Pool(s[..k] + s[k + 1..]), s[k].tally)
    decreases |s|
  {
    hide Merged, Normal;
    var n := |s| - 1;
    if k == n {
      assert s[..k] + s[k + 1..] == s[..n];
    } else {
      var r := s[..n];
      PoolPick(r, k);
      var rest := r[..k] + r[k + 1..];
      assert s[..k] + s[k + 1..] == rest + [s[n]];
      PoolMore(rest, s[n]);
      PoolNormal(rest);
      MergeLaws(Pool(rest), r[k].tally, s[n].tally);
      MergeLaws(Pool(rest), s[n].tally, r[k].tally);
      MergeLaws(r[k].tally, s[n].tally, NOTHING);
    }
  }

  lemma NormalWithout(b: seq<Entry>, k: nat)
    requires k < |b| && AllNormal(b)
    ensures AllNormal(b[..k] + b[k + 1..])
  {
    hide Normal;
    TakeOut(b, k);
  }

  /** The order of the entries makes no difference. */
  lemma {:induction false} PoolPermuted(a: seq<Entry>, b: seq<Entry>)
    requires AllNormal(a) && AllNormal(b) && multiset(a) == multiset(b)
    ensures Pool(a) == Pool(b)
    decreases |a|
  {
    hide Merged, Normal, Pool, AllNormal;
    assert |a| == |multiset(a)| == |multiset(b)| == |b|;
    if a == [] {
      assert b == [];
    } else {
      var n := |a| - 1;
      TakeOut(a, n);
      NormalWithout(a, n);
      assert a[..n] + a[n + 1..] == a[..n];
      var k := FindIn(b, a[n]);
      TakeOut(b, k);
      NormalWithout(b, k);
      PoolPermuted(a[..n], b[..k] + b[k + 1..]);
      PoolPick(a, n);
      PoolPick(b, k);
    }
  }

  // --------------------------------------------------------------- grouping

  /** The entries of `s` from `lo` on and before `hi`. */
  function Within(s: seq<Entry>, lo: int, hi: int): seq<Entry>
  {
    if s == [] then []
    else
      var e := s[|s| - 1];
      Within(s[..|s| - 1], lo, hi) + if lo <= e.t < hi then [e] else []
  }

  lemma WithinMore(s: seq<Entry>, e: Entry, lo: int, hi: int)
    ensures Within(s + [e], lo, hi) == if lo <= e.t < hi then Within(s, lo, hi) + [e] else Within(s, lo, hi)
  {
    assert (s + [e])[..|s|] == s;
  }

  lemma {:induction false} WithinAll(s: seq<Entry>, lo: int, hi: int)
    requires forall i :: 0 <= i < |s| ==> lo <= s[i].t < hi
    ensures Within(s, lo, hi) == s
    decreases |s|
  {
    if s != [] {
      WithinAll(s[..|s| - 1], lo, hi);
    }
  }

  lemma {:induction false} WithinCounts(s: seq<Entry>, lo: int, hi: int, e: Entry)
    ensures multiset(Within(s, lo, hi))[e] == if lo <= e.t < hi then multiset(s)[e] else 0
    decreases |s|
  {
    if s != [] {
      WithinCounts(s[..|s| - 1], lo, hi, e);
      assert s == s[..|s| - 1] + [s[|s| - 1]];
    }
  }

  lemma {:induction false} WithinNormal(s: seq<Entry>, lo: int, hi: int)
    requires AllNormal(s)
    ensures AllNormal(Within(s, lo, hi)) && Normal(Pool(Within(s, lo, hi)))
    decreases |s|
  {
    hide Normal, Pool;
    if s != [] {
      WithinNormal(s[..|s| - 1], lo, hi);
    }
    PoolNormal(Within(s, lo, hi));
  }

  /** Where an entry of the range is in the list. */
  lemma {:induction false} SomeWithin(s: seq<Entry>, lo: int, hi: int) returns (i: nat)
    requires Within(s, lo, hi) != []
    ensures i < |s| && lo <= s[i].t < hi
    decreases |s|
  {
    i := |s| - 1;
    if !(lo <= s[i].t < hi) {
      i := SomeWithin(s[..|s| - 1], lo, hi);
    }
  }

  lemma CutMore(a: Tally, b: Tally, e: Tally)
    requires Normal(a) && Normal(b) && Normal(e)
    ensures Merged(Merged(a, b), e) == Merged(Merged(a, e), b) == Merged(a, Merged(b, e))
  {
  }

  /** A range cut in two merges to the same. */
  lemma {:induction false} PoolCut(s: seq<Entry>, lo: int, mid: int, hi: int)
    requires AllNormal(s) && lo <= mid <= hi
    ensures Pool(Within(s, lo, hi)) == Merged(Pool(Within(s, lo, mid)), Pool(Within(s, mid, hi)))
    decreases |s|
  {
    hide Normal, Pool, Within;
    if s == [] {
      EmptyCut(lo, mid, hi);
    } else {
      hide Merged;
      var r, e := s[..|s| - 1], s[|s| - 1];
      assert s == r + [e];
      PoolCut(r, lo, mid, hi);
      var a, b := Within(r, lo, mid), Within(r, mid, hi);
      WithinNormal(r, lo, mid);
      WithinNormal(r, mid, hi);
      WithinMore(r, e, lo, hi);
      WithinMore(r, e, lo, mid);
      WithinMore(r, e, mid, hi);
      if lo <= e.t < hi {
        PoolMore(Within(r, lo, hi), e);
        PoolMore(a, e);
        PoolMore(b, e);
        CutMore(Pool(a), Pool(b), e.tally);
      }
    }
  }

  lemma EmptyCut(lo: int, mid: int, hi: int)
    ensures Pool(Within([], lo, hi)) == Merged(Pool(Within([], lo, mid)), Pool(Within([], mid, hi)))
  {
    hide Within, Pool;
    NoneOfNone(lo, hi);
    NoneOfNone(lo, mid);
    NoneOfNone(mid, hi);
    MergeNothing(NOTHING);
  }

  lemma NoneOfNone(lo: int, hi: int)
    ensures Within([], lo, hi) == [] && Pool([]) == NOTHING
  {
  }

  predicate ByTime(a: Entry, b: Entry) {
    a.t <= b.t
  }

  /** Each bucket covers exactly the entries in its interval, and every entry is in one. */
  ghost predicate Grouped(buckets: seq<Entry>, s: seq<Entry>, from: int, width: int)
    requires width > 0
  {
    && (forall k :: 0 <= k < |buckets| ==> BucketOk(buckets[k], s, from, width))
    && (forall j, k :: 0 <= j < k < |buckets| ==> buckets[j].t < buckets[k].t)
    && (forall i :: 0 <= i < |s| ==> Covered(buckets, s[i].t, width))
  }

  ghost predicate BucketOk(b: Entry, s: seq<Entry>, from: int, width: int)
    requires width > 0
  {
    var own := Within(s, b.t, b.t + width);
    b.t >= from && (b.t - from) % width == 0 && b.span == width && own != [] && b.tally == Pool(own)
  }

  ghost predicate Covered(buckets: seq<Entry>, t: int, width: int) {
    exists k :: 0 <= k < |buckets| && buckets[k].t <= t < buckets[k].t + width
  }

  /** Start of the bucket `t` falls in. */
  function BucketStart(t: int, from: int, width: int): int
    requires width > 0
  {
    from + (t - from) / width * width
  }

  lemma StartBounds(t: int, from: int, width: int)
    requires width > 0
    ensures var b := BucketStart(t, from, width);
            b <= t < b + width && (b - from) % width == 0 && (from <= t ==> from <= b)
  {
    var q := (t - from) / width;
    assert t - from == q * width + (t - from) % width;
    assert (q * width) % width == 0 by { Multiple(q, width); }
    assert from <= t ==> q >= 0;
    assert q >= 0 ==> q * width >= 0;
  }

  lemma Multiple(q: int, width: int)
    requires width > 0
    ensures q * width % width == 0 && q * width / width == q
  {
    var r := q * width % width;
    var p := q * width / width;
    assert q * width == p * width + r;
    assert (q - p) * width == r;
    assert q - p >= 1 ==> (q - p) * width >= width;
    assert q - p <= -1 ==> (q - p) * width <= -width;
  }

  /** Aligned starts are equal or a bucket apart. */
  lemma StartsApart(a: int, b: int, from: int, width: int)
    requires width > 0 && (a - from) % width == 0 && (b - from) % width == 0 && a < b
    ensures a + width <= b
  {
    var p, q := (a - from) / width, (b - from) / width;
    assert a - from == p * width && b - from == q * width;
    assert (q - p) * width > 0;
    assert q - p <= 0 ==> (q - p) * width <= 0;
    assert q - p >= 1 ==> (q - p) * width >= width;
  }

  /** An entry outside a bucket's interval leaves it as it is. */
  lemma BucketKept(b: Entry, s: seq<Entry>, e: Entry, from: int, width: int)
    requires width > 0 && BucketOk(b, s, from, width) && !(b.t <= e.t < b.t + width)
    ensures BucketOk(b, s + [e], from, width)
  {
    hide Pool, Within;
    WithinMore(s, e, b.t, b.t + width);
  }

  lemma BucketJoined(b: Entry, s: seq<Entry>, e: Entry, from: int, width: int)
    requires width > 0 && BucketOk(b, s, from, width) && b.t <= e.t < b.t + width
    ensures BucketOk(b.(tally := Merged(b.tally, e.tally)), s + [e], from, width)
  {
    hide Pool, Within, Merged;
    var now := b.(tally := Merged(b.tally, e.tally));
    WithinMore(s, e, b.t, b.t + width);
    PoolMore(Within(s, b.t, b.t + width), e);
  }

  lemma BucketStarted(b: Entry, s: seq<Entry>, e: Entry, from: int, width: int)
    requires width > 0 && from <= e.t && Normal(e.tally)
    requires b == Entry(BucketStart(e.t, from, width), width, e.tally)
    requires Within(s, b.t, b.t + width) == []
    ensures BucketOk(b, s + [e], from, width)
  {
    hide Pool, Within, Merged, BucketStart, Normal;
    StartBounds(e.t, from, width);
    WithinMore(s, e, b.t, b.t + width);
    assert [] + [e] == [e];
    SinglePool(e);
  }

  lemma StillCovered(buckets: seq<Entry>, now: seq<Entry>, t: int, width: int)
    requires Covered(buckets, t, width) && |buckets| <= |now| && forall k :: 0 <= k < |buckets| ==>
        now[k].t == buckets[k].t
    ensures Covered(now, t, width)
  {
    var k :| 0 <= k < |buckets| && buckets[k].t <= t < buckets[k].t + width;
    assert now[k].t <= t < now[k].t + width;
  }

  /** An entry in the last bucket's interval joins it. */
  lemma JoinsBucket(buckets: seq<Entry>, last: Entry, s: seq<Entry>, e: Entry, from: int, width: int)
    requires width > 0 && Grouped(buckets + [last], s, from, width)
    requires last.t <= e.t < last.t + width
    ensures Grouped(buckets + [last.(tally := Merged(last.tally, e.tally))], s + [e], from, width)
  {
    hide Merged, Pool, Within, BucketOk, Covered;
    var all, more := buckets + [last], s + [e];
    var now := buckets + [last.(tally := Merged(last.tally, e.tally))];
    assert all[|buckets|] == last && now[|buckets|].t == last.t;
    assert forall k :: 0 <= k < |buckets| ==> now[k] == all[k];
    forall k | 0 <= k < |now| ensures BucketOk(now[k], more, from, width) {
      assert BucketOk(all[k], s, from, width);
      if k < |buckets| {
        assert all[k].t < last.t;
        AlignedStarts(all[k], last, s, from, width);
        BucketKept(all[k], s, e, from, width);
      } else {
        BucketJoined(last, s, e, from, width);
      }
    }
    forall i | 0 <= i < |more| ensures Covered(now, more[i].t, width) {
      if i < |s| {
        assert Covered(all, s[i].t, width);
        StillCovered(all, now, s[i].t, width);
      } else {
        CoveredBy(now, |buckets|, e.t, width);
      }
    }
  }

  lemma CoveredBy(buckets: seq<Entry>, k: nat, t: int, width: int)
    requires k < |buckets| && buckets[k].t <= t < buckets[k].t + width
    ensures Covered(buckets, t, width)
  {
  }

  lemma AlignedStarts(a: Entry, b: Entry, s: seq<Entry>, from: int, width: int)
    requires width > 0 && BucketOk(a, s, from, width) && BucketOk(b, s, from, width) && a.t < b.t
    ensures a.t + width <= b.t
  {
    hide Within, Pool;
    StartsApart(a.t, b.t, from, width);
  }

  /** An entry beyond the last bucket starts one of its own. */
  lemma StartsBucket(buckets: seq<Entry>, s: seq<Entry>, e: Entry, from: int, width: int)
    requires width > 0 && Grouped(buckets, s, from, width) && from <= e.t
    requires buckets != [] ==> buckets[|buckets| - 1].t + width <= e.t
    requires Normal(e.tally)
    ensures Grouped(buckets + [Entry(BucketStart(e.t, from, width), width, e.tally)], s + [e], from, width)
  {
    hide Merged, Pool, Within, BucketOk, Covered, BucketStart, Normal;
    StartBounds(e.t, from, width);
    var b := Entry(BucketStart(e.t, from, width), width, e.tally);
    var now, more := buckets + [b], s + [e];
    forall j | 0 <= j < |buckets| ensures buckets[j].t + width <= b.t {
      assert BucketOk(buckets[j], s, from, width);
      BeforeNext(buckets[j], s, e, from, width);
      assert j < |buckets| - 1 ==> buckets[j].t < buckets[|buckets| - 1].t;
    }
    NoneWithin(buckets, s, b.t, width);
    forall k | 0 <= k < |now| ensures BucketOk(now[k], more, from, width) {
      if k < |buckets| {
        assert BucketOk(buckets[k], s, from, width);
        BucketKept(buckets[k], s, e, from, width);
      } else {
        BucketStarted(b, s, e, from, width);
      }
    }
    forall i | 0 <= i < |more| ensures Covered(now, more[i].t, width) {
      if i < |s| {
        assert Covered(buckets, s[i].t, width);
        StillCovered(buckets, now, s[i].t, width);
      } else {
        CoveredBy(now, |buckets|, e.t, width);
      }
    }
  }

  lemma BeforeNext(b: Entry, s: seq<Entry>, e: Entry, from: int, width: int)
    requires width > 0 && BucketOk(b, s, from, width) && from <= e.t
    ensures b.t + width <= e.t ==> b.t + width <= BucketStart(e.t, from, width)
  {
    hide Within, Pool, BucketStart;
    StartBounds(e.t, from, width);
    if b.t < BucketStart(e.t, from, width) {
      StartsApart(b.t, BucketStart(e.t, from, width), from, width);
    }
  }

  lemma SinglePool(e: Entry)
    requires Normal(e.tally)
    ensures Pool([e]) == e.tally
  {
    assert [e][..0] == [];
  }

  lemma {:induction false} WithinNone(s: seq<Entry>, lo: int, hi: int)
    requires forall i :: 0 <= i < |s| ==> s[i].t < lo || hi <= s[i].t
    ensures Within(s, lo, hi) == []
    decreases |s|
  {
    if s != [] {
      WithinNone(s[..|s| - 1], lo, hi);
    }
  }

  lemma NoneWithin(buckets: seq<Entry>, s: seq<Entry>, lo: int, width: int)
    requires width > 0 && forall j :: 0 <= j < |buckets| ==> buckets[j].t + width <= lo
    requires forall i :: 0 <= i < |s| ==> Covered(buckets, s[i].t, width)
    ensures Within(s, lo, lo + width) == []
  {
    forall i | 0 <= i < |s| ensures s[i].t < lo {
      assert Covered(buckets, s[i].t, width);
    }
    WithinNone(s, lo, lo + width);
  }

  function Points(buckets: seq<Entry>): seq<Point> {
    seq(|buckets|, k requires 0 <= k < |buckets| => PointOf(buckets[k].tally, buckets[k].t, buckets[k].span))
  }

  lemma PointsMore(buckets: seq<Entry>, b: Entry)
    ensures Points(buckets + [b]) == Points(buckets) + [PointOf(b.tally, b.t, b.span)]
  {
  }

  /** One location's series and its total over the whole range. */
  method Series(entries: seq<Entry>, from: int, bucket: int)
      returns (points: seq<Point>, total: Tally, ghost buckets: seq<Entry>)
    requires bucket >= 0 && AllNormal(entries)
    requires forall i :: 0 <= i < |entries| ==> from <= entries[i].t
    requires forall i, j :: 0 <= i < j < |entries| ==> entries[i].t <= entries[j].t
    ensures points == Points(buckets) && total == Pool(entries)
    ensures bucket == 0 ==> buckets == entries
    ensures bucket > 0 ==> Grouped(buckets, entries, from, bucket)
  {
    hide Merged, Points, Normal, Pool, BucketStart, BucketOk, Covered, Grouped;
    points, buckets := [], [];
    var sum := new Accumulator();
    assert entries[..0] == [];
    EmptyPool();
    if bucket == 0 {
      for i := 0 to |entries|
        invariant points == Points(entries[..i]) && sum.Value() == Pool(entries[..i])
      {
        assert entries[..i + 1] == entries[..i] + [entries[i]];
        PointsMore(entries[..i], entries[i]);
        PoolMore(entries[..i], entries[i]);
        points := points + [PointOf(entries[i].tally, entries[i].t, entries[i].span)];
        sum.Merge(entries[i].tally);
      }
      buckets := entries;
    } else {
      var cur := new Accumulator();
      var curIdx, started := 0, false;
      for i := 0 to |entries|
        invariant fresh(cur) && fresh(sum) && cur != sum
        invariant points == Points(buckets) && sum.Value() == Pool(entries[..i])
        invariant started <==> i > 0
        invariant !started ==> buckets == [] && cur.Value() == NOTHING
        invariant started ==> curIdx == (entries[i - 1].t - from) / bucket
        invariant started ==> Grouped(buckets + [Entry(from + curIdx * bucket, bucket, cur.Value())], entries[..i],
            from, bucket)
      {
        var e := entries[i];
        var idx := (e.t - from) / bucket;
        assert entries[..i + 1] == entries[..i] + [e];
        PoolMore(entries[..i], e);
        IndexOf(e.t, from, bucket);
        if started {
          IndexOf(entries[i - 1].t, from, bucket);
          LaterIndex(entries[i - 1].t, e.t, from, bucket);
        }
        ghost var pending := buckets + [Entry(from + curIdx * bucket, bucket, cur.Value())];
        ghost var was := cur.Value();
        if started && idx != curIdx {
          PointsMore(buckets, pending[|buckets|]);
          points := points + [PointOf(cur.Value(), from + curIdx * bucket, bucket)];
          buckets := pending;
          cur.Reset();
        }
        MergeNothing(e.tally);
        if started && idx == curIdx {
          JoinsBucket(buckets, Entry(from + curIdx * bucket, bucket, was), entries[..i], e, from, bucket);
        } else {
          NoBuckets(from, bucket);
          StartsBucket(buckets, entries[..i], e, from, bucket);
        }
        curIdx, started := idx, true;
        cur.Merge(e.tally);
        sum.Merge(e.tally);
      }
      NoBuckets(from, bucket);
      if started {
        ghost var last := Entry(from + curIdx * bucket, bucket, cur.Value());
        PointsMore(buckets, last);
        points := points + [PointOf(cur.Value(), from + curIdx * bucket, bucket)];
        buckets := buckets + [last];
      }
    }
    assert entries[..|entries|] == entries;
    total := sum.Value();
  }

  lemma EmptyPool()
    ensures Pool([]) == NOTHING && Points([]) == []
  {
  }

  lemma MergeNothing(a: Tally)
    requires Normal(a)
    ensures Merged(NOTHING, a) == a
  {
  }

  lemma NoBuckets(from: int, width: int)
    requires width > 0
    ensures Grouped([], [], from, width)
  {
  }

  lemma IndexOf(t: int, from: int, width: int)
    requires width > 0 && from <= t
    ensures var idx := (t - from) / width;
            BucketStart(t, from, width) == from + idx * width && from + idx * width <= t < from + idx * width + width
  {
    StartBounds(t, from, width);
  }

  lemma LaterIndex(a: int, b: int, from: int, width: int)
    requires width > 0 && from <= a <= b
    ensures var i, j := (a - from) / width, (b - from) / width;
            i <= j && (i < j ==> from + i * width + width <= b)
  {
    var i, j := (a - from) / width, (b - from) / width;
    IndexOf(a, from, width);
    IndexOf(b, from, width);
    assert i > j ==> i * width >= (j + 1) * width == j * width + width;
    assert i < j ==> j * width >= (i + 1) * width == i * width + width;
  }

  // ----------------------------------------------- what grouping preserves

  function EndOf(buckets: seq<Entry>, k: nat, from: int, width: int): int
    requires k <= |buckets|
  {
    if k == 0 then from else buckets[k - 1].t + width
  }

  /** Between two buckets there are no entries. */
  lemma NothingBetween(buckets: seq<Entry>, s: seq<Entry>, from: int, width: int, k: nat)
    requires width > 0 && Grouped(buckets, s, from, width) && k < |buckets|
    ensures from <= EndOf(buckets, k, from, width) <= buckets[k].t
    ensures Within(s, EndOf(buckets, k, from, width), buckets[k].t) == []
  {
    hide Within, Pool;
    var end := EndOf(buckets, k, from, width);
    assert BucketOk(buckets[k], s, from, width);
    if k > 0 {
      assert BucketOk(buckets[k - 1], s, from, width);
      AlignedStarts(buckets[k - 1], buckets[k], s, from, width);
    }
    forall i | 0 <= i < |s| ensures s[i].t < end || buckets[k].t <= s[i].t {
      assert Covered(buckets, s[i].t, width);
      var j :| 0 <= j < |buckets| && buckets[j].t <= s[i].t < buckets[j].t + width;
      assert j < k - 1 ==> buckets[j].t < buckets[k - 1].t;
      assert j > k ==> buckets[k].t < buckets[j].t;
    }
    WithinNone(s, end, buckets[k].t);
  }

  lemma {:induction false} PrefixConserves(buckets: seq<Entry>, s: seq<Entry>, from: int, width: int, k: nat)
    requires width > 0 && Grouped(buckets, s, from, width) && AllNormal(s) && k <= |buckets|
    ensures from <= EndOf(buckets, k, from, width)
    ensures Pool(buckets[..k]) == Pool(Within(s, from, EndOf(buckets, k, from, width)))
    decreases k
  {
    hide Within, Pool, Grouped, Merged, Normal, AllNormal;
    if k == 0 {
      NoneInEmptyRange(s, from);
      assert buckets[..0] == [];
    } else {
      var b := buckets[k - 1];
      PrefixConserves(buckets, s, from, width, k - 1);
      NothingBetween(buckets, s, from, width, k - 1);
      var end := EndOf(buckets, k - 1, from, width);
      PoolCut(s, from, end, b.t + width);
      PoolCut(s, end, b.t, b.t + width);
      BucketTally(buckets, s, from, width, k - 1);
      WithinNormal(s, b.t, b.t + width);
      EmptyPool();
      MergeNothing(b.tally);
      assert buckets[..k] == buckets[..k - 1] + [b];
      PoolMore(buckets[..k - 1], b);
    }
  }

  lemma BucketTally(buckets: seq<Entry>, s: seq<Entry>, from: int, width: int, k: nat)
    requires width > 0 && Grouped(buckets, s, from, width) && k < |buckets|
    ensures buckets[k].tally == Pool(Within(s, buckets[k].t, buckets[k].t + width))
  {
    assert BucketOk(buckets[k], s, from, width);
  }

  lemma NoneInEmptyRange(s: seq<Entry>, from: int)
    ensures Within(s, from, from) == []
  {
    WithinNone(s, from, from);
  }

  /** Merging the buckets gives what merging all the entries gives. */
  lemma GroupingConserves(buckets: seq<Entry>, s: seq<Entry>, from: int, width: int)
    requires width > 0 && Grouped(buckets, s, from, width) && AllNormal(s)
    requires forall i :: 0 <= i < |s| ==> from <= s[i].t
    ensures Pool(buckets) == Pool(s)
  {
    hide Within, Pool, BucketOk, AllNormal;
    var n := |buckets|;
    PrefixConserves(buckets, s, from, width, n);
    assert buckets[..n] == buckets;
    var end := EndOf(buckets, n, from, width);
    forall i | 0 <= i < |s| ensures from <= s[i].t < end {
      assert Covered(buckets, s[i].t, width);
      var j :| 0 <= j < |buckets| && buckets[j].t <= s[i].t < buckets[j].t + width;
      assert j < n - 1 ==> buckets[j].t < buckets[n - 1].t;
    }
    WithinAll(s, from, end);
  }

  lemma {:induction false} BucketsSpread(buckets: seq<Entry>, s: seq<Entry>, from: int, width: int, k: nat)
    requires width > 0 && Grouped(buckets, s, from, width) && k < |buckets|
    ensures buckets[k].t >= from + k * width
  {
    hide Within, Pool;
    assert BucketOk(buckets[k], s, from, width);
    if k > 0 {
      BucketsSpread(buckets, s, from, width, k - 1);
      assert BucketOk(buckets[k - 1], s, from, width);
      AlignedStarts(buckets[k - 1], buckets[k], s, from, width);
      assert k * width == (k - 1) * width + width;
    }
  }

  /** With the bucket width the chart uses, a series has at most as many points as asked for. */
  lemma AtMostMaxPoints(buckets: seq<Entry>, s: seq<Entry>, from: int, to: int, maxPoints: nat)
    requires maxPoints > 0 && from <= to
    requires Grouped(buckets, s, from, (to - from) / maxPoints + 1)
    requires forall i :: 0 <= i < |s| ==> s[i].t <= to
    ensures |buckets| <= maxPoints
  {
    hide Pool;
    var width := (to - from) / maxPoints + 1;
    if buckets != [] {
      var k := |buckets| - 1;
      BucketsSpread(buckets, s, from, width, k);
      assert BucketOk(buckets[k], s, from, width);
      var i := SomeWithin(s, buckets[k].t, buckets[k].t + width);
      WidthCovers(from, to, maxPoints, k);
    }
  }

  lemma WidthCovers(from: int, to: int, maxPoints: nat, k: nat)
    requires maxPoints > 0 && from <= to && from + k * ((to - from) / maxPoints + 1) <= to
    ensures k < maxPoints
  {
    var q := (to - from) / maxPoints;
    assert to - from == q * maxPoints + (to - from) % maxPoints;
    assert to - from < (q + 1) * maxPoints;
    assert k >= maxPoints ==> k * (q + 1) >= maxPoints * (q + 1);
  }

  // ----------------------------------------------------- hours from rollups

  function RollupEntry(hour: int, lr: LocationRollup): Entry {
    var measured := if lr.measured == 0 && lr.avgMs > 0.0 then lr.success else lr.measured;
    Entry(hour, 3600,
          if measured == 0 then Tally(lr.total, lr.failure, 0, 0.0, 0.0, 0.0)
          else Tally(lr.total, lr.failure, measured, lr.avgMs * measured as real,
                     if lr.maxMs == 0 then lr.avgMs else lr.minMs as real,
                     if lr.maxMs == 0 then lr.avgMs else lr.maxMs as real))
  }

  /** A single raw check. */
  function EntryOf(x: Sample): Entry {
    Entry(x.ts, 0,
          if x.fail then Tally(1, 1, 0, 0.0, 0.0, 0.0)
          else if x.detail.Some? then
            var ms := x.detail.value.ms as real;
            Tally(1, 0, 1, ms, ms, ms)
          else Tally(1, 0, 0, 0.0, 0.0, 0.0))
  }

  function EntriesOf(s: seq<Sample>): seq<Entry> {
    seq(|s|, i requires 0 <= i < |s| => EntryOf(s[i]))
  }

  ghost predicate IsGreatest(x: int, ms: seq<int>) {
    x in ms && forall y :: y in ms ==> y <= x
  }

  /** The least response time is `lo`, the greatest `hi`. */
  ghost predicate RangesOver(p: Tally, ms: seq<int>, lo: int, hi: int) {
    IsLeast(lo, ms) && IsGreatest(hi, ms) && p.min == lo as real && p.max == hi as real
  }

  /** What the raw checks of `s` add up to. */
  ghost predicate AddsUp(p: Tally, s: seq<Sample>) {
    var ms := Measures(s);
    && p.checks == |s| && p.failed == Failures(s) && p.okCount == |ms| && p.sum == Sum(ms) as real && Normal(p)
    && (ms != [] ==> exists lo, hi :: RangesOver(p, ms, lo, hi))
  }

  lemma {:induction false} RawPool(s: seq<Sample>)
    ensures AddsUp(Pool(EntriesOf(s)), s)
    decreases |s|
  {
    hide AddsUp, Pool, Merged, EntryOf;
    if s == [] {
      assert EntriesOf(s) == [];
      NothingAdds();
    } else {
      var r, x := s[..|s| - 1], s[|s| - 1];
      RawPool(r);
      assert EntriesOf(s) == EntriesOf(r) + [EntryOf(x)];
      PoolMore(EntriesOf(r), EntryOf(x));
      assert s == r + [x];
      AddsMore(Pool(EntriesOf(r)), r, x);
    }
  }

  lemma NothingAdds()
    ensures AddsUp(Pool([]), [])
  {
  }

  lemma MeasuresMore(s: seq<Sample>, x: Sample)
    ensures Measures(s + [x]) == Measures(s) + if !x.fail && x.detail.Some? then [x.detail.value.ms] else []
    ensures Failures(s + [x]) == Failures(s) + if x.fail then 1 else 0
  {
    assert (s + [x])[..|s|] == s;
  }

  lemma SumMore(ms: seq<int>, v: int)
    ensures Sum(ms + [v]) == Sum(ms) + v
  {
    assert (ms + [v])[..|ms|] == ms;
  }

  lemma AddsMore(p: Tally, s: seq<Sample>, x: Sample)
    requires AddsUp(p, s)
    ensures AddsUp(Merged(p, EntryOf(x).tally), s + [x])
  {
    MeasuresMore(s, x);
    MeasureMore(Measures(s), p, x);
    hide Measures, Failures, Sum, RangesOver;
    if !x.fail && x.detail.Some? {
      SumMore(Measures(s), x.detail.value.ms);
    } else {
      assert Measures(s) + [] == Measures(s);
    }
  }

  lemma MeasureMore(ms: seq<int>, p: Tally, x: Sample)
    requires p.okCount == |ms| && Normal(p)
    requires ms != [] ==> exists lo, hi :: RangesOver(p, ms, lo, hi)
    ensures var now := ms + if !x.fail && x.detail.Some? then [x.detail.value.ms] else [];
            var q := Merged(p, EntryOf(x).tally);
            now != [] ==> exists lo, hi :: RangesOver(q, now, lo, hi)
  {
    var q := Merged(p, EntryOf(x).tally);
    var now := ms + if !x.fail && x.detail.Some? then [x.detail.value.ms] else [];
    if ms == [] {
      if now != [] {
        var v := x.detail.value.ms;
        assert now == [v];
        assert RangesOver(q, now, v, v);
      }
    } else {
      var lo, hi :| RangesOver(p, ms, lo, hi);
      if |now| > |ms| {
        var v := x.detail.value.ms;
        assert v in now && forall y :: y in now ==> y in ms || y == v;
        assert lo in now && hi in now;
        var l, h := if v < lo then v else lo, if v > hi then v else hi;
        assert RangesOver(q, now, l, h);
      } else {
        assert now == ms;
        assert RangesOver(q, now, lo, hi);
      }
    }
  }

  /** An hour's stored rollup stands for exactly what its raw checks add up to. */
  lemma RollupStandsForItsChecks(hour: int, lr: LocationRollup, s: seq<Sample>)
    requires RollsUp(lr, s) && forall y :: y in Measures(s) ==> y >= 0
    ensures RollupEntry(hour, lr).tally == Pool(EntriesOf(s))
  {
    hide Pool, HourRuns, Failures, Measures;
    RawPool(s);
    var ms := Measures(s);
    if ms != [] {
      var p := Pool(EntriesOf(s));
      var lo, hi :| RangesOver(p, ms, lo, hi);
      assert lr.minMs == lo;
      assert lr.maxMs == hi;
      if hi == 0 {
        forall i | 0 <= i < |ms| ensures ms[i] == 0 {
          assert ms[i] in ms;
        }
        SumOfZeros(ms);
      }
    }
  }

  lemma {:induction false} SumOfZeros(ms: seq<int>)
    requires forall i :: 0 <= i < |ms| ==> ms[i] == 0
    ensures Sum(ms) == 0
    decreases |ms|
  {
    if ms != [] {
      SumOfZeros(ms[..|ms| - 1]);
    }
  }

  // ------------------------------------------------------ choosing a source

  /** One location's raw checks of one hour: those inside the range, and how many the hour holds in all. */
  datatype RawHour = RawHour(entries: seq<Entry>, total: nat)

  /** `e` is one of the hour's checks inside the range. */
  predicate IsRaw(e: Entry, reading: Reading, from: int, to: int)
    requires reading.Read?
  {
    e.t in reading.failing && from <= e.t <= to && e == EntryOf(SampleAt(reading, e.t))
  }

  ghost predicate RawHourOf(rh: RawHour, reading: Reading, from: int, to: int)
    requires reading.Read?
  {
    && rh.total == |reading.failing|
    && (forall e :: multiset(rh.entries)[e] == if IsRaw(e, reading, from, to) then 1 else 0)
    && ((forall ts :: ts in reading.failing ==> from <= ts <= to) ==> |rh.entries| == rh.total)
  }

  method ReadHour(reading: Reading, from: int, to: int) returns (rh: RawHour)
    requires reading.Read?
    ensures RawHourOf(rh, reading, from, to)
  {
    hide EntryOf;
    var entries: seq<Entry> := [];
    var left := reading.failing.Keys;
    while left != {}
      invariant left <= reading.failing.Keys
      invariant forall e :: multiset(entries)[e] == if IsRaw(e, reading, from, to) && e.t !in left then 1 else 0
      invariant |entries| <= |reading.failing| - |left|
      invariant (forall ts :: ts in reading.failing ==> from <= ts <= to) ==> |entries| == |reading.failing| - |left|
      decreases left
    {
      var ts := Pick(left);
      if from <= ts <= to {
        EntryTime(SampleAt(reading, ts));
        entries := entries + [EntryOf(SampleAt(reading, ts))];
      }
      left := left - {ts};
    }
    rh := RawHour(entries, |reading.failing|);
  }

  lemma EntryTime(x: Sample)
    ensures EntryOf(x).t == x.ts && Normal(EntryOf(x).tally)
  {
  }

  /** The hours a read of [from, to] asks for. */
  predicate Asked(h: int, from: int, to: int) {
    h % HOUR == 0 && HourStart(from) <= h <= to
  }

  /** What a read that succeeds gives. */
  ghost predicate RawOf(raw: map<int, RawHour>, readings: int -> Reading, from: int, to: int) {
    && (forall h :: Asked(h, from, to) ==> readings(h).Read?)
    && (forall h :: h in raw <==> Asked(h, from, to) && readings(h).Read? && readings(h).failing != map[])
    && (forall h :: h in raw ==> readings(h).Read? && RawHourOf(raw[h], readings(h), from, to))
  }

  /** The location's raw checks, hour by hour; none at all when any hour cannot be read. */
  method RawEntries(readings: int -> Reading, from: int, to: int) returns (raw: map<int, RawHour>, err: bool)
    ensures err <==> exists h :: Asked(h, from, to) && readings(h).Unreadable?
    ensures if err then raw == map[] else RawOf(raw, readings, from, to)
  {
    hide RawSoFar, Asked;
    raw := map[];
    var h := HourStart(from);
    NothingRead(readings, from, to);
    while h <= to
      invariant h % HOUR == 0 && HourStart(from) <= h && RawSoFar(raw, readings, from, to, h)
      decreases (to - h)
    {
      if readings(h).Unreadable? {
        NowAsked(h, from, to);
        return map[], true;
      }
      ghost var before := raw;
      if readings(h).failing != map[] {
        var rh := ReadHour(readings(h), from, to);
        raw := raw[h := rh];
      }
      ReadOne(before, raw, readings, from, to, h);
      h := h + HOUR;
    }
    EverythingRead(raw, readings, from, to, h);
    err := false;
  }

  /** What the hours before `h` gave. */
  ghost predicate RawSoFar(raw: map<int, RawHour>, readings: int -> Reading, from: int, to: int, h: int) {
    && (forall g :: Asked(g, from, to) && g < h ==> readings(g).Read?)
    && (forall g :: g in raw <==> Asked(g, from, to) && g < h && readings(g).Read? && readings(g).failing != map[])
    && (forall g :: g in raw ==> readings(g).Read? && RawHourOf(raw[g], readings(g), from, to))
  }

  lemma NowAsked(h: int, from: int, to: int)
    requires h % HOUR == 0 && HourStart(from) <= h <= to
    ensures Asked(h, from, to)
  {
  }

  lemma NothingRead(readings: int -> Reading, from: int, to: int)
    ensures RawSoFar(map[], readings, from, to, HourStart(from))
  {
  }

  lemma ReadOne(before: map<int, RawHour>, raw: map<int, RawHour>, readings: int -> Reading, from: int, to: int, h: int)
    requires RawSoFar(before, readings, from, to, h) && readings(h).Read?
    requires h % HOUR == 0 && HourStart(from) <= h <= to
    requires if readings(h).failing == map[] then raw == before
             else h in raw && raw == before[h := raw[h]] && RawHourOf(raw[h], readings(h), from, to)
    ensures RawSoFar(raw, readings, from, to, h + HOUR)
  {
    hide RawHourOf;
    NowAsked(h, from, to);
    forall g | Asked(g, from, to) && g < h + HOUR ensures g < h || g == h {
      assert g % HOUR == 0;
    }
  }

  lemma EverythingRead(raw: map<int, RawHour>, readings: int -> Reading, from: int, to: int, h: int)
    requires RawSoFar(raw, readings, from, to, h) && h > to
    ensures RawOf(raw, readings, from, to)
    ensures forall g :: Asked(g, from, to) ==> readings(g).Read?
  {
    hide RawHourOf;
  }

  predicate HasRollup(rollups: Hours, name: string, h: int) {
    h in rollups && name in rollups[h].perLocation
  }

  /** The hour's rollup is used rather than its raw checks. */
  predicate UsesRollup(raw: map<int, RawHour>, rollups: Hours, name: string, from: int, settled: int, h: int)
    requires HasRollup(rollups, name, h)
  {
    h >= from && (h !in raw || (h < settled && rollups[h].perLocation[name].total > raw[h].total))
  }

  /** What an hour contributes: its rollup or its raw checks, never both. */
  function Chosen(raw: map<int, RawHour>, rollups: Hours, name: string, from: int, settled: int, h: int): seq<Entry> {
    if HasRollup(rollups, name, h) && UsesRollup(raw, rollups, name, from, settled, h)
    then [RollupEntry(h, rollups[h].perLocation[name])]
    else if h in raw then raw[h].entries else []
  }

  /** Rollups are of whole hours, and raw checks lie in their hour. */
  ghost predicate InPlace(raw: map<int, RawHour>, rollups: Hours) {
    && (forall h :: h in rollups ==> h % HOUR == 0)
    && (forall h, i :: h in raw && 0 <= i < |raw[h].entries| ==> HourStart(raw[h].entries[i].t) == h)
  }

  /** `entries` holds what the hours in `taken` contribute, and nothing else. */
  ghost predicate Took(entries: seq<Entry>, raw: map<int, RawHour>, rollups: Hours, name: string, from: int,
      settled: int, taken: set<int>) {
    forall e :: multiset(entries)[e] ==
      if HourStart(e.t) in taken then multiset(Chosen(raw, rollups, name, from, settled, HourStart(e.t)))[e] else 0
  }

  lemma ChosenInPlace(raw: map<int, RawHour>, rollups: Hours, name: string, from: int, settled: int, h: int)
    requires InPlace(raw, rollups)
    ensures forall i :: 0 <= i < |Chosen(raw, rollups, name, from, settled, h)| ==>
              HourStart(Chosen(raw, rollups, name, from, settled, h)[i].t) == h
  {
  }

  lemma TakeHour(entries: seq<Entry>, raw: map<int, RawHour>, rollups: Hours, name: string, from: int, settled: int,
      taken: set<int>, h: int)
    requires InPlace(raw, rollups) && Took(entries, raw, rollups, name, from, settled, taken) && h !in taken
    ensures Took(entries + Chosen(raw, rollups, name, from, settled, h), raw, rollups, name, from, settled, taken + {h})
  {
    hide Chosen, HourStart, InPlace;
    var more := Chosen(raw, rollups, name, from, settled, h);
    ChosenInPlace(raw, rollups, name, from, settled, h);
    forall e ensures multiset(entries + more)[e] ==
      if HourStart(e.t) in taken + {h} then multiset(Chosen(raw, rollups, name, from, settled,
          HourStart(e.t)))[e] else 0
    {
      assert e in more <==> e in multiset(more);
      assert multiset(entries + more) == multiset(entries) + multiset(more);
    }
  }

  lemma SkipHour(entries: seq<Entry>, raw: map<int, RawHour>, rollups: Hours, name: string, from: int, settled: int,
      taken: set<int>, h: int)
    requires Took(entries, raw, rollups, name, from, settled, taken)
    requires Chosen(raw, rollups, name, from, settled, h) == [] && h !in taken
    ensures Took(entries, raw, rollups, name, from, settled, taken + {h})
  {
    hide Chosen, HourStart;
  }

  /** The entries of one location, in time order: each hour's contribution exactly once. */
  ghost predicate Sourced(entries: seq<Entry>, raw: map<int, RawHour>, rollups: Hours, name: string, from: int,
      settled: int) {
    && (forall e :: multiset(entries)[e] == multiset(Chosen(raw, rollups, name, from, settled, HourStart(e.t)))[e])
    && (forall i, j :: 0 <= i < j < |entries| ==> entries[i].t <= entries[j].t)
  }

  lemma TookAll(entries: seq<Entry>, raw: map<int, RawHour>, rollups: Hours, name: string, from: int, settled: int,
      taken: set<int>)
    requires Took(entries, raw, rollups, name, from, settled, taken)
    requires forall h :: h !in taken ==> Chosen(raw, rollups, name, from, settled, h) == []
    ensures forall e :: multiset(entries)[e] == multiset(Chosen(raw, rollups, name, from, settled, HourStart(e.t)))[e]
  {
    hide Chosen, HourStart;
  }

  method LocationEntries(raw: map<int, RawHour>, rollups: Hours, name: string, from: int, settled: int)
      returns (entries: seq<Entry>)
    requires InPlace(raw, rollups)
    ensures Sourced(entries, raw, rollups, name, from, settled)
  {
    hide Took, InPlace, RollupEntry, HourStart;
    entries := [];
    ghost var taken: set<int> := {};
    TookNothing(raw, rollups, name, from, settled);
    var left := raw.Keys;
    while left != {}
      invariant left <= raw.Keys && Took(entries, raw, rollups, name, from, settled, taken)
      invariant forall h :: h in taken <==> h in raw && h !in left && !HasRollup(rollups, name, h)
      decreases left
    {
      var hour := Pick(left);
      if !(hour in rollups && name in rollups[hour].perLocation) {
        TakeHour(entries, raw, rollups, name, from, settled, taken, hour);
        taken := taken + {hour};
        entries := entries + raw[hour].entries;
      }
      left := left - {hour};
    }
    left := rollups.Keys;
    while left != {}
      invariant left <= rollups.Keys && Took(entries, raw, rollups, name, from, settled, taken)
      invariant forall h :: h in taken <==> if HasRollup(rollups, name, h) then h !in left else h in raw
      decreases left
    {
      var hour := Pick(left);
      if name in rollups[hour].perLocation {
        var lr := rollups[hour].perLocation[name];
        var useRollup := hour >= from && (hour !in raw || (hour < settled && lr.total > raw[hour].total));
        if useRollup {
          TakeHour(entries, raw, rollups, name, from, settled, taken, hour);
          entries := entries + [RollupEntry(hour, lr)];
        } else if hour in raw {
          TakeHour(entries, raw, rollups, name, from, settled, taken, hour);
          entries := entries + raw[hour].entries;
        } else {
          SkipHour(entries, raw, rollups, name, from, settled, taken, hour);
        }
        taken := taken + {hour};
      }
      left := left - {hour};
    }
    TookAll(entries, raw, rollups, name, from, settled, taken);
    ByTimeTotal();
    ghost var unsorted := entries;
    entries := Sort(entries, ByTime);
    assert multiset(entries) == multiset(unsorted);
  }

  lemma TookNothing(raw: map<int, RawHour>, rollups: Hours, name: string, from: int, settled: int)
    ensures Took([], raw, rollups, name, from, settled, {})
  {
  }

  lemma ByTimeTotal()
    ensures TotalPreorder(ByTime)
  {
  }

  // -------------------------------------------------- what the sources count

  /** Raw checks are single checks inside the range. */
  ghost predicate RawFine(raw: map<int, RawHour>, from: int, to: int) {
    forall h, i :: h in raw && 0 <= i < |raw[h].entries| ==> SingleCheck(raw[h].entries[i], from, to)
  }

  predicate SingleCheck(e: Entry, from: int, to: int) {
    from <= e.t <= to && Normal(e.tally) && e.tally.checks == 1
  }

  ghost predicate ReadingsInPlace(readings: int -> Reading) {
    forall h, ts :: h % HOUR == 0 && readings(h).Read? && ts in readings(h).failing ==> HourStart(ts) == h
  }

  predicate RollupsInRange(rollups: Hours, from: int, to: int) {
    forall h :: h in rollups ==> Asked(h, from, to)
  }

  lemma RawIsFine(raw: map<int, RawHour>, readings: int -> Reading, rollups: Hours, from: int, to: int)
    requires raw == map[] || RawOf(raw, readings, from, to)
    requires ReadingsInPlace(readings) && RollupsInRange(rollups, from, to)
    ensures RawFine(raw, from, to) && InPlace(raw, rollups)
  {
    hide HourStart, EntryOf;
    forall h, i | h in raw && 0 <= i < |raw[h].entries|
      ensures SingleCheck(raw[h].entries[i], from, to) && HourStart(raw[h].entries[i].t) == h
    {
      var e := raw[h].entries[i];
      assert RawHourOf(raw[h], readings(h), from, to);
      assert e in multiset(raw[h].entries);
      assert IsRaw(e, readings(h), from, to);
      OneCheck(SampleAt(readings(h), e.t));
    }
  }

  lemma OneCheck(x: Sample)
    ensures EntryOf(x).t == x.ts && Normal(EntryOf(x).tally) && EntryOf(x).tally.checks == 1
  {
  }

  /** Everything a location's series is made of lies in the range. */
  lemma SourcedInRange(entries: seq<Entry>, raw: map<int, RawHour>, rollups: Hours, name: string, from: int, to: int,
      settled: int)
    requires Sourced(entries, raw, rollups, name, from, settled) && RawFine(raw, from, to) &&
        RollupsInRange(rollups, from, to)
    ensures AllNormal(entries) && forall i :: 0 <= i < |entries| ==> from <= entries[i].t <= to
  {
    hide HourStart;
    forall i | 0 <= i < |entries| ensures Normal(entries[i].tally) && from <= entries[i].t <= to {
      var e := entries[i];
      var own := Chosen(raw, rollups, name, from, settled, HourStart(e.t));
      assert e in multiset(entries);
      assert e in own <==> e in multiset(own);
    }
  }

  lemma {:induction false} PoolOfSingles(s: seq<Entry>, from: int, to: int)
    requires forall i :: 0 <= i < |s| ==> SingleCheck(s[i], from, to)
    ensures Pool(s).checks == |s|
    decreases |s|
  {
    if s != [] {
      PoolOfSingles(s[..|s| - 1], from, to);
    }
  }

  function RawCount(raw: map<int, RawHour>, h: int): nat {
    if h in raw then raw[h].total else 0
  }

  function RollupCount(rollups: Hours, name: string, h: int): nat {
    if HasRollup(rollups, name, h) then rollups[h].perLocation[name].total else 0
  }

  lemma HourOfSeries(entries: seq<Entry>, raw: map<int, RawHour>, rollups: Hours, name: string, from: int,
      settled: int, h: int)
    requires Sourced(entries, raw, rollups, name, from, settled) && h % HOUR == 0 && InPlace(raw, rollups)
    ensures multiset(Within(entries, h, h + HOUR)) == multiset(Chosen(raw, rollups, name, from, settled, h))
  {
    hide Chosen, Within, InPlace;
    var own := Chosen(raw, rollups, name, from, settled, h);
    ChosenInPlace(raw, rollups, name, from, settled, h);
    forall e ensures multiset(Within(entries, h, h + HOUR))[e] == multiset(own)[e] {
      WithinCounts(entries, h, h + HOUR, e);
      InHour(e.t, h);
      assert e in own <==> e in multiset(own);
    }
  }

  lemma InHour(t: int, h: int)
    requires h % HOUR == 0
    ensures HourStart(t) == h <==> h <= t < h + HOUR
  {
  }

  /**
   * A settled hour fully inside the range is counted once, from whichever of
   * its raw checks and its stored rollup counts more.
   */
  lemma SettledHourCountsTheLarger(entries: seq<Entry>, raw: map<int, RawHour>, readings: int -> Reading,
                                   rollups: Hours, name: string, from: int, to: int, h: int)
    requires raw == map[] || RawOf(raw, readings, from, to)
    requires ReadingsInPlace(readings) && RollupsInRange(rollups, from, to)
    requires Sourced(entries, raw, rollups, name, from, HourStart(to) - HOUR)
    requires h % HOUR == 0 && from <= h < HourStart(to) - HOUR
    ensures var own := Within(entries, h, h + HOUR);
            && Pool(own).checks == Max(RawCount(raw, h), RollupCount(rollups, name, h))
            && (if RollupCount(rollups, name, h) > RawCount(raw, h)
                then own == [RollupEntry(h, rollups[h].perLocation[name])]
                else h in raw ==> multiset(own) == multiset(raw[h].entries))
  {
    hide Within, Pool, RollupEntry, RawHourOf, HourStart, Merged, IsRaw;
    hide Sourced, RawOf, RollupsInRange, ReadingsInPlace, InPlace, RawFine, AllNormal, Normal;
    RawIsFine(raw, readings, rollups, from, to);
    SourcedInRange(entries, raw, rollups, name, from, to, HourStart(to) - HOUR);
    HourOfSeries(entries, raw, rollups, name, from, HourStart(to) - HOUR, h);
    var own, chosen := Within(entries, h, h + HOUR), Chosen(raw, rollups, name, from, HourStart(to) - HOUR, h);
    WithinNormal(entries, h, h + HOUR);
    ChosenNormal(raw, rollups, name, from, to, h);
    PoolPermuted(own, chosen);
    if HasRollup(rollups, name, h) && UsesRollup(raw, rollups, name, from, HourStart(to) - HOUR, h) {
      OneRollup(own, h, rollups[h].perLocation[name]);
    } else if h in raw {
      FinePool(raw, from, to, h);
      WholeHour(raw, readings, from, to, h);
    } else {
      EmptyPool();
    }
  }

  lemma FinePool(raw: map<int, RawHour>, from: int, to: int, h: int)
    requires RawFine(raw, from, to) && h in raw
    ensures Pool(raw[h].entries).checks == |raw[h].entries|
  {
    hide Pool, SingleCheck;
    PoolOfSingles(raw[h].entries, from, to);
  }

  lemma ChosenNormal(raw: map<int, RawHour>, rollups: Hours, name: string, from: int, to: int, h: int)
    requires RawFine(raw, from, to)
    ensures AllNormal(Chosen(raw, rollups, name, from, HourStart(to) - HOUR, h))
  {
  }

  lemma OneRollup(own: seq<Entry>, h: int, lr: LocationRollup)
    requires multiset(own) == multiset([RollupEntry(h, lr)])
    ensures own == [RollupEntry(h, lr)] && Pool(own).checks == lr.total
  {
    var e := RollupEntry(h, lr);
    assert |own| == |multiset(own)| == 1;
    assert own[0] in multiset(own);
    assert own == [e];
    SinglePool(e);
  }

  lemma WholeHour(raw: map<int, RawHour>, readings: int -> Reading, from: int, to: int, h: int)
    requires RawOf(raw, readings, from, to) && ReadingsInPlace(readings)
    requires h in raw && h % HOUR == 0 && from <= h < HourStart(to) - HOUR
    ensures |raw[h].entries| == raw[h].total
  {
    hide IsRaw;
    forall ts | ts in readings(h).failing ensures from <= ts <= to {
      InHour(ts, h);
    }
    assert RawHourOf(raw[h], readings(h), from, to);
  }

  // ---------------------------------------------------------- the whole chart

  function EntriesAt(byLocation: map<string, seq<Entry>>, name: string): seq<Entry> {
    if name in byLocation then byLocation[name] else []
  }

  /** A location that could not be read counts as one without raw checks. */
  ghost predicate LocationDone(name: string, raws: map<string, map<int, RawHour>>, byLocation: map<string, seq<Entry>>,
                               readings: string -> (int -> Reading), rollups: Hours, from: int, to: int) {
    && name in raws
    && (if exists h :: Asked(h, from, to) && readings(name)(h).Unreadable? then raws[name] == map[]
        else RawOf(raws[name], readings(name), from, to))
    && Sourced(EntriesAt(byLocation, name), raws[name], rollups, name, from, HourStart(to) - HOUR)
  }

  /** The points show the entries one by one, or in buckets of the given width. */
  ghost predicate Shows(points: seq<Point>, entries: seq<Entry>, from: int, bucket: int) {
    exists buckets :: points == Points(buckets) &&
                      (if bucket <= 0 then buckets == entries else Grouped(buckets, entries, from, bucket))
  }

  ghost predicate Ready(byLocation: map<string, seq<Entry>>, from: int, to: int) {
    forall name :: name in byLocation ==> byLocation[name] != [] && SeriesReady(byLocation[name], from, to)
  }

  ghost predicate SeriesReady(entries: seq<Entry>, from: int, to: int) {
    && AllNormal(entries) && (forall i :: 0 <= i < |entries| ==> from <= entries[i].t <= to)
    && (forall i, j :: 0 <= i < j < |entries| ==> entries[i].t <= entries[j].t)
  }

  /** What each location's entries are. */
  method Gather(rollups: Hours, names: seq<string>, readings: string -> (int -> Reading), from: int, to: int)
    returns (byLocation: map<string, seq<Entry>>, ghost raws: map<string, map<int, RawHour>>)
    requires RollupsInRange(rollups, from, to) && forall name :: ReadingsInPlace(readings(name))
    ensures forall i :: 0 <= i < |names| ==> LocationDone(names[i], raws, byLocation, readings, rollups, from, to)
    ensures Ready(byLocation, from, to)
  {
    hide RollupsInRange, ReadingsInPlace, Sourced, RawOf, RawFine, InPlace, HourStart, AllNormal, Asked;
    byLocation, raws := map[], map[];
    for i := 0 to |names|
      invariant forall k :: 0 <= k < i ==> LocationDone(names[k], raws, byLocation, readings, rollups, from, to)
      invariant Ready(byLocation, from, to)
    {
      var name := names[i];
      var raw, err := RawEntries(readings(name), from, to);
      RawIsFine(raw, readings(name), rollups, from, to);
      var entries := LocationEntries(raw, rollups, name, from, HourStart(to) - HOUR);
      SourcedInRange(entries, raw, rollups, name, from, to, HourStart(to) - HOUR);
      SourcedSorted(entries, raw, rollups, name, from, HourStart(to) - HOUR);
      ghost var was, wasRaws := byLocation, raws;
      raws := raws[name := raw];
      byLocation := if entries != [] then byLocation[name := entries] else byLocation - {name};
      forall k | 0 <= k < i ensures LocationDone(names[k], raws, byLocation, readings, rollups, from, to) {
        assert LocationDone(names[k], wasRaws, was, readings, rollups, from, to);
      }
    }
  }

  lemma SourcedSorted(entries: seq<Entry>, raw: map<int, RawHour>, rollups: Hours, name: string, from: int,
      settled: int)
    requires Sourced(entries, raw, rollups, name, from, settled)
    ensures forall i, j :: 0 <= i < j < |entries| ==> entries[i].t <= entries[j].t
  {
    hide Chosen;
  }

  /** One of the locations has more entries than the points asked for. */
  ghost predicate TooMany(byLocation: map<string, seq<Entry>>, names: set<string>, maxPoints: int) {
    exists name :: name in names && name in byLocation && 0 < maxPoints < |byLocation[name]|
  }

  /** The series and the totals of every location, grouped when any has more entries than `maxPoints`. */
  method Latency(rollups: Hours, names: seq<string>, readings: string -> (int -> Reading), from: int, to: int,
      maxPoints: int)
    returns (bucket: int, series: map<string, seq<Point>>, stats: map<string, Point>,
             ghost byLocation: map<string, seq<Entry>>, ghost raws: map<string, map<int, RawHour>>)
    requires RollupsInRange(rollups, from, to) && forall name :: ReadingsInPlace(readings(name))
    ensures forall i :: 0 <= i < |names| ==> LocationDone(names[i], raws, byLocation, readings, rollups, from, to)
    ensures series.Keys == stats.Keys == byLocation.Keys
    ensures forall name :: name in byLocation ==>
              && Shows(series[name], byLocation[name], from, bucket)
              && stats[name] == PointOf(Pool(byLocation[name]), 0, 0)
    ensures bucket == if TooMany(byLocation, byLocation.Keys, maxPoints) then (to - from) / maxPoints + 1 else 0
    ensures maxPoints > 0 ==> forall name :: name in series ==> |series[name]| <= maxPoints
  {
    hide LocationDone, Shows, Pool, PointOf, SeriesReady, RollupsInRange, ReadingsInPlace;
    var found, r := Gather(rollups, names, readings, from, to);
    byLocation, raws := found, r;
    bucket := 0;
    var left := found.Keys;
    while left != {}
      invariant left <= found.Keys
      invariant bucket == if TooMany(found, found.Keys - left, maxPoints) then (to - from) / maxPoints + 1 else 0
      decreases left
    {
      var name := Pick(left);
      if maxPoints > 0 && |found[name]| > maxPoints {
        bucket := (to - from) / maxPoints + 1;
      }
      left := left - {name};
    }
    series, stats := map[], map[];
    left := found.Keys;
    while left != {}
      invariant left <= found.Keys && series.Keys == stats.Keys == found.Keys - left
      invariant forall name :: name in series ==>
                  && Shows(series[name], found[name], from, bucket)
                  && stats[name] == PointOf(Pool(found[name]), 0, 0)
      invariant maxPoints > 0 ==> forall name :: name in series ==> |series[name]| <= maxPoints
      decreases left
    {
      var name := Pick(left);
      SeriesIsReady(found[name], from, to);
      assert bucket > 0 ==> bucket == (to - from) / maxPoints + 1;
      var points, total, buckets := Series(found[name], from, bucket);
      ShownBy(points, buckets, found[name], from, bucket);
      PointsCount(buckets);
      if maxPoints > 0 && bucket > 0 {
        AtMostMaxPoints(buckets, found[name], from, to, maxPoints);
      }
      series := series[name := points];
      stats := stats[name := PointOf(total, 0, 0)];
      left := left - {name};
    }
  }

  lemma SeriesIsReady(entries: seq<Entry>, from: int, to: int)
    requires SeriesReady(entries, from, to)
    ensures AllNormal(entries) && (forall i :: 0 <= i < |entries| ==> from <= entries[i].t <= to)
    ensures forall i, j :: 0 <= i < j < |entries| ==> entries[i].t <= entries[j].t
    ensures entries != [] ==> from <= to
  {
    if entries != [] {
      assert from <= entries[0].t <= to;
    }
  }

  lemma ShownBy(points: seq<Point>, buckets: seq<Entry>, entries: seq<Entry>, from: int, bucket: int)
    requires bucket >= 0 && points == Points(buckets)
    requires if bucket == 0 then buckets == entries else Grouped(buckets, entries, from, bucket)
    ensures Shows(points, entries, from, bucket)
  {
    hide Points;
  }

  lemma PointsCount(buckets: seq<Entry>)
    ensures |Points(buckets)| == |buckets|
  {
  }
}
