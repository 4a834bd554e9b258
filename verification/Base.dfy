/** Small building blocks shared by every module. */
module Base {

  datatype Option<+T> = None | Some(value: T)

  /** What `m` holds for `k`, if anything. */
  function Lookup<K, V>(m: map<K, V>, k: K): Option<V> {
    if k in m then Some(m[k]) else None
  }

  /** `m` with `k` bound to `v`, or unbound when there is no value. */
  function Put<K, V>(m: map<K, V>, k: K, v: Option<V>): map<K, V> {
    if v.Some? then m[k := v.value] else m - {k}
  }

  /** Any member at all: the next key of a map visited in no particular order. */
  method Pick<T(==)>(s: set<T>) returns (x: T)
    requires s != {}
    ensures x in s
  {
    x :| x in s;
  }

  lemma SomeKey<K, V>(m: map<K, V>) returns (k: K)
    requires m != map[]
    ensures k in m
  {
    k :| k in m;
  }

  function Max(a: int, b: int): int {
    if a < b then b else a
  }
}

/** Sums of the values of a finite map. The order of summation does not matter. */
module Sums {

  ghost function Total<K>(m: map<K, int>): int {
    if m == map[] then 0
    else
      var k :| k in m;
      m[k] + Total(m - {k})
  }

  ghost function RealTotal<K>(m: map<K, real>): real {
    if m == map[] then 0.0
    else
      var k :| k in m;
      m[k] + RealTotal(m - {k})
  }

  /** Any key may be summed first. */
  lemma {:induction false} TotalPick<K>(m: map<K, int>, k: K)
    requires k in m
    ensures Total(m) == m[k] + Total(m - {k})
    decreases m
  {
    var p :| p in m && Total(m) == m[p] + Total(m - {p});
    if p != k {
      TotalPick(m - {p}, k);
      TotalPick(m - {k}, p);
      assert m - {p} - {k} == m - {k} - {p};
    }
  }

  lemma {:induction false} RealTotalPick<K>(m: map<K, real>, k: K)
    requires k in m
    ensures RealTotal(m) == m[k] + RealTotal(m - {k})
    decreases m
  {
    var p :| p in m && RealTotal(m) == m[p] + RealTotal(m - {p});
    if p != k {
      RealTotalPick(m - {p}, k);
      RealTotalPick(m - {k}, p);
      assert m - {p} - {k} == m - {k} - {p};
    }
  }

  lemma TotalPut<K>(m: map<K, int>, k: K, v: int)
    requires k !in m
    ensures Total(m[k := v]) == Total(m) + v
  {
    TotalPick(m[k := v], k);
    assert m[k := v] - {k} == m;
  }

  lemma RealTotalPut<K>(m: map<K, real>, k: K, v: real)
    requires k !in m
    ensures RealTotal(m[k := v]) == RealTotal(m) + v
  {
    RealTotalPick(m[k := v], k);
    assert m[k := v] - {k} == m;
  }

  /** One value raised raises the sum by as much. */
  lemma TotalBump<K>(before: map<K, int>, now: map<K, int>, k: K, more: int)
    requires k in before && now == before[k := before[k] + more]
    ensures Total(now) == Total(before) + more
  {
    TotalPick(now, k);
    TotalPick(before, k);
    assert now - {k} == before - {k};
  }

  /** Splitting the keys splits the sum. */
  lemma {:induction false} TotalSplit<K>(m: map<K, int>, keys: set<K>)
    requires keys <= m.Keys
    ensures Total(m) == Total(m - keys) + Total(m - (m.Keys - keys))
    decreases keys
  {
    if keys == {} {
      assert m - keys == m;
      assert m - (m.Keys - keys) == map[];
    } else {
      var k :| k in keys;
      var rest := m - {k};
      TotalSplit(rest, keys - {k});
      TotalPick(m, k);
      assert rest - (keys - {k}) == m - keys;
      var part := m - (m.Keys - keys);
      TotalPick(part, k);
      assert rest - (rest.Keys - (keys - {k})) == part - {k};
    }
  }

  lemma {:induction false} TotalNonNegative<K>(m: map<K, int>)
    requires forall k :: k in m ==> m[k] >= 0
    ensures Total(m) >= 0
    decreases m
  {
    if m != map[] {
      var k :| k in m;
      TotalPick(m, k);
      TotalNonNegative(m - {k});
    }
  }

  /** Keys bound to zero do not count. */
  lemma {:induction false} TotalSame<K>(a: map<K, int>, b: map<K, int>)
    requires forall k :: k in a ==> a[k] == if k in b then b[k] else 0
    requires forall k :: k in b && k !in a ==> b[k] == 0
    ensures Total(a) == Total(b)
    decreases a
  {
    if a == map[] {
      TotalZero(b);
    } else {
      var k :| k in a;
      TotalPick(a, k);
      if k in b {
        TotalPick(b, k);
      }
      TotalSame(a - {k}, b - {k});
      assert k !in b ==> b - {k} == b;
    }
  }

  lemma {:induction false} TotalZero<K>(m: map<K, int>)
    requires forall k :: k in m ==> m[k] == 0
    ensures Total(m) == 0
    decreases m
  {
    if m != map[] {
      var k :| k in m;
      TotalPick(m, k);
      TotalZero(m - {k});
    }
  }
}

/** Sorting, as the library sort is used here: by a total preorder, ties in any order. */
module Sorting {

  ghost predicate TotalPreorder<T(!new)>(leq: (T, T) -> bool) {
    && (forall a, b :: leq(a, b) || leq(b, a))
    && (forall a, b, c :: leq(a, b) && leq(b, c) ==> leq(a, c))
  }

  ghost predicate SortedBy<T>(s: seq<T>, leq: (T, T) -> bool) {
    forall i, j :: 0 <= i < j < |s| ==> leq(s[i], s[j])
  }

  /** Where `x` goes in a sorted list: after everything not above it. */
  method Position<T(!new)>(s: seq<T>, x: T, leq: (T, T) -> bool) returns (k: nat)
    requires TotalPreorder(leq) && SortedBy(s, leq)
    ensures k <= |s|
    ensures forall j :: 0 <= j < k ==> leq(s[j], x)
    ensures forall j :: k <= j < |s| ==> leq(x, s[j])
  {
    k := |s|;
    while k > 0 && !leq(s[k - 1], x)
      invariant 0 <= k <= |s|
      invariant forall j :: k <= j < |s| ==> leq(x, s[j])
    {
      k := k - 1;
    }
    if k > 0 {
      forall j | 0 <= j < k ensures leq(s[j], x) {
        assert j < k - 1 ==> leq(s[j], s[k - 1]);
      }
    }
  }

  lemma InsertSorted<T>(s: seq<T>, x: T, k: nat, leq: (T, T) -> bool)
    requires k <= |s| && SortedBy(s, leq)
    requires forall j :: 0 <= j < k ==> leq(s[j], x)
    requires forall j :: k <= j < |s| ==> leq(x, s[j])
    ensures SortedBy(s[..k] + [x] + s[k..], leq)
    ensures multiset(s[..k] + [x] + s[k..]) == multiset(s) + multiset{x}
  {
    var r := s[..k] + [x] + s[k..];
    forall i, j | 0 <= i < j < |r| ensures leq(r[i], r[j]) {
      assert r[i] == if i < k then s[i] else if i == k then x else s[i - 1];
      assert r[j] == if j < k then s[j] else if j == k then x else s[j - 1];
    }
    assert s == s[..k] + s[k..];
  }

  method Sort<T(!new)>(s: seq<T>, leq: (T, T) -> bool) returns (r: seq<T>)
    requires TotalPreorder(leq)
    ensures SortedBy(r, leq)
    ensures multiset(r) == multiset(s)
  {
    r := [];
    for i := 0 to |s|
      invariant SortedBy(r, leq)
      invariant multiset(r) == multiset(s[..i])
    {
      var k := Position(r, s[i], leq);
      InsertSorted(r, s[i], k, leq);
      assert s[..i + 1] == s[..i] + [s[i]];
      r := r[..k] + [s[i]] + r[k..];
    }
    assert s[..|s|] == s;
  }

  lemma FindIn<T>(s: seq<T>, x: T) returns (k: nat)
    requires x in multiset(s)
    ensures k < |s| && s[k] == x
  {
    assert x in s;
    k :| 0 <= k < |s| && s[k] == x;
  }

  lemma TakeOut<T>(s: seq<T>, k: nat)
    requires k < |s|
    ensures multiset(s[..k] + s[k + 1..]) == multiset(s) - multiset{s[k]}
    ensures var rest := s[..k] + s[k + 1..];
            forall i :: 0 <= i < |rest| ==> rest[i] == s[if i < k then i else i + 1]
  {
    assert s == s[..k] + [s[k]] + s[k + 1..];
  }

  lemma Twice<T>(s: seq<T>, i: nat, j: nat)
    requires i < j < |s|
    ensures s[i] == s[j] ==> multiset(s)[s[i]] >= 2
  {
    assert s == s[..j] + [s[j]] + s[j + 1..];
    assert s[i] in s[..j];
  }

  /** Byte-wise string order, as Go compares strings. */
  predicate StringLeq(a: string, b: string) {
    |a| == 0 || (|b| > 0 && (a[0] < b[0] || (a[0] == b[0] && StringLeq(a[1..], b[1..]))))
  }

  lemma {:induction false} StringLeqTotal(a: string, b: string)
    ensures StringLeq(a, b) || StringLeq(b, a)
    ensures StringLeq(a, b) && StringLeq(b, a) ==> a == b
  {
    if |a| > 0 && |b| > 0 {
      StringLeqTotal(a[1..], b[1..]);
      if a[0] == b[0] && a[1..] == b[1..] {
        assert a == [a[0]] + a[1..] && b == [b[0]] + b[1..];
      }
    }
  }

  lemma {:induction false} StringLeqTransitive(a: string, b: string, c: string)
    requires StringLeq(a, b) && StringLeq(b, c)
    ensures StringLeq(a, c)
  {
    if |a| > 0 && a[0] == b[0] && b[0] == c[0] {
      StringLeqTransitive(a[1..], b[1..], c[1..]);
    }
  }

  /** Two lists with the same members, both strictly increasing, are the same list. */
  lemma {:induction false} StrictlySortedUnique<T>(a: seq<T>, b: seq<T>, leq: (T, T) -> bool)
    requires forall i, j :: 0 <= i < j < |a| ==> leq(a[i], a[j]) && !leq(a[j], a[i])
    requires forall i, j :: 0 <= i < j < |b| ==> leq(b[i], b[j]) && !leq(b[j], b[i])
    requires forall i :: 0 <= i < |a| ==> a[i] in b
    requires forall i :: 0 <= i < |b| ==> b[i] in a
    ensures a == b
  {
    assert |a| > 0 ==> a[0] in b;
    assert |b| > 0 ==> b[0] in a;
    if a != [] {
      assert a[0] == b[0];
      forall i | 0 <= i < |a[1..]| ensures a[1..][i] in b[1..] {
        assert a[i + 1] in b;
      }
      forall i | 0 <= i < |b[1..]| ensures b[1..][i] in a[1..] {
        assert b[i + 1] in a;
      }
      StrictlySortedUnique(a[1..], b[1..], leq);
    }
  }
}
