/** Resource lists with exact integer quantities, and sums over finite maps. */
module Resources {

  /** `resource.Quantity` values by resource name; an absent name reads as the zero quantity. */
  type ResourceList = map<string, int>

  function Amount(l: ResourceList, r: string): int {
    if r in l then l[r] else 0
  }

  predicate NonNegative(l: ResourceList) {
    forall r :: r in l ==> 0 <= l[r]
  }

  /** `Quantity.Mul` on every dimension. */
  function Scale(l: ResourceList, k: int): ResourceList {
    map r | r in l :: l[r] * k
  }

  function Max(a: int, b: int): int {
    if a < b then b else a
  }

  /** The largest amount of `r` among 0 and the given resource lists. */
  function Peak(lists: seq<ResourceList>, r: string): int {
    if lists == [] then 0 else Max(Peak(lists[..|lists| - 1], r), Amount(lists[|lists| - 1], r))
  }

  lemma {:induction false} PeakBounds(lists: seq<ResourceList>, r: string)
    ensures 0 <= Peak(lists, r)
    ensures forall i :: 0 <= i < |lists| ==> Amount(lists[i], r) <= Peak(lists, r)
    ensures Peak(lists, r) == 0 || exists i :: 0 <= i < |lists| && Amount(lists[i], r) == Peak(lists, r)
  {
    if lists != [] {
      var front := lists[..|lists| - 1];
      PeakBounds(front, r);
      if Peak(lists, r) == Peak(front, r) && Peak(front, r) != 0 {
        var i :| 0 <= i < |front| && Amount(front[i], r) == Peak(front, r);
        assert Amount(lists[i], r) == Peak(lists, r);
      }
      forall i | 0 <= i < |lists| ensures Amount(lists[i], r) <= Peak(lists, r) {
        assert i < |front| ==> lists[i] == front[i];
      }
    }
  }

  /** A quota that never changes is its own peak. */
  lemma {:induction false} PeakOfConstant(lists: seq<ResourceList>, quota: ResourceList, r: string)
    requires lists != [] && forall i :: 0 <= i < |lists| ==> lists[i] == quota
    ensures Peak(lists, r) == Max(0, Amount(quota, r))
  {
    var front := lists[..|lists| - 1];
    if front != [] {
      PeakOfConstant(front, quota, r);
    }
  }

  // ---------------------------------------------------------------- sums over maps

  ghost function SumMap<K>(m: map<K, int>): int {
    if m == map[] then 0 else
      var k :| k in m;
      m[k] + SumMap(m - {k})
  }

  lemma {:induction false} SumRemove<K>(m: map<K, int>, k: K)
    requires k in m
    ensures SumMap(m) == m[k] + SumMap(m - {k})
    decreases |m|
  {
    var c :| c in m && SumMap(m) == m[c] + SumMap(m - {c});
    if c != k {
      SumRemove(m - {c}, k);
      SumRemove(m - {k}, c);
      assert m - {c} - {k} == m - {k} - {c};
    }
  }

  lemma RemoveFromUnion<K>(a: map<K, int>, b: map<K, int>, k: K)
    requires k in b && k !in a
    ensures (a + b) - {k} == a + (b - {k})
  {
    var l, r := (a + b) - {k}, a + (b - {k});
    assert l.Keys == r.Keys;
    forall x | x in l ensures l[x] == r[x] {
      if x in b {
      } else {
      }
    }
  }

  lemma {:induction false} SumUnion<K>(a: map<K, int>, b: map<K, int>)
    requires a.Keys !! b.Keys
    ensures SumMap(a + b) == SumMap(a) + SumMap(b)
    decreases |b|
  {
    if b == map[] {
      assert a + b == a;
    } else {
      var k :| k in b;
      var rest := b - {k};
      assert rest.Keys == b.Keys - {k};
      assert |rest| < |b|;
      SumRemove(b, k);
      SumUnion(a, rest);
      RemoveFromUnion(a, b, k);
      SumRemove(a + b, k);
    }
  }

  /** A map with constant values sums to its size times that value. */
  lemma {:induction false} SumConstant<K>(m: map<K, int>, v: int)
    requires forall k :: k in m ==> m[k] == v
    ensures SumMap(m) == |m| * v
    decreases |m|
  {
    if m != map[] {
      var k :| k in m;
      SumRemove(m, k);
      SumConstant(m - {k}, v);
      assert |m - {k}| == |m| - 1 by {
        assert (m - {k}).Keys == m.Keys - {k};
      }
    }
  }

  /** A set of the size of its superset is the superset. */
  lemma FullSubset<T>(a: set<T>, b: set<T>)
    requires a <= b && |a| == |b|
    ensures a == b
  {
    assert |b - a| == |b| - |a|;
    assert b - a == {};
  }

  lemma SubsetSize<T>(a: set<T>, b: set<T>)
    requires a <= b
    ensures |a| <= |b|
  {
    assert |b - a| == |b| - |a|;
  }
}
