/** The sum of the values of a finite map, and how it moves when the map does. */
module Sums {

  ghost function Pick<K>(m: map<K, int>): (k: K)
    requires m != map[]
    ensures k in m
  {
    var k :| k in m; k
  }

  ghost function Sum<K>(m: map<K, int>): int
    decreases |m|
  {
    if m == map[] then 0 else
      var k := Pick(m);
      m[k] + Sum(m - {k})
  }

  /** The order in which the keys are picked does not matter. */
  lemma {:induction false} SumRemove<K>(m: map<K, int>, k: K)
    requires k in m
    ensures Sum(m) == m[k] + Sum(m - {k})
    decreases |m|
  {
    var p := Pick(m);
    if p != k {
      SumRemove(m - {p}, k);
      SumRemove(m - {k}, p);
      assert m - {p} - {k} == m - {k} - {p};
    }
  }

  lemma SumUpdate<K>(m: map<K, int>, k: K, v: int)
    ensures Sum(m[k := v]) == Sum(m) - (if k in m then m[k] else 0) + v
  {
    SumRemove(m[k := v], k);
    if k in m {
      SumRemove(m, k);
      assert m[k := v] - {k} == m - {k};
    } else {
      assert m[k := v] - {k} == m;
    }
  }

  lemma Distribute(c: int, x: int, y: int)
    ensures c * (x + y) == c * x + c * y
  {
  }

  /** Adding a multiple of one map to another, key by key, adds that multiple of its sum. */
  lemma {:induction false} SumLinear<K>(a: map<K, int>, c: int, b: map<K, int>, m: map<K, int>)
    requires a.Keys == b.Keys == m.Keys
    requires forall k :: k in m ==> m[k] == a[k] + c * b[k]
    ensures Sum(m) == Sum(a) + c * Sum(b)
    decreases |m|
  {
    if m == map[] {
      assert a == map[] && b == map[];
    } else {
      var k := Pick(m);
      SumRemove(a, k);
      SumRemove(b, k);
      var a', b', m' := a - {k}, b - {k}, m - {k};
      assert forall j :: j in m' ==> m'[j] == a'[j] + c * b'[j];
      SumLinear(a', c, b', m');
      Distribute(c, b[k], Sum(b'));
    }
  }

  lemma {:induction false} SumNonNegative<K>(m: map<K, int>)
    requires forall k :: k in m ==> m[k] >= 0
    ensures Sum(m) >= 0
    decreases |m|
  {
    if m != map[] {
      SumNonNegative(m - {Pick(m)});
    }
  }

  lemma SumAtLeast<K>(m: map<K, int>, k: K)
    requires k in m
    requires forall j :: j in m ==> m[j] >= 0
    ensures m[k] <= Sum(m)
  {
    SumRemove(m, k);
    SumNonNegative(m - {k});
  }

  /** A map that is zero but at one key. */
  ghost function Point<K>(keys: set<K>, x: K, n: int): map<K, int> {
    map k | k in keys :: if k == x then n else 0
  }

  lemma {:induction false} SumPoint<K>(keys: set<K>, x: K, n: int)
    ensures Sum(Point(keys, x, n)) == if x in keys then n else 0
    decreases keys
  {
    hide Sum;
    var m := Point(keys, x, n);
    if keys == {} {
      assert m == map[];
      SumEmpty<K>();
    } else {
      var k :| k in keys;
      SumRemove(m, k);
      assert m - {k} == Point(keys - {k}, x, n);
      SumPoint(keys - {k}, x, n);
    }
  }

  lemma SumEmpty<K>()
    ensures Sum<K>(map[]) == 0
  {
  }
}
