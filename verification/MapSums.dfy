/** Sums over finite maps, as Python's `sum(f(v) for v in m.values())`. */
module MapSums {

  /** The map without one key, as Python's `del m[k]`. */
  function Drop<K, V>(m: map<K, V>, k: K): map<K, V> { m - {k} }

  /** The map with one key set, as Python's `m[k] = v`. */
  function Put<K, V>(m: map<K, V>, k: K, v: V): map<K, V> { m[k := v] }

  /** The set with one more element, as Python's `s.add(x)`. */
  function Add<T>(s: set<T>, x: T): set<T> { s + {x} }

  ghost function Sum<K(!new), V>(m: map<K, V>, f: V -> int): int
  {
    if m == map[] then 0
    else
      var k :| k in m;
      f(m[k]) + Sum(m - {k}, f)
  }

  lemma Nothing<K(!new), V>(f: V -> int)
    ensures var none: map<K, V> := map[]; Sum(none, f) == 0
  {
  }

  lemma {:induction false} Split<K(!new), V>(m: map<K, V>, f: V -> int, k: K)
    requires k in m
    ensures Sum(m, f) == f(m[k]) + Sum(m - {k}, f)
    decreases |m|
  {
    var j :| j in m && Sum(m, f) == f(m[j]) + Sum(m - {j}, f);
    if j != k {
      Split(m - {j}, f, k);
      assert m - {j} - {k} == m - {k} - {j};
      Split(m - {k}, f, j);
    }
  }

  lemma {:induction false} Without<K(!new), V>(m: map<K, V>, f: V -> int, k: K)
    ensures Sum(m - {k}, f) == Sum(m, f) - (if k in m then f(m[k]) else 0)
  {
    if k in m {
      Split(m, f, k);
    } else {
      assert m - {k} == m;
    }
  }

  lemma With<K(!new), V>(m: map<K, V>, f: V -> int, k: K, v: V)
    ensures Sum(m[k := v], f) == Sum(m, f) - (if k in m then f(m[k]) else 0) + f(v)
  {
    Split(m[k := v], f, k);
    assert m[k := v] - {k} == m - {k};
    Without(m, f, k);
  }

  lemma {:induction false} NonNegative<K(!new), V>(m: map<K, V>, f: V -> int)
    requires forall k :: k in m ==> 0 <= f(m[k])
    ensures 0 <= Sum(m, f)
    decreases |m|
  {
    if m != map[] {
      var k :| k in m && Sum(m, f) == f(m[k]) + Sum(m - {k}, f);
      NonNegative(m - {k}, f);
    }
  }

  lemma {:induction false} Part<K(!new), V>(m: map<K, V>, f: V -> int, k: K)
    requires forall k :: k in m ==> 0 <= f(m[k])
    requires k in m
    ensures 0 <= f(m[k]) <= Sum(m, f)
  {
    Split(m, f, k);
    NonNegative(m - {k}, f);
  }

  /** Summing the same of every value. */
  lemma {:induction false} SameSum<K(!new), V(!new)>(m: map<K, V>, f: V -> int, g: V -> int)
    requires forall v :: f(v) == g(v)
    ensures Sum(m, f) == Sum(m, g)
    decreases |m|
  {
    hide Sum;
    if m == map[] {
      assert m == map[];
      Nothing<K, V>(f);
      Nothing<K, V>(g);
    } else {
      var k :| k in m;
      Split(m, f, k);
      Split(m, g, k);
      SameSum(m - {k}, f, g);
    }
  }

  function Itself(v: int): int { v }

  /** `m.values().reduce((sum, v) => sum + f(v), 0)`. */
  method AddUp<K(==, !new), V(==)>(m: map<K, V>, f: V -> int) returns (total: int)
    ensures total == Sum(m, f)
  {
    hide Sum;
    total := 0;
    var left := m;
    while left != map[]
      invariant total + Sum(left, f) == Sum(m, f)
      decreases |left|
    {
      var k :| k in left;
      Split(left, f, k);
      total := total + f(left[k]);
      left := left - {k};
    }
    Nothing<K, V>(f);
  }
}
