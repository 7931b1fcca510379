/** The sum of a weight over a map's entries. */
module Sums {

  ghost function SumOf<K, V>(m: map<K, V>, w: (K, V) -> int): int
    decreases |m|
  {
    if m == map[] then 0
    else
      var k :| k in m;
      w(k, m[k]) + SumOf(m - {k}, w)
  }

  /** Any entry may be taken out first. */
  lemma {:induction false} SumWithout<K, V>(m: map<K, V>, w: (K, V) -> int, k: K)
    requires k in m
    ensures SumOf(m, w) == w(k, m[k]) + SumOf(m - {k}, w)
    decreases |m|
  {
    var first :| first in m && SumOf(m, w) == w(first, m[first]) + SumOf(m - {first}, w);
    if first != k {
      SumWithout(m - {first}, w, k);
      SumWithout(m - {k}, w, first);
      assert m - {first} - {k} == m - {k} - {first};
    }
  }

  /** Putting an entry adds its weight and takes off the one it takes the place of. */
  lemma SumWith<K, V>(m: map<K, V>, w: (K, V) -> int, k: K, v: V)
    ensures SumOf(m[k := v], w) == SumOf(m, w) + w(k, v) - (if k in m then w(k, m[k]) else 0)
  {
    var m' := m[k := v];
    SumWithout(m', w, k);
    if k in m {
      SumWithout(m, w, k);
    }
    assert m' - {k} == m - {k};
    assert k !in m ==> m - {k} == m;
  }

  lemma {:induction false} SumIsNat<K, V>(m: map<K, V>, w: (K, V) -> int)
    requires forall k <- m :: w(k, m[k]) >= 0
    ensures SumOf(m, w) >= 0
    decreases |m|
  {
    if m != map[] {
      var k :| k in m;
      SumWithout(m, w, k);
      SumIsNat(m - {k}, w);
    }
  }

  lemma {:induction false} SumIsZero<K, V>(m: map<K, V>, w: (K, V) -> int)
    requires forall k <- m :: w(k, m[k]) == 0
    ensures SumOf(m, w) == 0
    decreases |m|
  {
    if m != map[] {
      var k :| k in m;
      SumWithout(m, w, k);
      SumIsZero(m - {k}, w);
    }
  }
}
