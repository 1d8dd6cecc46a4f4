/** Finite sums, told by what is summed and not by the order it is met in. */
module Sums {

  /** The sum of the values of a map. */
  ghost function SumOf<K>(m: map<K, int>): int {
    if m == map[] then 0
    else
      var k :| k in m;
      m[k] + SumOf(m - {k})
  }

  lemma {:induction false} SumWithout<K>(m: map<K, int>, k: K)
    requires k in m
    ensures SumOf(m) == m[k] + SumOf(m - {k})
    decreases |m|
  {
    var j :| j in m && SumOf(m) == m[j] + SumOf(m - {j});
    if j != k {
      SumWithout(m - {j}, k);
      SumWithout(m - {k}, j);
      assert m - {j} - {k} == m - {k} - {j};
    }
  }

  lemma SumWith<K>(m: map<K, int>, k: K, value: int)
    requires k !in m
    ensures SumOf(m[k := value]) == SumOf(m) + value
  {
    SumWithout(m[k := value], k);
    assert m[k := value] - {k} == m;
  }
}
