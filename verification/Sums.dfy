/** Finite sums over keyed amounts. */
module Sums {
  ghost function Total(m: map<int, real>): real
    decreases |m|
  {
    if forall k :: k !in m then 0.0
    else
      var k :| k in m;
      assert (m - {k}).Keys == m.Keys - {k};
      m[k] + Total(m - {k})
  }

  /** The sum does not depend on which amount is counted first. */
  lemma {:induction false} TotalSplit(m: map<int, real>, k: int)
    requires k in m
    ensures Total(m) == m[k] + Total(m - {k})
    decreases |m|
  {
    var j :| j in m && Total(m) == m[j] + Total(m - {j});
    if j != k {
      assert (m - {j}).Keys == m.Keys - {j} && (m - {k}).Keys == m.Keys - {k};
      TotalSplit(m - {j}, k);
      TotalSplit(m - {k}, j);
      assert m - {j} - {k} == m - {k} - {j};
    }
  }

  lemma TotalAdd(m: map<int, real>, k: int, x: real)
    requires k !in m
    ensures Total(m[k := x]) == Total(m) + x
  {
    TotalSplit(m[k := x], k);
    assert m[k := x] - {k} == m;
  }

  lemma {:induction false} TotalNonNegative(m: map<int, real>)
    requires forall k :: k in m ==> 0.0 <= m[k]
    ensures 0.0 <= Total(m)
    ensures forall k :: k in m ==> m[k] <= Total(m)
    decreases |m|
  {
    forall k | k in m
      ensures m[k] <= Total(m)
    {
      TotalSplit(m, k);
      assert (m - {k}).Keys == m.Keys - {k};
      TotalNonNegative(m - {k});
    }
    if k :| k in m {
      assert m[k] <= Total(m);
    }
  }
}
