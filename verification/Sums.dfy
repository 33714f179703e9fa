/** Sums of the counts held in a map, the reading the report's totals
    are checked against. */
module Sums {

  /** Some key of a non-empty map. */
  ghost function Pick(m: map<string, nat>): (k: string)
    requires |m| > 0
    ensures k in m
  {
    assert m.Keys != {};
    var k :| k in m; k
  }

  /** The sum of all values of `m`. */
  ghost function Total(m: map<string, nat>): nat
    decreases |m|
  {
    if |m| == 0 then 0
    else
      var k := Pick(m);
      assert (m - {k}).Keys == m.Keys - {k};
      m[k] + Total(m - {k})
  }

  /** Any key can be taken out first: the sum does not depend on the order
      the keys are visited in. */
  lemma {:induction false} TotalRemove(m: map<string, nat>, k: string)
    requires k in m
    ensures Total(m) == m[k] + Total(m - {k})
    decreases |m|
  {
    assert |m| > 0 by { assert k in m.Keys; }
    var j := Pick(m);
    if j != k {
      var mj, mk := m - {j}, m - {k};
      assert mj.Keys == m.Keys - {j} && mk.Keys == m.Keys - {k};
      assert |mj| < |m| && |mk| < |m|;
      TotalRemove(mj, k);
      TotalRemove(mk, j);
      assert mj - {k} == mk - {j};
    }
  }

  /** Setting one entry changes the sum by the difference. */
  lemma TotalUpdate(m: map<string, nat>, k: string, v: nat)
    ensures Total(m[k := v]) == Total(m) - (if k in m then m[k] else 0) + v
  {
    TotalRemove(m[k := v], k);
    assert m[k := v] - {k} == m - {k};
    if k in m {
      TotalRemove(m, k);
    } else {
      assert m - {k} == m;
    }
  }

  /** Dropping entries that hold zero leaves the sum unchanged. */
  lemma {:induction false} TotalZeroOutside(m: map<string, nat>, n: map<string, nat>)
    requires n.Keys <= m.Keys
    requires forall k | k in n :: n[k] == m[k]
    requires forall k | k in m && k !in n :: m[k] == 0
    ensures Total(n) == Total(m)
    decreases |m|
  {
    if |m| == 0 {
      assert n.Keys == {};
    } else {
      var k := Pick(m);
      TotalRemove(m, k);
      assert (m - {k}).Keys == m.Keys - {k};
      if k in n {
        TotalRemove(n, k);
        assert (n - {k}).Keys == n.Keys - {k};
        TotalZeroOutside(m - {k}, n - {k});
      } else {
        TotalZeroOutside(m - {k}, n);
      }
    }
  }

  lemma TotalEmpty(m: map<string, nat>)
    requires |m| == 0
    ensures Total(m) == 0
  {
  }

  /** A sum of positive values is positive as soon as there is one. */
  lemma TotalPositive(m: map<string, nat>, k: string)
    requires k in m && m[k] > 0
    ensures Total(m) > 0
  {
    TotalRemove(m, k);
  }
}
