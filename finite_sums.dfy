/**
 * `sum(d.values())` over a dictionary, for the totals the analyzer and the
 * two stores keep: the sum does not depend on the order the keys are visited in.
 */
module FiniteSums {

  /** The sum of the values of a finite map. */
  ghost function SumValues<K>(m: map<K, nat>): nat
    decreases |m.Keys|
  {
    if m.Keys == {} then 0
    else
      var k :| k in m.Keys;
      m[k] + SumValues(m - {k})
  }

  /** Any key can be taken out first. */
  lemma {:induction false} SumValuesRemove<K>(m: map<K, nat>, k: K)
    requires k in m
    ensures SumValues(m) == m[k] + SumValues(m - {k})
    decreases |m.Keys|
  {
    var j :| j in m.Keys && SumValues(m) == m[j] + SumValues(m - {j});
    if j != k {
      var mj := m - {j};
      var mk := m - {k};
      assert |mj.Keys| < |m.Keys| by {
        assert mj.Keys == m.Keys - {j};
      }
      assert |mk.Keys| < |m.Keys| by {
        assert mk.Keys == m.Keys - {k};
      }
      SumValuesRemove(mj, k);
      SumValuesRemove(mk, j);
      assert mj - {k} == mk - {j};
    }
  }

  /** Setting one key changes the sum by the difference of the values. */
  lemma SumValuesUpdate<K>(m: map<K, nat>, k: K, v: nat)
    ensures SumValues(m[k := v]) + (if k in m then m[k] else 0) == SumValues(m) + v
  {
    var u := m[k := v];
    SumValuesRemove(u, k);
    assert u - {k} == m - {k};
    if k in m {
      SumValuesRemove(m, k);
    } else {
      assert m - {k} == m;
    }
  }

  /** Some key of a non-empty map, in no particular order (the order of Python's dictionary iteration is not modelled). */
  method AnyKey<K, V>(m: map<K, V>) returns (k: K)
    requires m.Keys != {}
    ensures k in m
  {
    k :| k in m.Keys;
  }

  /** `sum(d.values())` by visiting the keys one at a time, in any order. */
  method SumOfValues<K>(m: map<K, nat>) returns (s: nat)
    ensures s == SumValues(m)
  {
    s := 0;
    var rest := m;
    while rest.Keys != {}
      invariant rest.Keys <= m.Keys
      invariant forall k :: k in rest ==> rest[k] == m[k]
      invariant s + SumValues(rest) == SumValues(m)
      decreases |rest.Keys|
    {
      var k :| k in rest.Keys;
      SumValuesRemove(rest, k);
      s := s + rest[k];
      assert (rest - {k}).Keys == rest.Keys - {k};
      rest := rest - {k};
    }
  }
}
