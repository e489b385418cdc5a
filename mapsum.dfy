/** Python's `sum(d.values())` over a string-keyed dictionary of counts:
    the total of a map's values, which does not depend on the order in
    which the keys are visited. */
module MapSum {

  ghost function SumValues(m: map<string, int>): int
    decreases |m|
  {
    if |m| == 0 then 0
    else
      var k := Pick(m);
      assert |m - {k}| < |m| by { RemoveShrinks(m, k); }
      m[k] + SumValues(m - {k})
  }

  ghost function Pick(m: map<string, int>): (k: string)
    requires |m| > 0
    ensures k in m
  {
    assert exists k :: k in m.Keys by {
      assert m.Keys != {};
    }
    var k :| k in m; k
  }

  lemma RemoveShrinks(m: map<string, int>, k: string)
    requires k in m
    ensures |m - {k}| == |m| - 1
  {
    assert (m - {k}).Keys == m.Keys - {k};
  }

  /** Any key may be taken out first: the sum is that value plus the sum of
      the rest. */
  lemma {:induction false} SumValuesRemove(m: map<string, int>, k: string)
    requires k in m
    decreases |m|
    ensures SumValues(m) == m[k] + SumValues(m - {k})
  {
    var j := Pick(m);
    assert SumValues(m) == m[j] + SumValues(m - {j});
    if j != k {
      RemoveShrinks(m, j);
      RemoveShrinks(m, k);
      SumValuesRemove(m - {j}, k);
      SumValuesRemove(m - {k}, j);
      assert (m - {j}) - {k} == (m - {k}) - {j};
    }
  }

  /** Setting one key changes the sum by the difference at that key. */
  lemma SumValuesUpdate(m: map<string, int>, k: string, v: int)
    ensures SumValues(m[k := v]) == SumValues(m) - (if k in m then m[k] else 0) + v
  {
    SumValuesRemove(m[k := v], k);
    assert m[k := v] - {k} == m - {k};
    if k in m {
      SumValuesRemove(m, k);
    } else {
      assert m - {k} == m;
    }
  }

  /** `sum(m.values())`, visiting the keys in whatever order. */
  method Sum(m: map<string, int>) returns (total: int)
    ensures total == SumValues(m)
  {
    var rest := m;
    total := 0;
    while rest != map[]
      invariant total + SumValues(rest) == SumValues(m)
      decreases |rest|
    {
      var k :| k in rest;
      SumValuesRemove(rest, k);
      RemoveShrinks(rest, k);
      total := total + rest[k];
      rest := rest - {k};
    }
  }
}
