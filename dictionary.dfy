/** Dictionaries from labels to summed amounts, read the way the source reads them. */
module Dictionary {

  /** `m[k] || 0`: the value stored under `k`, or zero when `k` is absent. */
  function Lookup(m: map<string, int>, k: string): int
  {
    if k in m then m[k] else 0
  }

  /** The sum of all values of `m`. */
  ghost function ValueSum(m: map<string, int>): int
    decreases |m|
  {
    if m == map[] then 0
    else
      var k :| k in m;
      assert |m - {k}| < |m| by { assert m.Keys - {k} < m.Keys; }
      m[k] + ValueSum(m - {k})
  }

  /** The sum does not depend on which key is taken out first. */
  lemma {:induction false} ValueSumRemove(m: map<string, int>, k: string)
    requires k in m
    ensures ValueSum(m) == m[k] + ValueSum(m - {k})
    decreases |m|
  {
    var j :| j in m && ValueSum(m) == m[j] + ValueSum(m - {j});
    if j != k {
      assert |m - {j}| < |m| by { assert (m - {j}).Keys < m.Keys; }
      assert |m - {k}| < |m| by { assert (m - {k}).Keys < m.Keys; }
      ValueSumRemove(m - {j}, k);
      ValueSumRemove(m - {k}, j);
      assert m - {j} - {k} == m - {k} - {j};
    }
  }

  /** Adding `amount` under `k` (creating the key if needed) raises the sum by exactly `amount`. */
  lemma {:induction false} ValueSumAdd(m: map<string, int>, k: string, amount: int)
    ensures ValueSum(m[k := Lookup(m, k) + amount]) == ValueSum(m) + amount
  {
    var m' := m[k := Lookup(m, k) + amount];
    ValueSumRemove(m', k);
    if k in m {
      ValueSumRemove(m, k);
      assert m' - {k} == m - {k};
    } else {
      assert m' - {k} == m;
    }
  }
}
