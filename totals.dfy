/** Sums over the values of a record: the `Object.values(record).reduce((sum, value) => sum + value, 0)`
    that both change handlers of the character sheet start with. A JavaScript record is modelled as a
    finite map; its sum does not depend on the order in which the values are visited. */
module Totals {

  /** The sum of all values of `m`, defined by taking out one key at a time (any key). */
  ghost function Total<K>(m: map<K, int>): int
    decreases |m|
  {
    if m == map[] then 0
    else
      var k :| k in m;
      m[k] + Total(m - {k})
  }

  /** Removing one key from a map shrinks it by exactly one entry. */
  lemma RemoveOne<K>(m: map<K, int>, k: K)
    requires k in m
    ensures |m - {k}| == |m| - 1
  {
    assert m.Keys == (m - {k}).Keys + {k};
  }

  /** The choice of key in `Total` does not matter: any key may be taken out first. */
  lemma {:induction false} TotalRemove<K>(m: map<K, int>, k: K)
    requires k in m
    ensures Total(m) == m[k] + Total(m - {k})
    decreases |m|
  {
    var j :| j in m && Total(m) == m[j] + Total(m - {j});
    if j != k {
      RemoveOne(m, j);
      RemoveOne(m, k);
      TotalRemove(m - {j}, k);
      TotalRemove(m - {k}, j);
      assert (m - {j}) - {k} == (m - {k}) - {j};
    }
  }

  /** Replacing the value under an existing key changes the sum by the difference of the two values. */
  lemma TotalUpdate<K>(m: map<K, int>, k: K, v: int)
    requires k in m
    ensures Total(m[k := v]) == Total(m) - m[k] + v
  {
    TotalRemove(m, k);
    TotalRemove(m[k := v], k);
    assert m[k := v] - {k} == m - {k};
  }

  /** A record whose every value is `c` sums to `c` times its number of entries. */
  lemma {:induction false} TotalConstant<K>(m: map<K, int>, c: int)
    requires forall k :: k in m ==> m[k] == c
    ensures Total(m) == c * |m|
    decreases |m|
  {
    if m != map[] {
      var k :| k in m;
      var rest := m - {k};
      TotalRemove(m, k);
      RemoveOne(m, k);
      assert forall j :: j in rest ==> rest[j] == c;
      TotalConstant(rest, c);
      assert Total(m) == c + c * |rest|;
      assert c * |m| == c * (|rest| + 1) == c * |rest| + c;
    }
  }

  /** The `reduce` loop: visits the keys one by one, in no particular order, and adds up their values. */
  method SumValues<K>(m: map<K, int>) returns (total: int)
    ensures total == Total(m)
  {
    total := 0;
    var rest := m;
    while rest != map[]
      invariant total + Total(rest) == Total(m)
      decreases |rest|
    {
      var k :| k in rest;
      TotalRemove(rest, k);
      RemoveOne(rest, k);
      total := total + rest[k];
      rest := rest - {k};
    }
  }
}
