/** Sums of integers over the keys of a finite map. */
module Totals {
  import opened Types

  ghost function Pick(m: map<Uuid, int>): (k: Uuid)
    requires m != map[]
    ensures k in m
  {
    assert |m| != 0;
    var k :| k in m;
    k
  }

  ghost function Total(m: map<Uuid, int>): int {
    if m == map[] then 0 else m[Pick(m)] + Total(m - {Pick(m)})
  }

  lemma {:induction false} TotalWithout(m: map<Uuid, int>, k: Uuid)
    requires k in m
    ensures Total(m) == m[k] + Total(m - {k})
    decreases |m|
  {
    var c := Pick(m);
    if c != k {
      TotalWithout(m - {c}, k);
      TotalWithout(m - {k}, c);
      assert m - {c} - {k} == m - {k} - {c};
    }
  }

  /** Setting one key changes the sum by the difference at that key. */
  lemma TotalUpdate(m: map<Uuid, int>, k: Uuid, v: int)
    ensures Total(m[k := v]) == Total(m) + v - (if k in m then m[k] else 0)
  {
    TotalWithout(m[k := v], k);
    assert m[k := v] - {k} == m - {k};
    if k in m {
      TotalWithout(m, k);
    } else {
      assert m - {k} == m;
    }
  }
}
