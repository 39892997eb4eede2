/** Sums over maps of numbers. */
module Sums {

  ghost function Sum(m: map<nat, nat>): nat {
    if m == map[] then 0
    else
      var k :| k in m;
      m[k] + Sum(m - {k})
  }

  /** Any entry can be taken out first. */
  lemma {:induction false} SumWithout(m: map<nat, nat>, k: nat)
    requires k in m
    ensures Sum(m) == m[k] + Sum(m - {k})
    decreases |m|
  {
    var c :| c in m && Sum(m) == m[c] + Sum(m - {c});
    if c != k {
      SumWithout(m - {c}, k);
      SumWithout(m - {k}, c);
      assert m - {c} - {k} == m - {k} - {c};
    }
  }

  lemma SumPut(m: map<nat, nat>, k: nat, v: nat)
    ensures Sum(m[k := v]) == v + Sum(m - {k})
  {
    SumWithout(m[k := v], k);
    assert m[k := v] - {k} == m - {k};
  }

  /** One entry changes. */
  lemma SumChange(m: map<nat, nat>, k: nat, v: nat)
    requires k in m
    ensures Sum(m[k := v]) + m[k] == Sum(m) + v
  {
    SumPut(m, k, v);
    SumWithout(m, k);
  }

  /** One entry is new. */
  lemma SumGrows(m: map<nat, nat>, k: nat, v: nat)
    requires k !in m
    ensures Sum(m[k := v]) == Sum(m) + v
  {
    SumPut(m, k, v);
    assert m - {k} == m;
  }

  lemma {:induction false} SumAtMost(m: map<nat, nat>, n: map<nat, nat>)
    requires m.Keys == n.Keys && forall k | k in m :: m[k] <= n[k]
    ensures Sum(m) <= Sum(n)
    decreases |m|
  {
    if m == map[] {
      assert n == map[];
    } else {
      var k :| k in m;
      SumWithout(m, k);
      SumWithout(n, k);
      SumAtMost(m - {k}, n - {k});
    }
  }
}
