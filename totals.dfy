/**
 * Sums over finite maps of balances, used to state that tokens and
 * lamports only move between accounts and are never minted or burnt by
 * the escrow program.
 */
module Totals {

  /** The balance of k, zero for an account that does not exist. */
  function Get<K>(m: map<K, nat>, k: K): nat
  {
    if k in m then m[k] else 0
  }

  /** The sum of all balances in m. */
  ghost function Sum<K>(m: map<K, nat>): nat
    decreases |m|
  {
    if m == map[] then 0
    else
      var k :| k in m;
      m[k] + Sum(m - {k})
  }

  /** Any key can be taken out first: the sum does not depend on the order of the keys. */
  lemma {:induction false} SumPick<K>(m: map<K, nat>, k: K)
    requires k in m
    ensures Sum(m) == m[k] + Sum(m - {k})
    decreases |m|
  {
    var j :| j in m && Sum(m) == m[j] + Sum(m - {j});
    if j != k {
      var mj, mk := m - {j}, m - {k};
      SumPick(mj, k);
      assert mj - {k} == mk - {j};
      SumPick(mk, j);
    }
  }

  /** Setting the balance of k to v changes the sum by the difference. */
  lemma SumUpdate<K>(m: map<K, nat>, k: K, v: nat)
    ensures Sum(m[k := v]) + Get(m, k) == Sum(m) + v
  {
    var m' := m[k := v];
    SumPick(m', k);
    if k in m {
      SumPick(m, k);
      assert m' - {k} == m - {k};
    } else {
      assert m' - {k} == m;
    }
  }

  /** Removing k takes exactly its balance off the sum. */
  lemma SumRemove<K>(m: map<K, nat>, k: K)
    ensures Sum(m - {k}) + Get(m, k) == Sum(m)
  {
    if k in m {
      SumPick(m, k);
    } else {
      assert m - {k} == m;
    }
  }
}
