/** Sums over finite maps, used to state conservation and solvency. */
module Totals {

  /** The sum of all values of a finite map. */
  ghost function Total<K>(w: map<K, nat>): nat
    decreases |w.Keys|
  {
    if w == map[] then 0
    else
      var k :| k in w;
      w[k] + Total(w - {k})
  }

  /** Any key, not only the one `Total` happens to pick, can be split off. */
  lemma {:induction false} TotalRemove<K>(w: map<K, nat>, k: K)
    requires k in w
    ensures Total(w) == w[k] + Total(w - {k})
    decreases |w.Keys|
  {
    var j :| j in w && Total(w) == w[j] + Total(w - {j});
    if j != k {
      assert w - {j} - {k} == w - {k} - {j};
      TotalRemove(w - {j}, k);
      TotalRemove(w - {k}, j);
    }
  }

  /** Writing `v` at key `k` changes the total by the difference. */
  lemma TotalUpdate<K>(w: map<K, nat>, k: K, v: nat)
    ensures Total(w[k := v]) == Total(w) - (if k in w then w[k] else 0) + v
  {
    TotalRemove(w[k := v], k);
    assert w[k := v] - {k} == w - {k};
    if k in w {
      TotalRemove(w, k);
    } else {
      assert w - {k} == w;
    }
  }

  /** The total of a two-entry map. */
  lemma TotalOfPair<K>(a: K, b: K, x: nat, y: nat)
    requires a != b
    ensures Total(map[a := x, b := y]) == x + y
  {
    var w := map[a := x, b := y];
    TotalRemove(w, a);
    assert w - {a} == map[b := y];
    TotalRemove(map[b := y], b);
    assert map[b := y] - {b} == map[];
  }

  /** Totals are monotone in the values, key by key. */
  lemma {:induction false} TotalMonotone<K>(v: map<K, nat>, w: map<K, nat>)
    requires v.Keys == w.Keys
    requires forall k :: k in v ==> v[k] <= w[k]
    ensures Total(v) <= Total(w)
    decreases |v.Keys|
  {
    if v != map[] {
      var k :| k in v;
      TotalRemove(v, k);
      TotalRemove(w, k);
      TotalMonotone(v - {k}, w - {k});
    }
  }
}
