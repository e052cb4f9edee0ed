/**
 * Sums over a shopping cart (product id ↦ quantity). A `HashMap` has no
 * fixed iteration order, so these sums are defined independently of order
 * and every loop over a cart is proved against them whatever order it takes.
 */
module Somas {

  /** Some key of a non-empty map. */
  ghost function Escolha<K, V>(m: map<K, V>): (k: K)
    requires m != map[]
    ensures k in m
  {
    var k :| k in m; k
  }

  /** The sum of all quantities. */
  ghost function SomaQuantidades(m: map<int, int>): int
    decreases |m|
  {
    if m == map[] then 0
    else
      var k := Escolha(m);
      m[k] + SomaQuantidades(m - {k})
  }

  /** The sum of `f(id, quantity)` over all entries. */
  ghost function SomaValores(m: map<int, int>, f: (int, int) -> real): real
    decreases |m|
  {
    if m == map[] then 0.0
    else
      var k := Escolha(m);
      f(k, m[k]) + SomaValores(m - {k}, f)
  }

  /** Any entry can be taken out first. */
  lemma {:induction false} SomaQuantidadesSem(m: map<int, int>, k: int)
    requires k in m
    ensures SomaQuantidades(m) == m[k] + SomaQuantidades(m - {k})
    decreases |m|
  {
    var j := Escolha(m);
    if j != k {
      SomaQuantidadesSem(m - {j}, k);
      SomaQuantidadesSem(m - {k}, j);
      assert (m - {j}) - {k} == (m - {k}) - {j};
    }
  }

  /** Any entry can be taken out first. */
  lemma {:induction false} SomaValoresSem(m: map<int, int>, f: (int, int) -> real, k: int)
    requires k in m
    ensures SomaValores(m, f) == f(k, m[k]) + SomaValores(m - {k}, f)
    decreases |m|
  {
    var j := Escolha(m);
    if j != k {
      SomaValoresSem(m - {j}, f, k);
      SomaValoresSem(m - {k}, f, j);
      assert (m - {j}) - {k} == (m - {k}) - {j};
    }
  }

  /** Changing one quantity changes the total by the difference. */
  lemma SomaQuantidadesAtualiza(m: map<int, int>, k: int, v: int)
    ensures SomaQuantidades(m[k := v]) == SomaQuantidades(m) - (if k in m then m[k] else 0) + v
  {
    var m2 := m[k := v];
    SomaQuantidadesSem(m2, k);
    assert m2 - {k} == m - {k};
    if k in m {
      SomaQuantidadesSem(m, k);
    } else {
      assert m - {k} == m;
    }
  }

  /** Removing an entry takes its quantity off the total. */
  lemma SomaQuantidadesRemove(m: map<int, int>, k: int)
    ensures SomaQuantidades(m - {k}) == SomaQuantidades(m) - (if k in m then m[k] else 0)
  {
    if k in m {
      SomaQuantidadesSem(m, k);
    } else {
      assert m - {k} == m;
    }
  }

  /** With every quantity at least 1, the total is at least the number of entries. */
  lemma {:induction false} SomaQuantidadesMinima(m: map<int, int>)
    requires forall k :: k in m ==> m[k] >= 1
    ensures SomaQuantidades(m) >= |m|
    decreases |m|
  {
    if m != map[] {
      var k := Escolha(m);
      SomaQuantidadesMinima(m - {k});
    }
  }
}
