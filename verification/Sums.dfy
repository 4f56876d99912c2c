/** Sums over finite maps, as an aggregate query or a maintained counter sees them. */
module Sums {

  ghost function Sum<K>(m: map<K, int>): int {
    if m == map[] then 0 else
    var k :| k in m;
    m[k] + Sum(m - {k})
  }

  /** The sum does not depend on the order in which the entries are taken out. */
  lemma {:induction false} SumAt<K>(m: map<K, int>, k: K)
    requires k in m
    ensures Sum(m) == m[k] + Sum(m - {k})
  {
    var x :| x in m && Sum(m) == m[x] + Sum(m - {x});
    if x != k {
      SumAt(m - {x}, k);
      SumAt(m - {k}, x);
      assert m - {x} - {k} == m - {k} - {x};
    }
  }

  lemma {:induction false} LeastExists<K>(m: map<K, int>) returns (k: K)
    requires m != map[]
    ensures k in m && forall j :: j in m ==> m[k] <= m[j]
  {
    k :| k in m;
    var rest := m - {k};
    assert forall j :: j in m ==> j == k || j in rest;
    if rest != map[] {
      var l := LeastExists(rest);
      if m[l] < m[k] {
        k := l;
      }
    }
  }

  /** The minimum of an aggregate query: none over no rows. */
  ghost predicate IsLeast<K>(m: map<K, int>, v: int) {
    (exists k :: k in m && m[k] == v) && forall j :: j in m ==> v <= m[j]
  }

  lemma IsLeastUnique<K>(m: map<K, int>, v: int, w: int)
    requires IsLeast(m, v) && IsLeast(m, w)
    ensures v == w
  {
  }
}
