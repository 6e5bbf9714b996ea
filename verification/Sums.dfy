/** Sums over finite maps, independent of the order in which the keys are taken. */
module Sums {

  ghost function SumMap<K>(m: map<K, real>): real {
    if m == map[] then 0.0
    else
      var k :| k in m;
      m[k] + SumMap(m - {k})
  }

  lemma {:induction false} SumMapAt<K>(m: map<K, real>, k: K)
    requires k in m
    ensures SumMap(m) == m[k] + SumMap(m - {k})
    decreases |m|
  {
    var j :| j in m && SumMap(m) == m[j] + SumMap(m - {j});
    if j != k {
      SumMapAt(m - {j}, k);
      SumMapAt(m - {k}, j);
      assert m - {j} - {k} == m - {k} - {j};
    }
  }

  lemma SumMapPut<K>(m: map<K, real>, k: K, v: real)
    ensures SumMap(m[k := v]) == v + SumMap(m - {k})
  {
    SumMapAt(m[k := v], k);
    assert m[k := v] - {k} == m - {k};
  }

  /** Adding v to the entry of k, or starting it at v, adds v to the sum. */
  lemma SumMapAdd<K>(m: map<K, real>, k: K, v: real)
    ensures SumMap(m[k := (if k in m then m[k] else 0.0) + v]) == SumMap(m) + v
  {
    SumMapPut(m, k, (if k in m then m[k] else 0.0) + v);
    if k in m {
      SumMapAt(m, k);
    } else {
      assert m - {k} == m;
    }
  }

  /** The entries of m whose key belongs to g. */
  ghost function InGroup<K, G>(m: map<K, real>, group: map<K, G>, g: G): map<K, real> {
    map k | k in m && k in group && group[k] == g :: m[k]
  }

  lemma {:induction false} SumOfZeros<G>(sums: map<G, real>)
    requires forall g :: g in sums ==> sums[g] == 0.0
    ensures SumMap(sums) == 0.0
    decreases |sums|
  {
    if sums != map[] {
      var g :| g in sums;
      SumMapAt(sums, g);
      SumOfZeros(sums - {g});
    }
  }

  /** Adding up group by group gives the same as adding up everything. */
  lemma {:induction false} SumByGroup<K, G>(m: map<K, real>, group: map<K, G>, sums: map<G, real>)
    requires forall k :: k in m ==> k in group && group[k] in sums
    requires forall g :: g in sums ==> sums[g] == SumMap(InGroup(m, group, g))
    ensures SumMap(sums) == SumMap(m)
    decreases |m|
  {
    hide SumMap;
    if m == map[] {
      forall g | g in sums
        ensures sums[g] == 0.0
      {
        assert InGroup(m, group, g) == m;
        SumOfNone(m);
      }
      SumOfZeros(sums);
      SumOfNone(m);
    } else {
      var k :| k in m;
      var h := group[k];
      var less := sums[h := sums[h] - m[k]];
      forall g | g in less
        ensures less[g] == SumMap(InGroup(m - {k}, group, g))
      {
        if g == h {
          SumMapAt(InGroup(m, group, h), k);
          assert InGroup(m - {k}, group, h) == InGroup(m, group, h) - {k};
        } else {
          assert InGroup(m - {k}, group, g) == InGroup(m, group, g);
        }
      }
      SumByGroup(m - {k}, group, less);
      SumMapAt(m, k);
      SumMapAt(sums, h);
      SumMapPut(sums, h, sums[h] - m[k]);
    }
  }

  lemma SumOfNone<K>(m: map<K, real>)
    requires m == map[]
    ensures SumMap(m) == 0.0
  {
  }

  ghost function Bonus<K>(m: map<K, real>, extra: set<K>): map<K, real> {
    map k | k in m :: m[k] + if k in extra then 1.0 else 0.0
  }

  /** One more for each key in extra. */
  lemma {:induction false} SumOfBonus<K>(m: map<K, real>, extra: set<K>)
    requires extra <= m.Keys
    ensures SumMap(Bonus(m, extra)) == SumMap(m) + |extra| as real
    decreases |extra|
  {
    if extra == {} {
      assert Bonus(m, extra) == m;
    } else {
      var k :| k in extra;
      SumOfBonus(m, extra - {k});
      var b := Bonus(m, extra - {k});
      assert Bonus(m, extra) == b[k := b[k] + 1.0];
      SumMapAt(b, k);
      SumMapPut(b, k, b[k] + 1.0);
    }
  }
}
