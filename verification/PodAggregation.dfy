/**
 Pod metrics from the metrics of their containers (collector/plugins/processors/pod_aggregator.go).

 A pod's own metric wins unless it is missing or zero. Otherwise the values of the containers are
 added up one by one, in an arbitrary order, and a sum that is zero on the way is replaced rather than
 added to. Every order gives the plain sum if and only if the values that are not zero agree in type.
 */
module PodAggregation {
  import opened Aggregation
  import opened Bags
  import opened BatchSets
  import opened Metrics
  import opened Sums
  import opened Wrappers

  // ---- one metric of one pod ------------------------------------------------------------------

  /** A pod's value and whether containers are being added to it. */
  datatype Tally = Tally(now: Option<Value>, adding: bool)

  predicate IsOpen(v: Option<Value>) {
    v.None? || v.value.IsZero()
  }

  /** A container's value comes in. */
  function Step(t: Tally, v: Value): Tally {
    if IsOpen(t.now) then Tally(Some(v), true)
    else if t.adding && t.now.value.valueType == v.valueType then Tally(Some(Plus(t.now.value, v)), true)
    else t
  }

  /** A value that is not zero has one of the two named types, so the error for other types is never returned. */
  lemma NonZeroIsSupported(v: Value)
    ensures !v.IsZero() ==> !v.valueType.OtherType? && Num(v) != 0.0
    ensures v.IsZero() ==> Num(v) == 0.0
  {
  }

  function Run<K(!new)>(c: map<K, Value>, order: seq<K>, t: Tally): Tally
    requires forall k :: k in order ==> k in c
  {
    if order == [] then t else Step(Run(c, order[..|order| - 1], t), c[order[|order| - 1]])
  }

  function SumOver<K(!new)>(c: map<K, Value>, order: seq<K>): real
    requires forall k :: k in order ==> k in c
  {
    if order == [] then 0.0 else SumOver(c, order[..|order| - 1]) + Num(c[order[|order| - 1]])
  }

  /** The values that are not zero have one type. */
  ghost predicate Agree<K(!new)>(c: map<K, Value>) {
    forall j, k :: j in c && k in c && !c[j].IsZero() && !c[k].IsZero() ==> c[j].valueType == c[k].valueType
  }

  /** order lists the keys of c, each once. */
  ghost predicate Lists<K(!new)>(order: seq<K>, c: map<K, Value>) {
    (forall k :: k in order ==> k in c) && (forall k :: k in c ==> k in order) && Distinct(order)
  }

  lemma {:induction false} SumOverLists<K(!new)>(c: map<K, Value>, order: seq<K>)
    requires Lists(order, c)
    ensures SumOver(c, order) == SumMap(Nums(c))
    decreases |order|
  {
    if order == [] {
      assert Nums(c) == map[];
    } else {
      var k, rest := order[|order| - 1], order[..|order| - 1];
      ListsRest(c, order);
      hide SumMap, Nums, Lists, Num;
      SumOverLists(c - {k}, rest);
      SumOverPart(c - {k}, c, rest);
      NumsAt(c, k);
    }
  }

  lemma ListsRest<K(!new)>(c: map<K, Value>, order: seq<K>)
    requires Lists(order, c) && order != []
    ensures var k, rest := order[|order| - 1], order[..|order| - 1];
            k in c && Lists(rest, c - {k}) && forall x :: x in rest ==> x in c && x in c - {k} && (c - {k})[x] == c[x]
  {
    var k, rest := order[|order| - 1], order[..|order| - 1];
    assert forall x :: x in order ==> x in rest || x == k;
  }

  lemma NumsAt<K(!new)>(c: map<K, Value>, k: K)
    requires k in c
    ensures SumMap(Nums(c)) == Num(c[k]) + SumMap(Nums(c - {k}))
  {
    SumMapAt(Nums(c), k);
    assert Nums(c) - {k} == Nums(c - {k});
  }

  lemma {:induction false} SumOverPart<K(!new)>(c: map<K, Value>, d: map<K, Value>, order: seq<K>)
    requires forall k :: k in order ==> k in c && k in d && c[k] == d[k]
    ensures SumOver(c, order) == SumOver(d, order)
  {
    if order != [] {
      SumOverPart(c, d, order[..|order| - 1]);
    }
  }

  /** A pod's own value stays as it is. */
  lemma {:induction false} OwnValueStays<K(!new)>(c: map<K, Value>, order: seq<K>, base: Option<Value>)
    requires (forall k :: k in order ==> k in c) && !IsOpen(base)
    ensures Run(c, order, Tally(base, false)) == Tally(base, false)
  {
    if order != [] {
      OwnValueStays(c, order[..|order| - 1], base);
    }
  }

  /** Where the types agree, what has been visited so far is added up. */
  lemma {:induction false} RunAdds<K(!new)>(c: map<K, Value>, order: seq<K>, base: Option<Value>)
    requires (forall k :: k in order ==> k in c) && IsOpen(base) && Agree(c) && order != []
    ensures var r := Run(c, order, Tally(base, false));
            r.adding && r.now.Some? && Num(r.now.value) == SumOver(c, order)
            && (!r.now.value.IsZero() ==>
                  forall k :: k in c && !c[k].IsZero() ==> c[k].valueType == r.now.value.valueType)
  {
    var n := |order| - 1;
    NonZeroIsSupported(c[order[n]]);
    if n == 0 {
      assert order[..0] == [];
    } else {
      RunAdds(c, order[..n], base);
      NonZeroIsSupported(Run(c, order[..n], Tally(base, false)).now.value);
    }
  }

  /** The outcome for one metric of one pod, whatever the order, where the types agree. */
  lemma TotalOfContainers<K(!new)>(c: map<K, Value>, order: seq<K>, base: Option<Value>)
    requires Lists(order, c) && Agree(c)
    ensures var r := Run(c, order, Tally(base, false)).now;
            if c == map[] || !IsOpen(base) then r == base
            else r.Some? && Num(r.value) == SumMap(Nums(c))
  {
    assert order == [] ==> Run(c, order, Tally(base, false)) == Tally(base, false);
    hide Run;
    SumOverLists(c, order);
    if !IsOpen(base) {
      OwnValueStays(c, order, base);
    } else if order != [] {
      RunAdds(c, order, base);
      assert order[0] in c;
    } else {
      assert c == map[];
    }
  }

  // ---- the order matters where types do not agree ---------------------------------------------

  lemma {:induction false} RunCat<K(!new)>(c: map<K, Value>, a: seq<K>, b: seq<K>, t: Tally)
    requires (forall k :: k in a ==> k in c) && (forall k :: k in b ==> k in c)
    ensures forall k :: k in a + b ==> k in c
    ensures Run(c, a + b, t) == Run(c, b, Run(c, a, t))
    decreases |b|
  {
    if b == [] {
      assert a + b == a;
    } else {
      var n := |b| - 1;
      RunCat(c, a, b[..n], t);
      assert (a + b)[..|a + b| - 1] == a + b[..n];
    }
  }

  lemma {:induction false} RunSkips<K(!new)>(c: map<K, Value>, order: seq<K>, t: Tally)
    requires !IsOpen(t.now) && forall k :: k in order ==> k in c && c[k].valueType != t.now.value.valueType
    ensures Run(c, order, t) == t
  {
    if order != [] {
      RunSkips(c, order[..|order| - 1], t);
    }
  }

  lemma {:induction false} RunZeros<K(!new)>(c: map<K, Value>, order: seq<K>, t: Tally)
    requires t.adding && t.now.Some? && forall k :: k in order ==> k in c && c[k].IsZero()
    ensures var r := Run(c, order, t); r.now.Some? && Num(r.now.value) == Num(t.now.value)
  {
    if order != [] {
      var n := |order| - 1;
      RunZeros(c, order[..n], t);
      NonZeroIsSupported(c[order[n]]);
      RunStaysOpen(c, order[..n], t);
    }
  }

  lemma {:induction false} RunStaysOpen<K(!new)>(c: map<K, Value>, order: seq<K>, t: Tally)
    requires t.adding && t.now.Some? && forall k :: k in order ==> k in c
    ensures Run(c, order, t).adding && Run(c, order, t).now.Some?
  {
    if order != [] {
      RunStaysOpen(c, order[..|order| - 1], t);
    }
  }

  /** Values of one type are added to a tally of that type, or to one that is at zero. */
  lemma {:induction false} RunSame<K(!new)>(c: map<K, Value>, order: seq<K>, t: Tally, ty: ValueType)
    requires t.adding && t.now.Some? && (t.now.value.IsZero() || t.now.value.valueType == ty)
    requires forall k :: k in order ==> k in c && c[k].valueType == ty && !c[k].IsZero()
    ensures var r := Run(c, order, t);
            r.adding && r.now.Some? && (r.now.value.IsZero() || r.now.value.valueType == ty)
            && Num(r.now.value) == Num(t.now.value) + SumOver(c, order)
  {
    if order != [] {
      var n := |order| - 1;
      RunSame(c, order[..n], t, ty);
      NonZeroIsSupported(c[order[n]]);
      NonZeroIsSupported(Run(c, order[..n], t).now.value);
    }
  }

  ghost function Enumerate<K(!new)>(s: set<K>): seq<K> {
    if s == {} then []
    else
      var k :| k in s;
      Enumerate(s - {k}) + [k]
  }

  lemma {:induction false} EnumerateLists<K(!new)>(s: set<K>)
    ensures forall k :: k in Enumerate(s) <==> k in s
    ensures Distinct(Enumerate(s))
  {
    if s != {} {
      var k :| k in s && Enumerate(s) == Enumerate(s - {k}) + [k];
      EnumerateLists(s - {k});
    }
  }

  lemma {:induction false} SumCat<K(!new)>(c: map<K, Value>, a: seq<K>, b: seq<K>)
    requires (forall k :: k in a ==> k in c) && (forall k :: k in b ==> k in c)
    ensures forall k :: k in a + b ==> k in c
    ensures SumOver(c, a + b) == SumOver(c, a) + SumOver(c, b)
    decreases |b|
  {
    if b == [] {
      assert a + b == a;
    } else {
      var n := |b| - 1;
      SumCat(c, a, b[..n]);
      assert (a + b)[..|a + b| - 1] == a + b[..n];
    }
  }

  /** The keys with values of one type that are not zero, without x. */
  ghost function OfType<K(!new)>(c: map<K, Value>, ty: ValueType, x: K): set<K> {
    set k | k in c && c[k].valueType == ty && !c[k].IsZero() && k != x
  }

  ghost function ZeroKeys<K(!new)>(c: map<K, Value>): set<K> {
    set k | k in c && c[k].IsZero()
  }

  /** a, then the other type, then the rest of its own type, then zeros. */
  ghost function Blocking<K(!new)>(c: map<K, Value>, a: K, b: K): seq<K>
    requires a in c && b in c
  {
    [a] + ([b] + Enumerate(OfType(c, c[b].valueType, b))) + Enumerate(OfType(c, c[a].valueType, a)) + Enumerate(ZeroKeys(c))
  }

  /** a, then one of the other type, then the rest of its own type, then the rest of the other, then zeros. */
  ghost function Crossing<K(!new)>(c: map<K, Value>, a: K, b: K): seq<K>
    requires a in c && b in c
  {
    [a] + [b] + Enumerate(OfType(c, c[a].valueType, a)) + Enumerate(OfType(c, c[b].valueType, b)) + Enumerate(ZeroKeys(c))
  }

  ghost predicate Clashing<K(!new)>(c: map<K, Value>, a: K, b: K) {
    a in c && b in c && !c[a].IsZero() && !c[b].IsZero() && c[a].valueType != c[b].valueType
  }

  lemma DistinctCat<K(!new)>(a: seq<K>, b: seq<K>)
    requires Distinct(a) && Distinct(b) && forall k :: k in a ==> k !in b
    ensures Distinct(a + b) && forall k :: k in a + b <==> k in a || k in b
  {
    var s := a + b;
    forall i, j | 0 <= i < j < |s|
      ensures s[i] != s[j]
    {
      if i < |a| <= j {
        assert s[i] in a && s[j] in b;
      }
    }
  }

  /** The five lists have no key in common and together hold the keys of c. */
  ghost predicate Parts<K(!new)>(c: map<K, Value>, a: K, b: K, p: seq<K>, q: seq<K>, z: seq<K>) {
    a != b && a !in p && a !in q && a !in z && b !in p && b !in q && b !in z
    && (forall k :: k in p ==> k !in q && k !in z) && (forall k :: k in q ==> k !in z)
    && (forall k :: k in c <==> k == a || k == b || k in p || k in q || k in z)
    && Distinct(p) && Distinct(q) && Distinct(z)
  }

  lemma ListInBlocks<K(!new)>(c: map<K, Value>, a: K, b: K, p: seq<K>, q: seq<K>, z: seq<K>)
    requires Parts(c, a, b, p, q, z)
    ensures Lists([a] + ([b] + q) + p + z, c)
  {
    assert Distinct([a]) && Distinct([b]);
    hide Distinct;
    DistinctCat([b], q);
    DistinctCat([a], [b] + q);
    DistinctCat([a] + ([b] + q), p);
    DistinctCat([a] + ([b] + q) + p, z);
  }

  lemma ListCrossed<K(!new)>(c: map<K, Value>, a: K, b: K, p: seq<K>, q: seq<K>, z: seq<K>)
    requires Parts(c, a, b, p, q, z)
    ensures Lists([a] + [b] + p + q + z, c)
  {
    assert Distinct([a]) && Distinct([b]);
    hide Distinct;
    DistinctCat([a], [b]);
    DistinctCat([a] + [b], p);
    DistinctCat([a] + [b] + p, q);
    DistinctCat([a] + [b] + p + q, z);
  }

  lemma BlockingLists<K(!new)>(c: map<K, Value>, a: K, b: K)
    requires Clashing(c, a, b)
    ensures Lists(Blocking(c, a, b), c) && Lists(Crossing(c, a, b), c)
  {
    var p, q, z := OfType(c, c[a].valueType, a), OfType(c, c[b].valueType, b), ZeroKeys(c);
    EnumerateLists(p);
    EnumerateLists(q);
    EnumerateLists(z);
    hide Distinct, Enumerate, Lists;
    assert Parts(c, a, b, Enumerate(p), Enumerate(q), Enumerate(z)) by {
      PartsOf(c, a, b, p, q, z);
      hide OfType, ZeroKeys;
    }
    hide Parts, OfType, ZeroKeys;
    ListInBlocks(c, a, b, Enumerate(p), Enumerate(q), Enumerate(z));
    ListCrossed(c, a, b, Enumerate(p), Enumerate(q), Enumerate(z));
  }

  /** Two values that clash leave no third type among those that are not zero. */
  lemma SupportedTypes<K(!new)>(c: map<K, Value>, a: K, b: K)
    requires Clashing(c, a, b)
    ensures forall k :: k in c && !c[k].IsZero() ==> c[k].valueType == c[a].valueType || c[k].valueType == c[b].valueType
  {
  }

  lemma PartsOf<K(!new)>(c: map<K, Value>, a: K, b: K, p: set<K>, q: set<K>, z: set<K>)
    requires Clashing(c, a, b)
    requires p == OfType(c, c[a].valueType, a) && q == OfType(c, c[b].valueType, b) && z == ZeroKeys(c)
    ensures a != b && a !in p && a !in q && a !in z && b !in p && b !in q && b !in z && p !! q && p !! z && q !! z
    ensures forall k :: k in c ==> k == a || k == b || k in p || k in q || k in z
    ensures forall k :: k == a || k == b || k in p || k in q || k in z ==> k in c
  {
    SupportedTypes(c, a, b);
  }

  /** What the two orders come to. */
  lemma BlockingRun<K(!new)>(c: map<K, Value>, a: K, b: K, base: Option<Value>)
    requires Clashing(c, a, b) && IsOpen(base) && Lists(Blocking(c, a, b), c)
    ensures var r := Run(c, Blocking(c, a, b), Tally(base, false)).now;
            r.Some? && Num(r.value) == Num(c[a]) + SumOver(c, TypeList(c, a))
  {
    var p, q, z := TypeList(c, a), TypeList(c, b), Enumerate(ZeroKeys(c));
    TypeListKeys(c, a);
    TypeListKeys(c, b);
    EnumerateLists(ZeroKeys(c));
    hide Enumerate;
    var t0, t1 := Tally(base, false), Tally(Some(c[a]), true);
    assert Run(c, [a], t0) == t1 by {
      assert [a][..0] == [];
    }
    RunCat(c, [a], [b] + q, t0);
    RunSkips(c, [b] + q, t1);
    RunCat(c, [a] + ([b] + q), p, t0);
    RunSame(c, p, t1, c[a].valueType);
    RunCat(c, [a] + ([b] + q) + p, z, t0);
    RunZeros(c, z, Run(c, p, t1));
  }

  ghost function TypeList<K(!new)>(c: map<K, Value>, a: K): seq<K>
    requires a in c
  {
    Enumerate(OfType(c, c[a].valueType, a))
  }

  lemma TypeListKeys<K(!new)>(c: map<K, Value>, a: K)
    requires a in c
    ensures forall k :: k in TypeList(c, a) ==> k in c && c[k].valueType == c[a].valueType && !c[k].IsZero()
  {
    var s := OfType(c, c[a].valueType, a);
    EnumerateLists(s);
    assert forall k :: k in Enumerate(s) ==> k in s;
  }

  lemma CrossingRun<K(!new)>(c: map<K, Value>, a: K, b: K, base: Option<Value>)
    requires Clashing(c, a, b) && IsOpen(base) && Lists(Crossing(c, a, b), c)
    requires (forall k :: k in TypeList(c, a) ==> k in c) && (forall k :: k in TypeList(c, b) ==> k in c)
    requires Num(c[a]) + SumOver(c, TypeList(c, a)) == 0.0
    ensures var r := Run(c, Crossing(c, a, b), Tally(base, false)).now;
            r.Some? && Num(r.value) == SumOver(c, TypeList(c, b))
  {
    var p, q, z := TypeList(c, a), TypeList(c, b), Enumerate(ZeroKeys(c));
    TypeListKeys(c, a);
    TypeListKeys(c, b);
    EnumerateLists(ZeroKeys(c));
    hide Enumerate;
    var t0, t1 := Tally(base, false), Tally(Some(c[a]), true);
    assert Run(c, [a], t0) == t1 by {
      assert [a][..0] == [];
    }
    RunCat(c, [a], [b], t0);
    RunSkips(c, [b], t1);
    RunCat(c, [a] + [b], p, t0);
    RunSame(c, p, t1, c[a].valueType);
    var t2 := Run(c, p, t1);
    NonZeroIsSupported(t2.now.value);
    RunCat(c, [a] + [b] + p, q, t0);
    RunSame(c, q, t2, c[b].valueType);
    RunCat(c, [a] + [b] + p + q, z, t0);
    RunZeros(c, z, Run(c, q, t2));
  }

  lemma SumOfParts<K(!new)>(c: map<K, Value>, a: K, b: K)
    requires Clashing(c, a, b) && Lists(Blocking(c, a, b), c)
    requires (forall k :: k in TypeList(c, a) ==> k in c) && (forall k :: k in TypeList(c, b) ==> k in c)
    ensures SumMap(Nums(c)) == Num(c[a]) + SumOver(c, TypeList(c, a)) + Num(c[b]) + SumOver(c, TypeList(c, b))
  {
    var p, q, z := TypeList(c, a), TypeList(c, b), Enumerate(ZeroKeys(c));
    EnumerateLists(ZeroKeys(c));
    hide Enumerate;
    SumOverLists(c, Blocking(c, a, b));
    SumCat(c, [b], q);
    SumCat(c, [a], [b] + q);
    SumCat(c, [a] + ([b] + q), p);
    SumCat(c, [a] + ([b] + q) + p, z);
    ZerosAddNothing(c, z);
    assert SumOver(c, [a]) == Num(c[a]) && SumOver(c, [b]) == Num(c[b]) by {
      assert [a][..0] == [] && [b][..0] == [];
    }
  }

  lemma {:induction false} ZerosAddNothing<K(!new)>(c: map<K, Value>, order: seq<K>)
    requires forall k :: k in order ==> k in c && c[k].IsZero()
    ensures SumOver(c, order) == 0.0
  {
    if order != [] {
      ZerosAddNothing(c, order[..|order| - 1]);
      NonZeroIsSupported(c[order[|order| - 1]]);
    }
  }

  /** Where two values that are not zero differ in type, some order does not come to the sum. */
  lemma OrderMatters<K(!new)>(c: map<K, Value>, base: Option<Value>) returns (order: seq<K>)
    requires IsOpen(base) && !Agree(c)
    ensures Lists(order, c)
    ensures var r := Run(c, order, Tally(base, false)).now; r.Some? && Num(r.value) != SumMap(Nums(c))
  {
    var a, b :| a in c && b in c && !c[a].IsZero() && !c[b].IsZero() && c[a].valueType != c[b].valueType;
    BlockingLists(c, a, b);
    BlockingLists(c, b, a);
    TypeListKeys(c, a);
    TypeListKeys(c, b);
    SumOfParts(c, a, b);
    NonZeroIsSupported(c[a]);
    hide *;
    if Num(c[b]) + SumOver(c, TypeList(c, b)) != 0.0 {
      order := Blocking(c, a, b);
      BlockingRun(c, a, b, base);
    } else {
      order := Crossing(c, b, a);
      CrossingRun(c, b, a, base);
    }
  }

  /** Every order comes to the sum if and only if the values that are not zero agree in type. */
  lemma SumIffAgree<K(!new)>(c: map<K, Value>, base: Option<Value>)
    requires IsOpen(base) && c != map[]
    ensures Agree(c) <==> forall order :: Lists(order, c) ==> ComesToSum(c, order, base)
  {
    if Agree(c) {
      forall order | Lists(order, c)
        ensures ComesToSum(c, order, base)
      {
        TotalOfContainers(c, order, base);
      }
    } else {
      var order := OrderMatters(c, base);
      assert !ComesToSum(c, order, base);
    }
  }

  ghost predicate ComesToSum<K(!new)>(c: map<K, Value>, order: seq<K>, base: Option<Value>) {
    (forall k :: k in order ==> k in c)
    && var r := Run(c, order, Tally(base, false)).now;
       r.Some? && Num(r.value) == SumMap(Nums(c))
  }
}
