/** What the conversion of cumulative buckets to centroids conserves, for every histogram. */
module HistogramConversion {
  import opened Sums
  import opened Histogram

  /** Bounds increase strictly, and the cumulative counts never fall. */
  ghost predicate Cumulative(c: seq<Centroid>) {
    && StrictlySorted(c)
    && (forall i :: 0 <= i < |c| ==> c[i].count >= 0.0)
    && (forall i, j :: 0 <= i < j < |c| ==> c[i].count <= c[j].count)
  }

  ghost predicate NonNegative(d: seq<Centroid>) {
    forall i :: 0 <= i < |d| ==> d[i].count >= 0.0
  }

  lemma CumulativeIsSafe(c: seq<Centroid>)
    requires Cumulative(c)
    ensures Safe(Derived(c))
    ensures NonNegative(Derived(c))
    ensures forall i :: 0 <= i < |c| - 1 ==> c[i].value.Finite?
  {
    if |c| > 1 {
      assert Below(c[0].value, c[1].value);
    }
    forall i | 0 <= i < |c| - 1
      ensures c[i].value.Finite?
    {
      assert Below(c[i].value, c[i + 1].value);
    }
  }

  // ---- totals ---------------------------------------------------------------------------------

  ghost function Total(s: seq<Centroid>): real {
    if s == [] then 0.0 else Total(s[..|s| - 1]) + s[|s| - 1].count
  }

  ghost function TotalParts(p: seq<Part>): real {
    if p == [] then 0.0 else TotalParts(p[..|p| - 1]) + p[|p| - 1].weight
  }

  /** The counts of the first n buckets that have a positive bound. */
  ghost function Kept(d: seq<Centroid>, n: nat): real
    requires n <= |d|
  {
    if n == 0 then 0.0 else Kept(d, n - 1) + if Positive(d[n - 1].value) then d[n - 1].count else 0.0
  }

  /** The whole parts of the amplified counts of the buckets that take part. */
  ghost function Floors(d: seq<Centroid>, n: nat): real
    requires n <= |d|
  {
    if n == 0 then 0.0
    else Floors(d, n - 1) + if Counts(d, n - 1) then Amplified(d, n - 1).Floor as real else 0.0
  }

  /** The cumulative count at the largest bound that is not positive, or zero. */
  ghost function Base(c: seq<Centroid>): real {
    if c == [] then 0.0
    else if Positive(c[|c| - 1].value) then Base(c[..|c| - 1])
    else c[|c| - 1].count
  }

  ghost function Last(c: seq<Centroid>): real {
    if c == [] then 0.0 else c[|c| - 1].count
  }

  /** The per-bucket counts of the positive bounds telescope. */
  lemma {:induction false} KeptTelescopes(c: seq<Centroid>, n: nat)
    requires n <= |c| && StrictlySorted(c)
    ensures Kept(Derived(c), n) == Last(c[..n]) - Base(c[..n])
  {
    if n > 0 {
      KeptTelescopes(c, n - 1);
      assert c[..n][..n - 1] == c[..n - 1];
      if !Positive(c[n - 1].value) {
        NothingKept(c, n - 1);
      }
    }
  }

  lemma {:induction false} NothingKept(c: seq<Centroid>, n: nat)
    requires n < |c| && StrictlySorted(c) && !Positive(c[n].value)
    ensures Kept(Derived(c), n) == 0.0
  {
    if n > 0 {
      assert Below(c[n - 1].value, c[n].value);
      NothingKept(c, n - 1);
    }
  }

  // ---- one bucket -----------------------------------------------------------------------------

  lemma Quarters(a: real)
    requires a >= 1.0
    ensures var lower, middle := Trunc(a / 4.0), Trunc(a / 2.0);
            && lower >= 0.0 && middle >= 0.0 && a - lower - middle >= 0.0
            && lower + middle + Trunc(a - lower - middle) == a.Floor as real
  {
    var l, m := (a / 4.0).Floor, (a / 2.0).Floor;
    assert (a - l as real - m as real).Floor == a.Floor - l - m;
  }

  /** The three parts of a bucket weigh the whole part of its amplified count; none is negative. */
  lemma BucketConserves(d: seq<Centroid>, i: nat)
    requires i < |d| && Safe(d) && !OnlyInf(d) && Counts(d, i)
    ensures TotalParts(Parts(d, i)) == Amplified(d, i).Floor as real
    ensures forall p :: p in Parts(d, i) ==> p.weight >= 0.0
  {
    ThreeParts(d, i);
    Quarters(Amplified(d, i));
    hide Amplified, Parts, Trunc;
    var p := Parts(d, i);
    assert p[..2][..1] == p[..1];
    assert p[..1][..0] == p[..0] == [];
    assert TotalParts(p[..1]) == p[0].weight;
    assert TotalParts(p[..2]) == p[0].weight + p[1].weight;
    assert TotalParts(p) == TotalParts(p[..2]) + p[2].weight;
  }

  /** For a count that is not negative, the lower limit of one never takes effect. */
  lemma AmplifiedAtLeastOne(d: seq<Centroid>, i: nat)
    requires i < |d| && d[i].count > 0.0
    ensures Scaled(d[i].count, Amplification(d)) >= 1.0
    ensures Amplified(d, i) == Scaled(d[i].count, Amplification(d))
  {
    var s := Smallest(d);
    var a := Amplification(d);
    if s <= 1.0 {
      assert d[i].count >= s;
      ScaledUp(d[i].count, s);
      ScaledMonotone(d[i].count, 1.0 / s, a);
    } else {
      ScaledMonotone(d[i].count, 1.0, a);
      assert Scaled(d[i].count, 1.0) == d[i].count;
    }
  }

  lemma ScaledUp(x: real, s: real)
    requires x >= s > 0.0
    ensures Scaled(x, 1.0 / s) >= 1.0
  {
    ScaledMonotone(1.0 / s, s, x);
    assert Scaled(1.0 / s, s) == 1.0;
  }

  lemma ScaledMonotone(x: real, a: real, b: real)
    requires x >= 0.0 && a <= b
    ensures Scaled(x, a) <= Scaled(x, b)
  {
    assert x * (b - a) >= 0.0;
  }

  /** Every part lies between the previous bound and the bucket's own finite bound. */
  lemma PartsLieInBucket(c: seq<Centroid>, i: nat, p: Part)
    requires Cumulative(c) && i < |c| && !OnlyInf(Derived(c)) && Safe(Derived(c)) && p in Parts(Derived(c), i)
    ensures p.at.Finite?
    ensures AtMost(PreviousBound(Derived(c), i), p.at)
    ensures AtMost(p.at, c[i].value)
    ensures c[i].value.Inf? ==> p.at == PreviousBound(Derived(c), i)
  {
    CumulativeIsSafe(c);
    var d := Derived(c);
    ThreeParts(d, i);
    hide Parts, Amplified;
    if i > 0 {
      assert Below(c[i - 1].value, c[i].value);
    }
  }

  // ---- all buckets ----------------------------------------------------------------------------

  lemma {:induction false} TotalPartsCat(p: seq<Part>, q: seq<Part>)
    ensures TotalParts(p + q) == TotalParts(p) + TotalParts(q)
    decreases |q|
  {
    if q == [] {
      assert p + q == p;
    } else {
      assert (p + q)[..|p + q| - 1] == p + q[..|q| - 1];
      TotalPartsCat(p, q[..|q| - 1]);
    }
  }

  lemma {:induction false} AllPartsConserve(d: seq<Centroid>, n: nat)
    requires n <= |d| && Safe(d) && !OnlyInf(d)
    ensures TotalParts(AllParts(d, n)) == Floors(d, n)
    ensures forall p :: p in AllParts(d, n) ==> p.weight >= 0.0
  {
    hide Parts, Amplified;
    if n > 0 {
      AllPartsConserve(d, n - 1);
      AllPartsNext(d, n - 1);
      TotalPartsCat(AllParts(d, n - 1), Parts(d, n - 1));
      if Counts(d, n - 1) {
        BucketConserves(d, n - 1);
      }
    }
  }

  lemma {:induction false} MergeConserves(p: seq<Part>)
    ensures SumMap(Merge(p)) == TotalParts(p)
  {
    if p != [] {
      var q, x := p[..|p| - 1], p[|p| - 1];
      MergeConserves(q);
      SumMapAdd(Merge(q), x.at, x.weight);
    }
  }

  lemma {:induction false} MergeNonNegative(p: seq<Part>)
    requires forall x :: x in p ==> x.weight >= 0.0
    ensures forall k :: k in Merge(p) ==> Merge(p)[k] >= 0.0 && exists x :: x in p && x.at == k
  {
    if p != [] {
      MergeNonNegative(p[..|p| - 1]);
      assert p[|p| - 1] in p;
      forall k | k in Merge(p)
        ensures Merge(p)[k] >= 0.0 && exists x :: x in p && x.at == k
      {
        if k in Merge(p[..|p| - 1]) {
          var x :| x in p[..|p| - 1] && x.at == k;
          assert x in p;
        }
      }
    }
  }

  lemma {:induction false} ListedTotal(s: seq<Centroid>, m: map<Bound, real>)
    requires Lists(s, m)
    ensures Total(s) == SumMap(m)
    decreases |s|
  {
    if s == [] {
      assert m == map[];
    } else {
      var t, x := s[..|s| - 1], s[|s| - 1];
      forall k | k in m - {x.value}
        ensures exists i :: 0 <= i < |t| && t[i].value == k
      {
        var i :| 0 <= i < |s| && s[i].value == k;
        assert t[i].value == k;
      }
      ListedTotal(t, m - {x.value});
      SumMapAt(m, x.value);
    }
  }

  /**
   The converted histogram weighs exactly the whole parts of the amplified bucket counts, whatever
   parts ended up on the same value, and its centroids are finite, strictly increasing and not negative.
   */
  lemma ConversionConserves(c: seq<Centroid>, r: seq<Centroid>)
    requires Cumulative(c) && Safe(Derived(c)) && !OnlyInf(Derived(c)) && Converts(c, r)
    ensures Total(r) == Floors(Derived(c), |c|)
    ensures StrictlySorted(r)
    ensures forall i :: 0 <= i < |r| ==> r[i].value.Finite? && r[i].count >= 0.0
  {
    var d := Derived(c);
    var parts := AllParts(d, |d|);
    AllPartsConserve(d, |d|);
    MergeConserves(parts);
    MergeNonNegative(parts);
    ListedTotal(r, Merge(parts));
    forall i | 0 <= i < |r|
      ensures r[i].value.Finite? && r[i].count >= 0.0
    {
      var x :| x in parts && x.at == r[i].value;
      AllPartsFinite(c, |c|, x);
    }
  }

  lemma {:induction false} AllPartsFinite(c: seq<Centroid>, n: nat, x: Part)
    requires Cumulative(c) && n <= |c| && Safe(Derived(c)) && !OnlyInf(Derived(c)) && x in AllParts(Derived(c), n)
    ensures x.at.Finite?
  {
    AllPartsNext(Derived(c), n - 1);
    if x in Parts(Derived(c), n - 1) {
      PartsLieInBucket(c, n - 1, x);
    } else {
      AllPartsFinite(c, n - 1, x);
    }
  }

  /** The conversion does not depend on the order in which the map of merged weights is listed. */
  lemma {:induction false} ListingsAgree(r: seq<Centroid>, s: seq<Centroid>, m: map<Bound, real>)
    requires Lists(r, m) && Lists(s, m) && StrictlySorted(r) && StrictlySorted(s)
    ensures r == s
    decreases |r|
  {
    BothListed(r, s, m);
    hide Lists, StrictlySorted;
    if r != [] {
      SameLast(r, s, m);
      WithoutLast(r, m);
      WithoutLast(s, m);
      ListingsAgree(r[..|r| - 1], s[..|s| - 1], m - {r[|r| - 1].value});
      SameSnoc(r, s);
    }
  }

  lemma BothListed(r: seq<Centroid>, s: seq<Centroid>, m: map<Bound, real>)
    requires Lists(r, m) && Lists(s, m)
    ensures r == [] <==> s == []
  {
    if r != [] {
      assert r[0].value in m;
    }
    if s != [] {
      assert s[0].value in m;
    }
  }

  lemma SameSnoc<T>(r: seq<T>, s: seq<T>)
    requires r != [] && s != [] && r[..|r| - 1] == s[..|s| - 1] && r[|r| - 1] == s[|s| - 1]
    ensures r == s
  {
    assert r == r[..|r| - 1] + [r[|r| - 1]];
    assert s == s[..|s| - 1] + [s[|s| - 1]];
  }

  lemma SameLast(r: seq<Centroid>, s: seq<Centroid>, m: map<Bound, real>)
    requires Lists(r, m) && Lists(s, m) && StrictlySorted(r) && StrictlySorted(s) && r != [] && s != []
    ensures r[|r| - 1] == s[|s| - 1]
  {
    LargestListed(r, m, s[|s| - 1].value);
    LargestListed(s, m, r[|r| - 1].value);
  }

  lemma LargestListed(r: seq<Centroid>, m: map<Bound, real>, k: Bound)
    requires Lists(r, m) && StrictlySorted(r) && k in m
    ensures r != [] && AtMost(k, r[|r| - 1].value)
  {
    var i :| 0 <= i < |r| && r[i].value == k;
  }

  lemma WithoutLast(r: seq<Centroid>, m: map<Bound, real>)
    requires r != [] && Lists(r, m) && StrictlySorted(r)
    ensures StrictlySorted(r[..|r| - 1]) && Lists(r[..|r| - 1], m - {r[|r| - 1].value})
  {
    var t, x := r[..|r| - 1], r[|r| - 1];
    forall k | k in m - {x.value}
      ensures exists i :: 0 <= i < |t| && t[i].value == k
    {
      var i :| 0 <= i < |r| && r[i].value == k;
      assert t[i].value == k;
    }
  }

  lemma ConversionIsUnique(c: seq<Centroid>, r: seq<Centroid>, s: seq<Centroid>)
    requires Safe(Derived(c)) && Converts(c, r) && Converts(c, s)
    ensures r == s
  {
    var d := Derived(c);
    if !OnlyInf(d) {
      ListingsAgree(r, s, Merge(AllParts(d, |d|)));
    }
  }

  // ---- against the input counts ---------------------------------------------------------------

  lemma FloorOf(d: seq<Centroid>, i: nat)
    requires i < |d| && d[i].count >= 0.0
    ensures Counts(d, i) <==> Positive(d[i].value) && d[i].count > 0.0
    ensures Counts(d, i) ==> Scaled(d[i].count, Amplification(d)) - 1.0 < Amplified(d, i).Floor as real
                             <= Scaled(d[i].count, Amplification(d))
  {
    if d[i].count > 0.0 {
      AmplifiedAtLeastOne(d, i);
    } else {
      assert Scaled(d[i].count, Amplification(d)) == 0.0;
    }
  }

  lemma {:induction false} FloorsNearKept(d: seq<Centroid>, n: nat)
    requires n <= |d| && NonNegative(d)
    ensures Scaled(Kept(d, n), Amplification(d)) - n as real <= Floors(d, n) <= Scaled(Kept(d, n), Amplification(d))
  {
    if n > 0 {
      FloorsNearKept(d, n - 1);
      FloorOf(d, n - 1);
      hide Amplification, Amplified, Smallest, Scaled;
      ScaledAdds(Kept(d, n - 1), if Positive(d[n - 1].value) then d[n - 1].count else 0.0, Amplification(d));
      ScaledNothing(Amplification(d));
    } else {
      ScaledNothing(Amplification(d));
    }
  }

  lemma ScaledAdds(x: real, y: real, a: real)
    ensures Scaled(x + y, a) == Scaled(x, a) + Scaled(y, a)
  {
  }

  lemma ScaledNothing(a: real)
    ensures Scaled(0.0, a) == 0.0
  {
  }

  /**
   For every cumulative histogram the converted weight is the amplified number of observations above
   the non-positive bounds, short of it by at most one per bucket.
   */
  lemma WeightNearCount(c: seq<Centroid>, r: seq<Centroid>)
    requires Cumulative(c) && Safe(Derived(c)) && !OnlyInf(Derived(c)) && Converts(c, r)
    ensures var w := Scaled(Last(c) - Base(c), Amplification(Derived(c)));
            w - |c| as real <= Total(r) <= w
  {
    hide Converts, Cumulative, Amplification, Floors, Scaled, StrictlySorted, Total, Last, Base, OnlyInf, Safe;
    ConversionConserves(c, r);
    FloorsNearCount(c);
  }

  lemma FloorsNearCount(c: seq<Centroid>)
    requires Cumulative(c)
    ensures var w := Scaled(Last(c) - Base(c), Amplification(Derived(c)));
            w - |c| as real <= Floors(Derived(c), |c|) <= w
  {
    hide *;
    CumulativeIsSafe(c);
    FloorsNearKept(Derived(c), |c|);
    KeptOf(c);
  }

  lemma KeptOf(c: seq<Centroid>)
    requires Cumulative(c)
    ensures Kept(Derived(c), |c|) == Last(c) - Base(c)
  {
    KeptTelescopes(c, |c|);
    assert c[..|c|] == c;
  }

  predicate Whole(x: real) {
    x.Floor as real == x
  }

  lemma WholeIsNotAmplified(d: seq<Centroid>)
    requires forall i :: 0 <= i < |d| ==> Whole(d[i].count)
    ensures Amplification(d) == 1.0
  {
    var s := Smallest(d);
    assert s >= 1.0;
    assert 1.0 / s <= 1.0;
  }

  lemma {:induction false} WholeFloors(d: seq<Centroid>, n: nat)
    requires n <= |d| && NonNegative(d) && forall i :: 0 <= i < |d| ==> Whole(d[i].count)
    ensures Floors(d, n) == Kept(d, n)
  {
    if n > 0 {
      WholeFloors(d, n - 1);
      WholeIsNotAmplified(d);
      FloorOf(d, n - 1);
      assert Scaled(d[n - 1].count, 1.0) == d[n - 1].count;
    }
  }

  /**
   With whole counts the weight is exactly the last cumulative count minus the cumulative count at the
   largest non-positive bound, unless the histogram is a lone unbounded bucket that has counted something.
   */
  lemma WholeWeightIsExact(c: seq<Centroid>, r: seq<Centroid>)
    requires Cumulative(c) && Safe(Derived(c)) && Converts(c, r)
    requires forall i :: 0 <= i < |c| ==> Whole(c[i].count)
    ensures Total(r) == Last(c) - Base(c) <==> !(|c| == 1 && c[0].value.Inf? && c[0].count > 0.0)
  {
    CumulativeIsSafe(c);
    if OnlyInf(Derived(c)) {
      assert c[..0] == [];
      assert Base(c) == 0.0;
    } else {
      hide Converts, Cumulative, Total, Last, Base;
      ConversionConserves(c, r);
      WholeFloorsTelescope(c);
    }
  }

  lemma WholeFloorsTelescope(c: seq<Centroid>)
    requires Cumulative(c) && forall i :: 0 <= i < |c| ==> Whole(c[i].count)
    ensures Floors(Derived(c), |c|) == Last(c) - Base(c)
  {
    hide *;
    CumulativeIsSafe(c);
    WholeDerived(c);
    WholeFloors(Derived(c), |c|);
    KeptOf(c);
  }

  lemma WholeDerived(c: seq<Centroid>)
    requires forall i :: 0 <= i < |c| ==> Whole(c[i].count)
    ensures forall i :: 0 <= i < |c| ==> Whole(Derived(c)[i].count)
  {
    hide Whole;
    forall i | 0 <= i < |c|
      ensures Whole(Derived(c)[i].count)
    {
      if i > 0 {
        WholeDifference(c[i].count, c[i - 1].count);
      }
    }
  }

  lemma WholeDifference(x: real, y: real)
    requires Whole(x) && Whole(y)
    ensures Whole(x - y)
  {
    assert x - y == (x.Floor - y.Floor) as real;
  }
}
