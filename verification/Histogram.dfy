/**
 Prometheus-style histograms and their conversion to weighted centroids (wf/distribution.go).

 Floats are reals; a bucket bound is a real or plus infinity. Rounding and NaN are not modelled.
 */
module Histogram {
  import opened Bags
  import opened Sums

  datatype Bound = Finite(v: real) | Inf

  datatype Centroid = Centroid(value: Bound, count: real)

  predicate Below(a: Bound, b: Bound) {
    a.Finite? && (b.Inf? || a.v < b.v)
  }

  predicate AtMost(a: Bound, b: Bound) {
    b.Inf? || (a.Finite? && a.v <= b.v)
  }

  predicate Positive(b: Bound) {
    b.Inf? || b.v > 0.0
  }

  function Mid(a: Bound, b: Bound): Bound {
    if a.Finite? && b.Finite? then Finite((a.v + b.v) / 2.0) else Inf
  }

  function Max(a: real, b: real): real {
    if a < b then b else a
  }

  function Trunc(x: real): real {
    if x >= 0.0 then x.Floor as real else -((-x).Floor as real)
  }

  const MAX_FLOAT64: real := 179769313486231570814527423731704356798070567525844996598917476803157260780028538760589558632766878171540458953514382464234321326889464182768467546703537516986049910576551282076245490090389328944075868508455133942304583236903222948165808559332123348274797826204144723168738177180919299881250404026184124858368.0

  // ---- sorting, as newDistribution does -------------------------------------------------------

  ghost predicate Sorted(s: seq<Centroid>) {
    forall i, j :: 0 <= i < j < |s| ==> AtMost(s[i].value, s[j].value)
  }

  ghost predicate StrictlySorted(s: seq<Centroid>) {
    forall i, j :: 0 <= i < j < |s| ==> Below(s[i].value, s[j].value)
  }

  /** c behind every element of s that is at most c, when s is sorted. */
  function Insert(s: seq<Centroid>, c: Centroid): seq<Centroid> {
    if s == [] || AtMost(s[|s| - 1].value, c.value) then s + [c]
    else Insert(s[..|s| - 1], c) + [s[|s| - 1]]
  }

  function SortByValue(s: seq<Centroid>): seq<Centroid> {
    if s == [] then [] else Insert(SortByValue(s[..|s| - 1]), s[|s| - 1])
  }

  lemma InsertedAtMost(s: seq<Centroid>, c: Centroid, last: Centroid)
    requires multiset(Insert(s, c)) == multiset(s) + multiset{c}
    requires AtMost(c.value, last.value) && forall x :: x in s ==> AtMost(x.value, last.value)
    ensures forall x :: x in Insert(s, c) ==> AtMost(x.value, last.value)
  {
    forall x | x in Insert(s, c)
      ensures AtMost(x.value, last.value)
    {
      assert x in multiset(Insert(s, c));
      assert x in s || x == c;
    }
  }

  lemma {:induction false} InsertAdds(s: seq<Centroid>, c: Centroid)
    ensures multiset(Insert(s, c)) == multiset(s) + multiset{c}
  {
    if s != [] && !AtMost(s[|s| - 1].value, c.value) {
      InsertAdds(s[..|s| - 1], c);
      assert s == s[..|s| - 1] + [s[|s| - 1]];
    }
  }

  lemma {:induction false} InsertSorts(s: seq<Centroid>, c: Centroid)
    requires Sorted(s)
    ensures Sorted(Insert(s, c))
  {
    if s != [] && !AtMost(s[|s| - 1].value, c.value) {
      var t := s[..|s| - 1];
      InsertSorts(t, c);
      InsertAdds(t, c);
      InsertedAtMost(t, c, s[|s| - 1]);
    }
  }

  lemma {:induction false} SortSorts(s: seq<Centroid>)
    ensures multiset(SortByValue(s)) == multiset(s) && Sorted(SortByValue(s))
  {
    if s != [] {
      var t := s[..|s| - 1];
      SortSorts(t);
      assert s == t + [s[|s| - 1]];
      InsertAdds(SortByValue(t), s[|s| - 1]);
      InsertSorts(SortByValue(t), s[|s| - 1]);
    }
  }

  /** Sorting leaves a sorted sequence alone. */
  lemma {:induction false} SortSorted(s: seq<Centroid>)
    requires Sorted(s)
    ensures SortByValue(s) == s
    decreases |s|
  {
    if s != [] {
      var t := s[..|s| - 1];
      SortSorted(t);
      assert t != [] ==> t[|t| - 1] == s[|s| - 2];
    }
  }

  // ---- cumulative counts to counts per bucket -------------------------------------------------

  function Derived(c: seq<Centroid>): (d: seq<Centroid>)
    ensures |d| == |c|
  {
    seq(|c|, i requires 0 <= i < |c| =>
      Centroid(c[i].value, if i > 0 then c[i].count - c[i - 1].count else c[i].count))
  }

  method DeriveCentroids(centroids: seq<Centroid>) returns (derived: seq<Centroid>)
    ensures derived == Derived(centroids)
  {
    derived := [];
    for i := 0 to |centroids|
      invariant derived == Derived(centroids)[..i]
    {
      var deltaCount := 0.0;
      if i > 0 {
        deltaCount := centroids[i].count - centroids[i - 1].count;
      } else {
        deltaCount := centroids[i].count;
      }
      derived := derived + [Centroid(centroids[i].value, deltaCount)];
    }
  }

  function Smallest(d: seq<Centroid>): (m: real)
    ensures 0.0 < m <= MAX_FLOAT64
    ensures forall i :: 0 <= i < |d| && d[i].count > 0.0 ==> m <= d[i].count
    ensures m == MAX_FLOAT64 || exists i :: 0 <= i < |d| && d[i].count == m
  {
    if d == [] then MAX_FLOAT64
    else
      var m := Smallest(d[..|d| - 1]);
      var c := d[|d| - 1].count;
      if 0.0 < c < m then c else m
  }

  method SmallestCountAboveZero(centroids: seq<Centroid>) returns (minCount: real)
    ensures minCount == Smallest(centroids)
  {
    minCount := MAX_FLOAT64;
    for i := 0 to |centroids|
      invariant minCount == Smallest(centroids[..i])
    {
      assert centroids[..i + 1][..i] == centroids[..i];
      if centroids[i].count > 0.0 && centroids[i].count < minCount {
        minCount := centroids[i].count;
      }
    }
    assert centroids[..|centroids|] == centroids;
  }

  // ---- spreading the buckets ------------------------------------------------------------------

  /** A weight put at a value. */
  datatype Part = Part(at: Bound, weight: real)

  /** The one histogram that is dropped: nothing but a bucket without an upper bound. */
  predicate OnlyInf(d: seq<Centroid>) {
    |d| == 1 && d[0].value.Inf?
  }

  /** No bucket that counts has to look for a bound in front of the first bucket. */
  predicate Safe(d: seq<Centroid>) {
    |d| > 1 && d[0].value.Inf? ==> d[0].count == 0.0
  }

  function Amplification(d: seq<Centroid>): (a: real)
    ensures a >= 1.0
  {
    Max(1.0, 1.0 / Smallest(d))
  }

  function Scaled(count: real, amplification: real): real {
    count * amplification
  }

  predicate Counts(d: seq<Centroid>, i: nat)
    requires i < |d|
  {
    Positive(d[i].value) && Scaled(d[i].count, Amplification(d)) != 0.0
  }

  function Amplified(d: seq<Centroid>, i: nat): (a: real)
    requires i < |d|
    ensures a >= 1.0
  {
    Max(1.0, Scaled(d[i].count, Amplification(d)))
  }

  function OwnBound(d: seq<Centroid>, i: nat): Bound
    requires i < |d| && (d[i].value.Inf? ==> i > 0)
  {
    if d[i].value.Inf? then d[i - 1].value else d[i].value
  }

  function PreviousBound(d: seq<Centroid>, i: nat): Bound
    requires i < |d|
  {
    if i > 0 then d[i - 1].value else Finite(0.0)
  }

  /** The three weights of a bucket: a quarter below, half in the middle, the rest on its bound. */
  function Parts(d: seq<Centroid>, i: nat): seq<Part>
    requires i < |d| && Safe(d) && !OnlyInf(d)
  {
    if !Counts(d, i) then []
    else
      var count, own, previous := Amplified(d, i), OwnBound(d, i), PreviousBound(d, i);
      var lower, middle := Trunc(count / 4.0), Trunc(count / 2.0);
      [Part(previous, lower), Part(Mid(own, previous), middle), Part(own, Trunc(count - lower - middle))]
  }

  function AllParts(d: seq<Centroid>, n: nat): seq<Part>
    requires n <= |d| && Safe(d) && !OnlyInf(d)
  {
    if n == 0 then [] else AllParts(d, n - 1) + Parts(d, n - 1)
  }

  function AddPart(m: map<Bound, real>, p: Part): map<Bound, real> {
    m[p.at := (if p.at in m then m[p.at] else 0.0) + p.weight]
  }

  function Merge(parts: seq<Part>): map<Bound, real> {
    if parts == [] then map[] else AddPart(Merge(parts[..|parts| - 1]), parts[|parts| - 1])
  }

  lemma MergeAdd(parts: seq<Part>, p: Part)
    ensures Merge(parts + [p]) == AddPart(Merge(parts), p)
  {
    assert (parts + [p])[..|parts|] == parts;
  }

  lemma AllPartsNext(d: seq<Centroid>, i: nat)
    requires i < |d| && Safe(d) && !OnlyInf(d)
    ensures AllParts(d, i + 1) == AllParts(d, i) + Parts(d, i)
    ensures !Counts(d, i) ==> AllParts(d, i + 1) == AllParts(d, i)
  {
  }

  lemma ThreeParts(d: seq<Centroid>, i: nat)
    requires i < |d| && Safe(d) && !OnlyInf(d) && Counts(d, i)
    ensures var count, own, previous := Amplified(d, i), OwnBound(d, i), PreviousBound(d, i);
            var lower, middle := Trunc(count / 4.0), Trunc(count / 2.0);
            && |Parts(d, i)| == 3
            && Parts(d, i)[0] == Part(previous, lower)
            && Parts(d, i)[1] == Part(Mid(own, previous), middle)
            && Parts(d, i)[2] == Part(own, Trunc(count - lower - middle))
  {
  }

  lemma NoParts(d: seq<Centroid>)
    requires Safe(d) && !OnlyInf(d)
    ensures Merge(AllParts(d, 0)) == map[]
  {
  }

  method SmoothCentroids(derived: seq<Centroid>) returns (r: seq<Centroid>)
    requires Safe(derived)
    ensures OnlyInf(derived) ==> r == []
    ensures !OnlyInf(derived) ==> Lists(r, Merge(AllParts(derived, |derived|)))
  {
    hide AllParts, Parts, Merge, AddPart, Mid, Trunc;
    if |derived| == 1 && derived[0].value.Inf? {
      return [];
    }
    var smallest := SmallestCountAboveZero(derived);
    var amplification := Max(1.0, 1.0 / smallest);
    assert amplification == Amplification(derived);
    hide Amplification, Scaled, Max;
    var counts: map<Bound, real> := map[];
    NoParts(derived);
    var i := 0;
    while i < |derived|
      invariant 0 <= i <= |derived|
      invariant counts == Merge(AllParts(derived, i))
    {
      var currentBucketBound := derived[i].value;
      var actualBucketCount := Scaled(derived[i].count, amplification);
      AllPartsNext(derived, i);
      if !Positive(currentBucketBound) || actualBucketCount == 0.0 {
        i := i + 1;
        continue;
      }
      actualBucketCount := Max(1.0, actualBucketCount);
      if currentBucketBound.Inf? {
        currentBucketBound := derived[i - 1].value;
      }
      var previousBucketBound := Finite(0.0);
      if i > 0 {
        previousBucketBound := derived[i - 1].value;
      }
      var lowerCount := Trunc(actualBucketCount / 4.0);
      counts := AddTo(counts, previousBucketBound, lowerCount);
      var middleCount := Trunc(actualBucketCount / 2.0);
      counts := AddTo(counts, Mid(currentBucketBound, previousBucketBound), middleCount);
      var upperCount := Trunc(actualBucketCount - lowerCount - middleCount);
      counts := AddTo(counts, currentBucketBound, upperCount);
      ThreeParts(derived, i);
      MergeThree(AllParts(derived, i), Parts(derived, i));
      i := i + 1;
    }
    r := CentroidMapToSlice(counts);
  }

  /** counts[at] += weight, on a map whose missing entries read as zero. */
  function AddTo(counts: map<Bound, real>, at: Bound, weight: real): map<Bound, real> {
    AddPart(counts, Part(at, weight))
  }

  lemma MergeThree(done: seq<Part>, p: seq<Part>)
    requires |p| == 3
    ensures Merge(done + p) == AddPart(AddPart(AddPart(Merge(done), p[0]), p[1]), p[2])
  {
    MergeAdd(done, p[0]);
    MergeAdd(done + [p[0]], p[1]);
    MergeAdd(done + [p[0]] + [p[1]], p[2]);
    assert done + p == done + [p[0]] + [p[1]] + [p[2]];
  }

  /** s holds each entry of m once, in some order. */
  ghost predicate Lists(s: seq<Centroid>, m: map<Bound, real>) {
    && (forall i, j :: 0 <= i < j < |s| ==> s[i].value != s[j].value)
    && (forall i :: 0 <= i < |s| ==> s[i].value in m && m[s[i].value] == s[i].count)
    && (forall k :: k in m ==> exists i :: 0 <= i < |s| && s[i].value == k)
  }

  method CentroidMapToSlice(counts: map<Bound, real>) returns (centroids: seq<Centroid>)
    ensures Lists(centroids, counts)
  {
    centroids := [];
    var todo := counts.Keys;
    while todo != {}
      invariant todo <= counts.Keys
      invariant Lists(centroids, counts - todo)
      decreases |todo|
    {
      var value :| value in todo;
      ghost var before := centroids;
      centroids := centroids + [Centroid(value, counts[value])];
      forall k | k in counts - (todo - {value})
        ensures exists i :: 0 <= i < |centroids| && centroids[i].value == k
      {
        if k == value {
          assert centroids[|before|].value == k;
        } else {
          assert k in counts - todo;
          var i :| 0 <= i < |before| && before[i].value == k;
          assert centroids[i].value == k;
        }
      }
      todo := todo - {value};
    }
    assert counts - todo == counts;
  }

  // ---- the conversion -------------------------------------------------------------------------

  datatype Distribution = Distribution(
    cumulative: bool, name: string, source: string, tags: map<string, string>,
    centroids: seq<Centroid>, timestamp: int)

  /** A cumulative histogram becomes centroids in increasing order; any other distribution stays. */
  method ToFrequency(d: Distribution) returns (r: Distribution)
    requires Safe(Derived(d.centroids))
    ensures !d.cumulative ==> r == d
    ensures d.cumulative ==> r == d.(cumulative := false, centroids := r.centroids)
    ensures d.cumulative ==> Converts(d.centroids, r.centroids)
  {
    if !d.cumulative {
      return d;
    }
    var derived := DeriveCentroids(d.centroids);
    var smooth := SmoothCentroids(derived);
    r := Distribution(false, d.name, d.source, d.tags, SortByValue(smooth), d.timestamp);
    if !OnlyInf(derived) {
      SortLists(smooth, Merge(AllParts(derived, |derived|)));
    }
  }

  /** r is the conversion of the cumulative buckets c. */
  ghost predicate Converts(c: seq<Centroid>, r: seq<Centroid>)
    requires Safe(Derived(c))
  {
    var d := Derived(c);
    if OnlyInf(d) then r == [] else StrictlySorted(r) && Lists(r, Merge(AllParts(d, |d|)))
  }

  lemma SortLists(s: seq<Centroid>, m: map<Bound, real>)
    requires Lists(s, m)
    ensures StrictlySorted(SortByValue(s)) && Lists(SortByValue(s), m)
  {
    hide Merge, SortByValue;
    var r := SortByValue(s);
    SortSorts(s);
    SameMembers(s, r);
    DistinctPermutation(s, r);
    forall i, j | 0 <= i < j < |r|
      ensures Below(r[i].value, r[j].value)
    {
      assert AtMost(r[i].value, r[j].value) && r[i].value != r[j].value;
    }
    forall i | 0 <= i < |r|
      ensures r[i].value in m && m[r[i].value] == r[i].count
    {
      assert r[i] in r;
    }
    forall k | k in m
      ensures exists i :: 0 <= i < |r| && r[i].value == k
    {
      var a :| 0 <= a < |s| && s[a].value == k;
      assert s[a] in s;
      var i :| 0 <= i < |r| && r[i] == s[a];
    }
  }

  /** A permutation of centroids with distinct values has distinct values. */
  lemma DistinctPermutation(s: seq<Centroid>, r: seq<Centroid>)
    requires multiset(s) == multiset(r)
    requires forall i, j :: 0 <= i < j < |s| ==> s[i].value != s[j].value
    ensures forall i, j :: 0 <= i < j < |r| ==> r[i].value != r[j].value
  {
    DistinctBag(s, r);
    SameMembers(s, r);
    forall i, j | 0 <= i < j < |r|
      ensures r[i].value != r[j].value
    {
      assert r[i] in s && r[j] in s && r[i] != r[j];
    }
  }
}
