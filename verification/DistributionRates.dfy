/**
 Rates of cumulative histograms between batches (distribution_rate_calculator.go, and Clone, Rate and
 CentroidRate of wf/distribution.go).

 Distributions, their tag maps and their centroid slices are objects: the calculator keeps clones of
 what it saw, and the batch it works on belongs to others, who may change it afterwards.
 */
module DistributionRates {
  import opened Histogram
  import opened StringMaps
  import opened Wrappers

  // ---- values ---------------------------------------------------------------------------------

  /** What the hash of a distribution is computed from; the hash itself is taken to be injective. */
  datatype Key = Key(cumulative: bool, name: string, source: string, tags: map<string, string>)

  /** The contents of a distribution at one moment; timestamps are nanoseconds. */
  datatype Snapshot = Snapshot(key: Key, centroids: seq<Centroid>, timestamp: int)

  function Minutes(duration: int): real {
    duration as real / 60000000000.0
  }

  predicate Comparable(curr: Centroid, prev: Centroid, duration: int) {
    curr.value == prev.value && prev.count <= curr.count && duration > 0
  }

  /** The centroids per minute, unless a bound changed, a count fell or no time has passed. */
  function RateCentroids(curr: seq<Centroid>, prev: seq<Centroid>, duration: int): Option<seq<Centroid>> {
    if |curr| == |prev| && forall i :: 0 <= i < |curr| ==> Comparable(curr[i], prev[i], duration) then
      Some(seq(|curr|, i requires 0 <= i < |curr| && Comparable(curr[i], prev[i], duration) =>
        Centroid(curr[i].value, (curr[i].count - prev[i].count) / Minutes(duration))))
    else
      None
  }

  function RateOf(d: Snapshot, prev: Option<Snapshot>): Option<Snapshot> {
    if prev.None? || prev.value.key != d.key then None
    else
      var rates :- RateCentroids(d.centroids, prev.value.centroids, d.timestamp - prev.value.timestamp);
      Some(d.(centroids := SortByValue(rates)))
  }

  function CloneOf(d: Snapshot): Snapshot {
    d.(centroids := SortByValue(d.centroids))
  }

  // ---- objects --------------------------------------------------------------------------------

  /** Move the element at i in front of the larger ones before it. */
  method InsertAt(a: array<Centroid>, i: nat)
    requires i < a.Length
    modifies a
    ensures a[..i + 1] == Insert(old(a[..i]), old(a[i]))
    ensures forall k :: i < k < a.Length ==> a[k] == old(a[k])
  {
    hide Insert, AtMost;
    ghost var sorted := a[..i];
    var c := a[i];
    var j := i;
    while j > 0 && !AtMost(a[j - 1].value, c.value)
      invariant 0 <= j <= i
      invariant forall k :: 0 <= k < j ==> a[k] == sorted[k]
      invariant forall k :: j < k <= i ==> a[k] == sorted[k - 1]
      invariant forall k :: j <= k < i ==> !AtMost(sorted[k].value, c.value)
      invariant forall k :: i < k < a.Length ==> a[k] == old(a[k])
    {
      a[j] := a[j - 1];
      j := j - 1;
    }
    a[j] := c;
    InsertIs(sorted, j, c);
    assert a[..j] == sorted[..j] && a[j + 1..i + 1] == sorted[j..];
    assert a[..i + 1] == a[..j] + [a[j]] + a[j + 1..i + 1];
  }

  /** Insertion goes in front of the elements at the end that are larger. */
  lemma {:induction false} InsertIs(s: seq<Centroid>, j: nat, c: Centroid)
    requires j <= |s| && (j > 0 ==> AtMost(s[j - 1].value, c.value))
    requires forall k :: j <= k < |s| ==> !AtMost(s[k].value, c.value)
    ensures Insert(s, c) == s[..j] + [c] + s[j..]
    decreases |s|
  {
    if j < |s| {
      var t := s[..|s| - 1];
      InsertIs(t, j, c);
      assert s[j..] == t[j..] + [s[|s| - 1]] && s[..j] == t[..j];
      assert Insert(s, c) == t[..j] + [c] + t[j..] + [s[|s| - 1]];
    }
  }

  lemma SortNext(s: seq<Centroid>, i: nat)
    requires i < |s|
    ensures SortByValue(s[..i + 1]) == Insert(SortByValue(s[..i]), s[i])
  {
    assert s[..i + 1][..i] == s[..i];
  }

  /** sort.Slice by value, as an insertion sort. */
  method SortCentroids(a: array<Centroid>)
    modifies a
    ensures a[..] == SortByValue(old(a[..]))
  {
    ghost var was := a[..];
    assert a[..0] == SortByValue(was[..0]);
    hide Insert, SortByValue;
    var i := 0;
    while i < a.Length
      invariant 0 <= i <= a.Length
      invariant a[..i] == SortByValue(was[..i])
      invariant forall k :: i <= k < a.Length ==> a[k] == was[k]
    {
      SortNext(was, i);
      InsertAt(a, i);
      i := i + 1;
    }
    assert a[..i] == a[..] && was[..i] == was;
  }

  class Distribution {
    var cumulative: bool
    var name: string
    var source: string
    var tags: StringMap
    var centroids: array<Centroid>
    var timestamp: int

    ghost function View(): Snapshot
      reads this, tags, centroids
    {
      Snapshot(Key(cumulative, name, source, tags.m), centroids[..], timestamp)
    }

    /** newDistribution: takes over the tag map and the slice, and sorts the slice. */
    constructor (cumulative: bool, name: string, source: string, tags: StringMap, centroids: array<Centroid>, timestamp: int)
      modifies centroids
      ensures this.tags == tags && this.centroids == centroids
      ensures View() == Snapshot(Key(cumulative, name, source, tags.m), SortByValue(old(centroids[..])), timestamp)
    {
      this.cumulative, this.name, this.source := cumulative, name, source;
      this.tags, this.centroids, this.timestamp := tags, centroids, timestamp;
      new;
      SortCentroids(centroids);
    }

    method OverrideTag(name: string, value: string)
      modifies tags
      ensures tags.m == old(tags.m)[name := value]
    {
      tags.m := tags.m[name := value];
    }

    method SetSource(source: string)
      modifies `source
      ensures this.source == source
    {
      this.source := source;
    }

    method ComputeKey() returns (k: Key)
      ensures k == View().key
    {
      k := Key(cumulative, name, source, tags.m);
    }

    method Clone() returns (d: Distribution)
      ensures fresh(d) && fresh(d.tags) && fresh(d.centroids)
      ensures d.View() == CloneOf(View())
    {
      var clonedTags := new StringMap(tags.m);
      var cloned := new Centroid[centroids.Length](i requires 0 <= i < centroids.Length reads this, centroids => centroids[i]);
      assert cloned[..] == centroids[..];
      d := new Distribution(cumulative, name, source, clonedTags, cloned, timestamp);
    }

    /** The rate against prev; nil is null. The result shares this distribution's tag map. */
    method Rate(prev: Distribution?) returns (d: Distribution?)
      ensures d == null <==> RateOf(View(), if prev == null then None else Some(prev.View())).None?
      ensures d != null ==> fresh(d) && fresh(d.centroids) && d.tags == tags
      ensures d != null ==> prev != null && Some(d.View()) == RateOf(View(), Some(prev.View()))
    {
      hide RateCentroids, SortByValue;
      if prev == null {
        return null;
      }
      var mine := ComputeKey();
      var theirs := prev.ComputeKey();
      if mine != theirs {
        return null;
      }
      var rates := CentroidRate(centroids, prev.centroids, timestamp - prev.timestamp);
      if rates == null {
        return null;
      }
      d := new Distribution(cumulative, name, source, tags, rates, timestamp);
    }
  }

  method CentroidRate(curr: array<Centroid>, prev: array<Centroid>, duration: int) returns (rates: array?<Centroid>)
    ensures rates == null <==> RateCentroids(curr[..], prev[..], duration).None?
    ensures rates != null ==> fresh(rates) && Some(rates[..]) == RateCentroids(curr[..], prev[..], duration)
  {
    if curr.Length != prev.Length {
      return null;
    }
    var out := new Centroid[curr.Length](_ => Centroid(Inf, 0.0));
    var i := 0;
    while i < curr.Length
      invariant 0 <= i <= curr.Length
      invariant forall j :: 0 <= j < i ==> Comparable(curr[..][j], prev[..][j], duration)
                                           && out[j] == Centroid(curr[j].value, (curr[j].count - prev[j].count) / Minutes(duration))
    {
      if curr[i].value != prev[i].value || curr[i].count < prev[i].count || duration <= 0 {
        assert !Comparable(curr[..][i], prev[..][i], duration);
        return null;
      }
      out[i] := Centroid(curr[i].value, (curr[i].count - prev[i].count) / Minutes(duration));
      i := i + 1;
    }
    rates := out;
    assert rates[..] == RateCentroids(curr[..], prev[..], duration).value;
  }

  // ---- one batch ------------------------------------------------------------------------------

  /** A slot of the metric slice: a distribution, some other metric, or nil. */
  datatype Metric = Dist(d: Distribution) | Other(id: int) | Nil

  /** What a slot holds at one moment. */
  datatype Item = Histo(h: Snapshot) | Plain(id: int) | Empty

  ghost function ViewOf(m: Metric): Item
    reads if m.Dist? then {m.d, m.d.tags, m.d.centroids} else {}
  {
    match m
    case Dist(d) => Histo(d.View())
    case Other(id) => Plain(id)
    case Nil => Empty
  }

  ghost function Views(ms: seq<Metric>): (r: seq<Item>)
    reads *
    ensures |r| == |ms| && forall i :: 0 <= i < |ms| ==> r[i] == ViewOf(ms[i])
  {
    if ms == [] then [] else Views(ms[..|ms| - 1]) + [ViewOf(ms[|ms| - 1])]
  }

  /** A batch whose metric slice is the first part of a backing array. */
  class Batch {
    var backing: array<Metric>
    var length: nat

    ghost predicate Valid()
      reads this
    {
      length <= backing.Length
    }

    ghost function Metrics(): seq<Metric>
      requires Valid()
      reads this, backing
    {
      backing[..length]
    }
  }

  /** What one pass over the batch makes of the cache and the metrics. */
  datatype Pass = Pass(cache: map<Key, Snapshot>, seen: set<Key>, out: seq<Item>)

  function Step(p: Pass, item: Item): Pass {
    if !item.Histo? then p.(out := p.out + [item])
    else
      var d := item.h;
      if d.key in p.seen then p
      else
        var rate := RateOf(d, if d.key in p.cache then Some(p.cache[d.key]) else None);
        Pass(p.cache[d.key := CloneOf(d)], p.seen + {d.key}, if rate.Some? then p.out + [Histo(rate.value)] else p.out)
  }

  function Steps(p: Pass, items: seq<Item>): Pass {
    if items == [] then p else Step(Steps(p, items[..|items| - 1]), items[|items| - 1])
  }

  function ProcessBatch(cache: map<Key, Snapshot>, items: seq<Item>): Pass {
    Steps(Pass(cache, {}, []), items)
  }

  class DistributionRateCalculator {
    var prevDistributions: map<Key, Distribution>
    ghost var Repr: set<object>

    ghost predicate Valid()
      reads this, Repr
    {
      && this in Repr
      && forall k :: k in prevDistributions ==>
           && prevDistributions[k] in Repr
           && prevDistributions[k].tags in Repr
           && prevDistributions[k].centroids in Repr
    }

    /** d shares nothing with the cache. */
    ghost predicate Apart(d: Distribution)
      reads this, d
    {
      d !in Repr && d.tags !in Repr && d.centroids !in Repr
    }

    /** The cache at this moment. */
    ghost function Cache(): map<Key, Snapshot>
      requires Valid()
      reads this, Repr
    {
      map k | k in prevDistributions :: prevDistributions[k].View()
    }

    constructor ()
      ensures Valid() && fresh(Repr) && Cache() == map[]
    {
      prevDistributions := map[];
      Repr := {this};
    }

    method RateAgainstCache(key: Key, d: Distribution) returns (rate: Distribution?)
      requires Valid() && Apart(d) && key == d.View().key
      ensures rate != null ==> fresh(rate) && fresh(rate.centroids) && rate.tags == d.tags
      ensures (if rate == null then None else Some(rate.View()))
              == RateOf(d.View(), if key in Cache() then Some(Cache()[key]) else None)
    {
      hide RateOf;
      var prev := if key in prevDistributions then prevDistributions[key] else null;
      assert prev != null ==> prev.View() == Cache()[key];
      rate := d.Rate(prev);
    }

    method Remember(key: Key, d: Distribution)
      requires Valid() && Apart(d)
      modifies this
      ensures Valid() && Repr == old(Repr) + {d, d.tags, d.centroids}
      ensures Cache() == old(Cache())[key := d.View()]
    {
      prevDistributions := prevDistributions[key := d];
      Repr := Repr + {d, d.tags, d.centroids};
      forall k | k in Cache()
        ensures k in old(Cache())[key := d.View()] && Cache()[k] == old(Cache())[key := d.View()][k]
      {
        if k != key {
          assert prevDistributions[k].View() == old(prevDistributions[k].View());
        }
      }
    }

    method CloneAndRemember(key: Key, d: Distribution)
      requires Valid() && Apart(d)
      modifies this
      ensures Valid() && fresh(Repr - old(Repr))
      ensures Cache() == old(Cache())[key := CloneOf(d.View())]
    {
      hide CloneOf;
      var clone := d.Clone();
      assert Cache() == old(Cache()) && Apart(clone);
      Remember(key, clone);
    }

    /** The rate of d against what is remembered of its series; then a copy of d is remembered instead. */
    method RateAndRemember(key: Key, d: Distribution) returns (rate: Distribution?)
      requires Valid() && Apart(d) && key == d.View().key
      modifies this
      ensures Valid() && fresh(Repr - old(Repr)) && Apart(d)
      ensures rate != null ==> fresh(rate) && fresh(rate.centroids) && rate.tags == d.tags && Apart(rate)
      ensures (if rate == null then None else Some(rate.View()))
              == RateOf(d.View(), if key in old(Cache()) then Some(old(Cache())[key]) else None)
      ensures Cache() == old(Cache())[key := CloneOf(d.View())]
    {
      hide RateOf, CloneOf;
      rate := RateAgainstCache(key, d);
      assert rate != null ==> Apart(rate);
      label before:
      assert Cache() == old(Cache());
      CloneAndRemember(key, d);
      assert fresh@before(Repr - old@before(Repr));
    }
  
    /** The function that the batch is filtered with; seen holds the series met so far. */
    method Filter(e: Metric, seen: set<Key>, ghost out: seq<Item>) returns (newE: Metric, included: bool, seen': set<Key>)
      requires Valid() && (e.Dist? ==> Apart(e.d))
      modifies this
      ensures Valid() && fresh(Repr - old(Repr)) && (e.Dist? ==> Apart(e.d))
      ensures included && newE.Dist? ==> Apart(newE.d)
      ensures var p := Step(Pass(old(Cache()), seen, out), ViewOf(e));
              && Cache() == p.cache && seen' == p.seen
              && p.out == (if included then out + [ViewOf(newE)] else out)
    {
      if !e.Dist? {
        return e, true, seen;
      }
      var key := e.d.ComputeKey();
      if key in seen {
        return e, false, seen;
      }
      ghost var view := e.d.View();
      hide RateOf, CloneOf;
      var rate := RateAndRemember(key, e.d);
      assert e.d.View() == view;
      if rate == null {
        return e, false, seen + {key};
      }
      return Dist(rate), true, seen + {key};
    }

    /** The metrics that were kept show the items of out, and none is in the cache. */
    ghost predicate Keeps(kept: seq<Metric>, out: seq<Item>)
      reads *
    {
      && |kept| == |out|
      && (forall j :: 0 <= j < |kept| ==> ViewOf(kept[j]) == out[j])
      && (forall j :: 0 <= j < |kept| && kept[j].Dist? ==> Apart(kept[j].d))
    }

    /** One round of filterMapInPlace: read slot i, and write slot w when the metric stays. */
    method FilterSlot(es: array<Metric>, i: nat, w: nat, seen: set<Key>, ghost p: Pass, ghost kept: seq<Metric>)
      returns (w': nat, seen': set<Key>, ghost kept': seq<Metric>)
      requires Valid() && w == |kept| <= i < es.Length && es !in Repr
      requires es[i].Dist? ==> Apart(es[i].d)
      requires Cache() == p.cache && seen == p.seen
      requires Keeps(kept, p.out) && es[..w] == kept
      modifies this, es
      ensures Valid() && fresh(Repr - old(Repr)) && es !in Repr
      ensures w' == |kept'| <= i + 1
      ensures var q := Step(p, old(ViewOf(es[i])));
              Cache() == q.cache && seen' == q.seen && Keeps(kept', q.out) && es[..w'] == kept'
      ensures forall j :: i < j < es.Length ==> es[j] == old(es[j])
    {
      hide Step, Cache, Valid, ViewOf;
      var newE, included;
      newE, included, seen' := Filter(es[i], seen, p.out);
      assert Keeps(kept, p.out);
      w', kept' := w, kept;
      if included {
        es[w] := newE;
        assert Keeps(kept, p.out);
        w', kept' := w + 1, kept + [newE];
      }
    }

    /** filterMapInPlace over the first n slots, up to where it knows how many it keeps. */
    method FilterInPlace(es: array<Metric>, n: nat) returns (w: nat, ghost p: Pass)
      requires Valid() && n <= es.Length && es !in Repr
      requires forall m :: m in es[..n] && m.Dist? ==> Apart(m.d)
      modifies this, es
      ensures Valid() && fresh(Repr - old(Repr)) && es !in Repr
      ensures p == ProcessBatch(old(Cache()), old(Views(es[..n]))) && Cache() == p.cache
      ensures w <= n && Keeps(es[..w], p.out)
      ensures forall j :: n <= j < es.Length ==> es[j] == old(es[j])
    {
      hide Step, Steps, Cache, Valid, ViewOf, ProcessBatch, RateOf, CloneOf;
      ghost var was := es[..n];
      ghost var items := Views(was);
      ghost var start := Pass(Cache(), {}, []);
      NoSteps(start, items);
      p := start;
      ghost var kept: seq<Metric> := [];
      assert Keeps(kept, p.out);
      hide Keeps;
      var seen: set<Key> := {};
      w := 0;
      var i := 0;
      while i < n
        invariant Valid() && fresh(Repr - old(Repr)) && es !in Repr
        invariant 0 <= w <= i <= n
        invariant p == Steps(start, items[..i])
        invariant Cache() == p.cache && seen == p.seen
        invariant Keeps(kept, p.out) && es[..w] == kept
        invariant forall j :: i <= j < es.Length ==> es[j] == old(es[j])
      {
        StepsNext(start, items, i);
        assert was[i] in was && ViewOf(was[i]) == old(ViewOf(was[i])) == items[i];
        assert was[i].Dist? ==> old(Apart(was[i].d)) && Apart(was[i].d);
        ghost var q := Step(p, items[i]);
        w, seen, kept := FilterSlot(es, i, w, seen, p, kept);
        p := q;
        i := i + 1;
      }
      assert items[..n] == items;
      ProcessBatchIs(start.cache, items);
    }

    /**
     The pass over a batch: the slice is filtered in place, the write index never ahead of the read
     index, and the slots that are no longer used are cleared. No object of the batch is in the cache
     before or after.
     */
    method Process(batch: Batch)
      requires Valid() && batch.Valid() && batch !in Repr && batch.backing !in Repr
      requires forall m :: m in batch.Metrics() && m.Dist? ==> Apart(m.d)
      modifies this, batch`length, batch.backing
      ensures Valid() && fresh(Repr - old(Repr)) && batch !in Repr && batch.backing !in Repr
      ensures batch.Valid() && batch.length <= old(batch.length)
      ensures var p := ProcessBatch(old(Cache()), old(Views(batch.Metrics())));
              Cache() == p.cache && Views(batch.Metrics()) == p.out
      ensures forall m :: m in batch.Metrics() + old(batch.Metrics()) && m.Dist? ==> Apart(m.d)
      ensures forall i :: batch.length <= i < old(batch.length) ==> batch.backing[i] == Nil
      ensures forall i :: old(batch.length) <= i < batch.backing.Length ==> batch.backing[i] == old(batch.backing[i])
    {
      hide ProcessBatch, Cache, Valid, ViewOf;
      var w; ghost var p;
      w, p := FilterAndClear(batch.backing, batch.length);
      batch.length := w;
      assert batch.Metrics() == batch.backing[..w];
      assert Views(batch.Metrics()) == p.out;
    }

    /** The filtered slots, with those that are no longer used cleared. */
    method FilterAndClear(es: array<Metric>, n: nat) returns (w: nat, ghost p: Pass)
      requires Valid() && n <= es.Length && es !in Repr
      requires forall m :: m in es[..n] && m.Dist? ==> Apart(m.d)
      modifies this, es
      ensures Valid() && fresh(Repr - old(Repr)) && es !in Repr
      ensures p == ProcessBatch(old(Cache()), old(Views(es[..n]))) && Cache() == p.cache
      ensures w <= n && Keeps(es[..w], p.out)
      ensures forall j :: w <= j < n ==> es[j] == Nil
      ensures forall j :: n <= j < es.Length ==> es[j] == old(es[j])
    {
      hide ProcessBatch, Cache, Valid, ViewOf, Views;
      w, p := FilterInPlace(es, n);
      ghost var kept := es[..w];
      ClearTail(es, w, n);
      assert es[..w] == kept;
      assert Keeps(kept, p.out);
    }
  }

  /** Whatever is done to a distribution that was in a batch, the cache does not notice. */
  method ChangeAfterProcess(c: DistributionRateCalculator, d: Distribution, name: string, value: string, x: Centroid)
    requires c.Valid() && c.Apart(d)
    modifies d, d.tags, d.centroids
    ensures c.Valid() && c.Cache() == old(c.Cache())
  {
    hide DistributionRateCalculator.Cache, DistributionRateCalculator.Valid;
    d.OverrideTag(name, value);
    d.SetSource(value);
    if d.centroids.Length > 0 {
      d.centroids[0] := x;
    }
  }

  method ClearTail(es: array<Metric>, w: nat, n: nat)
    requires w <= n <= es.Length
    modifies es
    ensures forall j :: w <= j < n ==> es[j] == Nil
    ensures forall j :: 0 <= j < w || n <= j < es.Length ==> es[j] == old(es[j])
  {
    for k := w to n
      invariant forall j :: w <= j < k ==> es[j] == Nil
      invariant forall j :: 0 <= j < w || n <= j < es.Length ==> es[j] == old(es[j])
    {
      es[k] := Nil;
    }
  }

  lemma ProcessBatchIs(cache: map<Key, Snapshot>, items: seq<Item>)
    ensures ProcessBatch(cache, items) == Steps(Pass(cache, {}, []), items)
  {
  }

  lemma NoSteps(p: Pass, items: seq<Item>)
    ensures Steps(p, items[..0]) == p
  {
  }

  lemma StepsNext(p: Pass, items: seq<Item>, i: nat)
    requires i < |items|
    ensures Steps(p, items[..i + 1]) == Step(Steps(p, items[..i]), items[i])
  {
    assert items[..i + 1][..i] == items[..i];
  }
}
