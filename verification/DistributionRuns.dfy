/** What the distribution rate calculator does to each series over a whole run of batches. */
module DistributionRuns {
  import opened Histogram
  import opened DistributionRates
  import opened Wrappers

  /** The first distribution of a series in a batch; later ones are duplicates. */
  function FirstIn(k: Key, items: seq<Item>): Option<Snapshot> {
    if items == [] then None
    else if FirstIn(k, items[..|items| - 1]).Some? then FirstIn(k, items[..|items| - 1])
    else if items[|items| - 1].Histo? && items[|items| - 1].h.key == k then Some(items[|items| - 1].h)
    else None
  }

  /** The distributions of one series in a batch, in order. */
  function OfSeries(k: Key, items: seq<Item>): seq<Snapshot> {
    if items == [] then []
    else
      var last := items[|items| - 1];
      OfSeries(k, items[..|items| - 1]) + if last.Histo? && last.h.key == k then [last.h] else []
  }

  /** The metrics of a batch that are not distributions, in order. */
  function Others(items: seq<Item>): seq<Item> {
    if items == [] then []
    else Others(items[..|items| - 1]) + if items[|items| - 1].Histo? then [] else [items[|items| - 1]]
  }

  lemma Snoc<T>(s: seq<T>, x: T)
    ensures (s + [x])[..|s|] == s
  {
  }

  function RateList(r: Option<Snapshot>): seq<Snapshot> {
    if r.Some? then [r.value] else []
  }

  /** Where a pass stands for one series, whose first distribution so far is given. */
  ghost predicate StandsFor(cache: map<Key, Snapshot>, p: Pass, k: Key, first: Option<Snapshot>) {
    (k in p.seen <==> first.Some?)
    && (first.Some? ==> k in p.cache && p.cache[k] == CloneOf(first.value))
    && (first.None? ==> (k in p.cache <==> k in cache) && (k in cache ==> p.cache[k] == cache[k]))
    && OfSeries(k, p.out)
       == if first.None? then [] else RateList(RateOf(first.value, if k in cache then Some(cache[k]) else None))
  }

  /** Another item: only the first distribution of the series makes a difference to it. */
  lemma SeriesStep(cache: map<Key, Snapshot>, p: Pass, last: Item, k: Key, first: Option<Snapshot>, same: Option<Snapshot>)
    requires StandsFor(cache, p, k, first) && (last.Histo? ==> StandsFor(cache, p, last.h.key, same))
    ensures StandsFor(cache, Step(p, last), k,
              if first.None? && last.Histo? && last.h.key == k then Some(last.h) else first)
  {
    hide RateOf, CloneOf, OfSeries;
    if last.Histo? {
      var d := last.h;
      var prev := if d.key in p.cache then Some(p.cache[d.key]) else None;
      var rate := RateOf(d, prev);
      if rate.Some? {
        RateKeepsKey(d, prev);
        OfSeriesSnoc(k, p.out, Histo(rate.value));
      }
    } else {
      OfSeriesSnoc(k, p.out, last);
    }
  }

  lemma OfSeriesSnoc(k: Key, items: seq<Item>, x: Item)
    ensures OfSeries(k, items + [x]) == OfSeries(k, items) + if x.Histo? && x.h.key == k then [x.h] else []
  {
    Snoc(items, x);
  }

  /** One batch, seen from one series: at most one rate goes out, and the first occurrence is cached. */
  lemma {:induction false} BatchOfSeries(cache: map<Key, Snapshot>, items: seq<Item>, k: Key)
    ensures StandsFor(cache, ProcessBatch(cache, items), k, FirstIn(k, items))
    decreases |items|
  {
    if items != [] {
      hide StandsFor, Step;
      var before := ProcessBatch(cache, items[..|items| - 1]);
      var last := items[|items| - 1];
      BatchOfSeries(cache, items[..|items| - 1], k);
      if last.Histo? {
        BatchOfSeries(cache, items[..|items| - 1], last.h.key);
        SeriesStep(cache, before, last, k, FirstIn(k, items[..|items| - 1]), FirstIn(last.h.key, items[..|items| - 1]));
      } else {
        SeriesStep(cache, before, last, k, FirstIn(k, items[..|items| - 1]), None);
      }
    }
  }

  lemma RateKeepsKey(d: Snapshot, prev: Option<Snapshot>)
    requires RateOf(d, prev).Some?
    ensures RateOf(d, prev).value.key == d.key && RateOf(d, prev).value.timestamp == d.timestamp
  {
  }

  /** Metrics that are not distributions pass through, in order. */
  lemma {:induction false} OthersPassThrough(cache: map<Key, Snapshot>, items: seq<Item>)
    ensures Others(ProcessBatch(cache, items).out) == Others(items)
    decreases |items|
  {
    hide RateOf, CloneOf;
    if items != [] {
      var before := ProcessBatch(cache, items[..|items| - 1]);
      var last := items[|items| - 1];
      OthersPassThrough(cache, items[..|items| - 1]);
      var p := ProcessBatch(cache, items);
      if p.out != before.out {
        Snoc(before.out, p.out[|before.out|]);
      }
    }
  }

  // ---- whole runs -----------------------------------------------------------------------------

  /** The cache after processing the batches of a run, from an empty cache. */
  function CacheAfter(batches: seq<seq<Item>>): map<Key, Snapshot> {
    if batches == [] then map[]
    else ProcessBatch(CacheAfter(batches[..|batches| - 1]), batches[|batches| - 1]).cache
  }

  /** Everything sent for one series over a run. */
  function Emitted(k: Key, batches: seq<seq<Item>>): seq<Snapshot> {
    if batches == [] then []
    else
      var init := batches[..|batches| - 1];
      Emitted(k, init) + OfSeries(k, ProcessBatch(CacheAfter(init), batches[|batches| - 1]).out)
  }

  /** The observations of one series: its first occurrence in each batch that has it. */
  function History(k: Key, batches: seq<seq<Item>>): seq<Snapshot> {
    if batches == [] then []
    else
      var first := FirstIn(k, batches[|batches| - 1]);
      History(k, batches[..|batches| - 1]) + RateList(first)
  }

  /** The rates between neighbours of a history. */
  function RatesAlong(h: seq<Snapshot>): seq<Snapshot> {
    if |h| < 2 then []
    else RatesAlong(h[..|h| - 1]) + RateList(RateOf(h[|h| - 1], Some(CloneOf(h[|h| - 2]))))
  }

  /**
   Over any run, a series is cached as a copy of its latest observation, and what is sent for it are
   the rates between its neighbouring observations.
   */
  lemma {:induction false} RunOfSeries(k: Key, batches: seq<seq<Item>>)
    ensures var h := History(k, batches);
            && (k in CacheAfter(batches) <==> h != [])
            && (h != [] ==> CacheAfter(batches)[k] == CloneOf(h[|h| - 1]))
            && Emitted(k, batches) == RatesAlong(h)
    decreases |batches|
  {
    hide RateOf, CloneOf;
    if batches != [] {
      var init := batches[..|batches| - 1];
      var last := batches[|batches| - 1];
      RunOfSeries(k, init);
      BatchOfSeries(CacheAfter(init), last, k);
      hide ProcessBatch, OfSeries, FirstIn, RatesAlong;
      var h, first := History(k, init), FirstIn(k, last);
      if first.Some? {
        Snoc(h, first.value);
        RatesSnoc(h, first.value);
      } else {
        assert h + [] == h && Emitted(k, init) + [] == Emitted(k, init);
      }
    } else {
      assert RatesAlong([]) == [];
    }
  }

  lemma RatesSnoc(h: seq<Snapshot>, x: Snapshot)
    ensures RatesAlong(h + [x])
            == RatesAlong(h) + RateList(RateOf(x, if h == [] then None else Some(CloneOf(h[|h| - 1]))))
  {
    hide RateOf, CloneOf;
    Snoc(h, x);
    if h == [] {
      NoRateWithoutPrevious(x);
    }
  }

  lemma NoRateWithoutPrevious(d: Snapshot)
    ensures RateOf(d, None).None?
  {
  }

  // ---- conservation ---------------------------------------------------------------------------

  /** b can follow a in a steady history: later, same bounds, and no count has fallen. */
  ghost predicate Follows(a: Snapshot, b: Snapshot) {
    && a.key == b.key && a.timestamp < b.timestamp && |a.centroids| == |b.centroids|
    && forall i :: 0 <= i < |a.centroids| ==>
         a.centroids[i].value == b.centroids[i].value && a.centroids[i].count <= b.centroids[i].count
  }

  ghost predicate Steady(h: seq<Snapshot>) {
    && (forall j :: 0 <= j < |h| ==> Sorted(h[j].centroids))
    && (forall j :: 1 <= j < |h| ==> Follows(h[j - 1], h[j]))
  }

  lemma RatesBetween(curr: seq<Centroid>, prev: seq<Centroid>, t: int)
    requires |curr| == |prev| && forall i :: 0 <= i < |curr| ==> Comparable(curr[i], prev[i], t)
    ensures var r := RateCentroids(curr, prev, t);
            && r.Some? && |r.value| == |curr|
            && forall i :: 0 <= i < |curr| ==>
                 r.value[i].value == curr[i].value && r.value[i].count * Minutes(t) == curr[i].count - prev[i].count
  {
    var r := RateCentroids(curr, prev, t).value;
    hide RateCentroids;
    forall i | 0 <= i < |curr|
      ensures r[i].value == curr[i].value && r[i].count * Minutes(t) == curr[i].count - prev[i].count
    {
      RateAt(curr, prev, t, i);
      Cancel(curr[i].count - prev[i].count, Minutes(t));
    }
  }

  lemma RateAt(curr: seq<Centroid>, prev: seq<Centroid>, t: int, i: nat)
    requires RateCentroids(curr, prev, t).Some? && i < |curr|
    ensures |curr| == |prev| && |RateCentroids(curr, prev, t).value| == |curr| && t > 0
    ensures RateCentroids(curr, prev, t).value[i]
            == Centroid(curr[i].value, (curr[i].count - prev[i].count) / Minutes(t))
  {
    assert Comparable(curr[i], prev[i], t);
  }

  /** One step of a steady history gives a rate that, times the minutes, is the difference of the counts. */
  lemma SteadyStep(a: Snapshot, b: Snapshot)
    requires Follows(a, b) && Sorted(a.centroids) && Sorted(b.centroids)
    ensures var r := RateOf(b, Some(CloneOf(a)));
            && r.Some? && |r.value.centroids| == |b.centroids| && r.value.timestamp == b.timestamp
            && forall i :: 0 <= i < |b.centroids| ==>
                 && r.value.centroids[i].value == b.centroids[i].value
                 && r.value.centroids[i].count * Minutes(b.timestamp - a.timestamp)
                    == b.centroids[i].count - a.centroids[i].count
  {
    hide SortByValue, RateCentroids, Minutes, AtMost;
    SortSorted(a.centroids);
    var t := b.timestamp - a.timestamp;
    RatesBetween(b.centroids, a.centroids, t);
    SortSorted(RateCentroids(b.centroids, a.centroids, t).value);
  }

  lemma Cancel(x: real, t: real)
    requires t > 0.0
    ensures (x / t) * t == x
  {
  }

  /** The rates of a history times the minutes they cover, summed for one bucket. */
  ghost function Volume(h: seq<Snapshot>, i: nat): real
    requires Steady(h) && forall j :: 0 <= j < |h| ==> i < |h[j].centroids|
  {
    if |h| < 2 then 0.0
    else
      var n := |h|;
      SteadyStep(h[n - 2], h[n - 1]);
      Volume(h[..n - 1], i)
      + RateOf(h[n - 1], Some(CloneOf(h[n - 2]))).value.centroids[i].count * Minutes(h[n - 1].timestamp - h[n - 2].timestamp)
  }

  /** In a steady history every neighbouring pair gives a rate, and the volumes telescope. */
  lemma {:induction false} SteadyConserves(h: seq<Snapshot>, i: nat)
    requires h != [] && Steady(h) && forall j :: 0 <= j < |h| ==> i < |h[j].centroids|
    ensures |RatesAlong(h)| == |h| - 1
    ensures Volume(h, i) == h[|h| - 1].centroids[i].count - h[0].centroids[i].count
    decreases |h|
  {
    hide RateOf, CloneOf, Minutes;
    var n := |h|;
    if n > 1 {
      SteadyConserves(h[..n - 1], i);
      SteadyStep(h[n - 2], h[n - 1]);
      assert h[..n - 1][n - 2] == h[n - 2];
    }
  }

  /** The same for a series of a run: what was sent accounts for the whole growth of every bucket. */
  lemma RunConserves(k: Key, batches: seq<seq<Item>>, i: nat)
    requires var h := History(k, batches);
             h != [] && Steady(h) && forall j :: 0 <= j < |h| ==> i < |h[j].centroids|
    ensures var h := History(k, batches);
            && Emitted(k, batches) == RatesAlong(h) && |Emitted(k, batches)| == |h| - 1
            && Volume(h, i) == h[|h| - 1].centroids[i].count - h[0].centroids[i].count
  {
    RunOfSeries(k, batches);
    SteadyConserves(History(k, batches), i);
  }
}
