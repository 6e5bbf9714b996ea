/**
 Rates over runs of flushes, where the cache supplies each former sample. What is cached is the set of the
 batch itself, and the pod aggregator still writes into it after the rates have been calculated
 (collector/plugins/processors/rate_calculator.go, pod_aggregator.go, internal/setup/data_processors.go).
 */
module RateRuns {
  import opened BatchSets
  import opened Metrics
  import opened RateCalculator
  import opened StandardMetrics
  import opened Wrappers

  /**
   One flush: the samples of its batch as they come in, with their rates, and as they are left at the end,
   and whether the cache was pruned.
   */
  datatype Turn = Turn(batch: Samples, after: Samples, left: Samples, prunes: bool)

  /** What comes after the rate calculator neither touches the times nor removes a value, and only appends labeled values. */
  ghost predicate Passed(after: Samples, left: Samples) {
    left.Keys == after.Keys
    && forall k :: k in after ==>
         left[k].start == after[k].start && left[k].scrape == after[k].scrape
         && after[k].values.Keys <= left[k].values.Keys && after[k].labeled <= left[k].labeled
  }

  ghost predicate IsTurn(mapping: Mapping, before: Samples, t: Turn, cache: Samples) {
    AllRated(mapping, t.batch, before, t.after) && Passed(t.after, t.left)
    && cache == CacheSamples(before, t.batch, t.left, t.prunes)
  }

  /** Flushes one after the other, with the samples cached before and after each. */
  ghost predicate IsRun(mapping: Mapping, caches: seq<Samples>, turns: seq<Turn>) {
    |caches| == |turns| + 1
    && forall i :: 0 <= i < |turns| ==> IsTurn(mapping, caches[i], turns[i], caches[i + 1])
  }

  /** The call leaves the resource in the cache, and sees it, if at all, with the metric and without a restart. */
  ghost predicate Steady(t: Turn, k: ResourceKey, m: string, start: int) {
    (t.prunes ==> k in t.batch) && (k in t.batch ==> t.batch[k].start == start && m in t.batch[k].values)
  }

  ghost predicate AllSteady(turns: seq<Turn>, k: ResourceKey, m: string, start: int) {
    forall i :: 0 <= i < |turns| ==> Steady(turns[i], k, m, start)
  }

  /** The resource is cached, with the metric and the collection start. */
  predicate Cached(c: Samples, k: ResourceKey, m: string, start: int) {
    k in c && c[k].start == start && m in c[k].values
  }

  function ValueIn(c: Samples, k: ResourceKey, m: string): int {
    if k in c && m in c[k].values then c[k].values[m].intValue else 0
  }

  predicate Rates(c: Samples, t: Turn, k: ResourceKey) {
    k in c && k in t.batch && Follows(t.batch[k], c[k])
  }

  /** The rate that is in the batch after the call, if the call made one. */
  function RateIn(c: Samples, t: Turn, k: ResourceKey, name: string): Option<Value> {
    if Rates(c, t, k) && k in t.after then Get(t.after[k].values, name) else None
  }

  /** The time that a rate is for. */
  function Elapsed(c: Samples, t: Turn, k: ResourceKey): int
    requires Rates(c, t, k)
  {
    t.batch[k].scrape - c[k].scrape
  }

  /** What the integer rates written over a run add up to, each for its time. */
  function Milli(caches: seq<Samples>, turns: seq<Turn>, k: ResourceKey, name: string): int
    requires |caches| == |turns| + 1
  {
    if turns == [] then 0
    else
      var n := |turns| - 1;
      Milli(caches[..n + 1], turns[..n], k, name)
      + if RateIn(caches[n], turns[n], k, name).Some?
        then RateIn(caches[n], turns[n], k, name).value.intValue * Elapsed(caches[n], turns[n], k) else 0
  }

  /** The same for the rates that are floats. */
  function Float(caches: seq<Samples>, turns: seq<Turn>, k: ResourceKey, name: string): real
    requires |caches| == |turns| + 1
  {
    if turns == [] then 0.0
    else
      var n := |turns| - 1;
      Float(caches[..n + 1], turns[..n], k, name)
      + if RateIn(caches[n], turns[n], k, name).Some?
        then RateIn(caches[n], turns[n], k, name).value.floatValue * Elapsed(caches[n], turns[n], k) as real else 0.0
  }

  /** What the source last reported for the metric: the value of the last sample that was taken, own for the first. */
  function Reported(caches: seq<Samples>, turns: seq<Turn>, k: ResourceKey, m: string, own: int): int
    requires |caches| == |turns| + 1
  {
    if turns == [] then own
    else
      var n := |turns| - 1;
      if Rates(caches[n], turns[n], k) then ValueIn(turns[n].batch, k, m)
      else Reported(caches[..n + 1], turns[..n], k, m, own)
  }

  /** How far the cached value has been moved away from the one reported. */
  function Gap(caches: seq<Samples>, turns: seq<Turn>, k: ResourceKey, m: string, own: int): int
    requires |caches| == |turns| + 1
  {
    ValueIn(caches[|turns|], k, m) - Reported(caches, turns, k, m, own)
  }

  /** The gaps that rates were calculated against. */
  function Gaps(caches: seq<Samples>, turns: seq<Turn>, k: ResourceKey, m: string, own: int): int
    requires |caches| == |turns| + 1
  {
    if turns == [] then 0
    else
      var n := |turns| - 1;
      Gaps(caches[..n + 1], turns[..n], k, m, own)
      + if Rates(caches[n], turns[n], k) then Gap(caches[..n + 1], turns[..n], k, m, own) else 0
  }

  /** What one call does to a resource that is cached: it is rated against the cached sample, or stays as it was. */
  lemma TurnIs(mapping: Mapping, c: Samples, t: Turn, cache: Samples, k: ResourceKey, m: string, start: int)
    requires Proper(mapping) && m in mapping && !IsDisk(m) && IsTurn(mapping, c, t, cache)
    requires Cached(c, k, m, start) && Steady(t, k, m, start)
    ensures Cached(cache, k, m, start)
    ensures if Rates(c, t, k)
            then Elapsed(c, t, k) > 0 && cache[k].scrape == t.batch[k].scrape && k in t.left && cache[k] == t.left[k]
                 && m in t.batch[k].values
                 && (RateFor(m, mapping[m], t.batch[k], c[k]).Some? ==>
                       RateIn(c, t, k, mapping[m].name) == RateFor(m, mapping[m], t.batch[k], c[k]))
            else cache[k] == c[k]
  {
    hide Proper, ValuesRated, LabeledRated, RateFor, IsDisk;
    if Rates(c, t, k) {
      var cur, prev, after := t.batch[k], c[k], t.after[k];
      assert SetRated(mapping, cur, Get(c, k), after);
      SourceUnchanged(mapping, mapping.Keys, cur, prev, after.values, m);
      RatePresent(mapping, cur, prev, after.values, m);
      assert m in after.values;
    }
  }

  lemma RatePresent(mapping: Mapping, cur: Sample, prev: Sample, values: map<string, Value>, m: string)
    requires Follows(cur, prev) && ValuesRated(mapping, mapping.Keys, cur, prev, values) && m in mapping
    ensures var rate := RateFor(m, mapping[m], cur, prev);
            rate.Some? ==> Get(values, mapping[m].name) == rate
  {
    hide RateFor;
  }

  lemma MilliRateFor(target: Target, cur: Sample, prev: Sample)
    requires Follows(cur, prev) && CPU_USAGE in cur.values && CPU_USAGE in prev.values
    ensures !IsDisk(CPU_USAGE)
    ensures RateFor(CPU_USAGE, target, cur, prev)
            == Some(Value(MilliRate(cur.values[CPU_USAGE].intValue - prev.values[CPU_USAGE].intValue,
                                    cur.scrape - prev.scrape), 0.0, ValueInt64))
  {
    CpuIsNoDisk();
    hide MilliRate, SecondRate, CPU_USAGE;
  }

  lemma CpuIsNoDisk()
    ensures !IsDisk(CPU_USAGE)
  {
    assert CPU_USAGE[0] == 'c' && DISK_IO_READ[0] == 'd' && DISK_IO_WRITE[0] == 'd';
  }

  /** The part of a run before its last call. */
  lemma RunBefore(mapping: Mapping, caches: seq<Samples>, turns: seq<Turn>, k: ResourceKey, m: string, start: int)
    requires IsRun(mapping, caches, turns) && AllSteady(turns, k, m, start) && turns != []
    ensures var n := |turns| - 1;
            && IsRun(mapping, caches[..n + 1], turns[..n]) && AllSteady(turns[..n], k, m, start)
            && Steady(turns[n], k, m, start) && IsTurn(mapping, caches[n], turns[n], caches[n + 1])
  {
    hide IsTurn, Steady;
  }

  // ---- CPU time -------------------------------------------------------------------------------

  /**
   Over any run of flushes, the CPU rates that a resource is given account, up to one unit per nanosecond,
   for the growth of what its source reported, less the gaps between cached and reported values.
   */
  lemma {:induction false} RatesAccountForUsage(mapping: Mapping, caches: seq<Samples>, turns: seq<Turn>,
                                               k: ResourceKey, start: int, own: int)
    requires Proper(mapping) && CPU_USAGE in mapping && IsRun(mapping, caches, turns)
    requires Cached(caches[0], k, CPU_USAGE, start) && AllSteady(turns, k, CPU_USAGE, start)
    ensures Cached(caches[|turns|], k, CPU_USAGE, start)
    ensures var off := Milli(caches, turns, k, mapping[CPU_USAGE].name)
                       - 1000 * (Reported(caches, turns, k, CPU_USAGE, own) - own - Gaps(caches, turns, k, CPU_USAGE, own));
            var time := caches[|turns|][k].scrape - caches[0][k].scrape;
            -time <= off <= time
  {
    hide Proper, RateFor, MilliRate, Steady, CPU_USAGE, IsTurn, RateIn, Rates, Elapsed, Follows, ValueIn;
    if turns != [] {
      var n := |turns| - 1;
      RunBefore(mapping, caches, turns, k, CPU_USAGE, start);
      RatesAccountForUsage(mapping, caches[..n + 1], turns[..n], k, start, own);
      CpuTurn(mapping, caches[n], turns[n], caches[n + 1], k, start);
    }
  }

  lemma CpuTurn(mapping: Mapping, c: Samples, t: Turn, cache: Samples, k: ResourceKey, start: int)
    requires Proper(mapping) && CPU_USAGE in mapping && IsTurn(mapping, c, t, cache)
    requires Cached(c, k, CPU_USAGE, start) && Steady(t, k, CPU_USAGE, start)
    ensures var rate := RateIn(c, t, k, mapping[CPU_USAGE].name);
            && Cached(cache, k, CPU_USAGE, start)
            && (rate.Some? ==> Rates(c, t, k)) && c[k].scrape <= cache[k].scrape
            && if Rates(c, t, k)
               then rate.Some?
                    && var off := rate.value.intValue * Elapsed(c, t, k)
                                  - 1000 * (ValueIn(t.batch, k, CPU_USAGE) - ValueIn(c, k, CPU_USAGE));
                       c[k].scrape - cache[k].scrape <= off <= cache[k].scrape - c[k].scrape
               else cache[k] == c[k]
  {
    CpuIsNoDisk();
    hide Proper, RateFor, MilliRate, CPU_USAGE, IsTurn, RateIn, IsDisk;
    TurnIs(mapping, c, t, cache, k, CPU_USAGE, start);
    if Rates(c, t, k) {
      MilliRateFor(mapping[CPU_USAGE], t.batch[k], c[k]);
      MilliRateIsClose(t.batch[k].values[CPU_USAGE].intValue - c[k].values[CPU_USAGE].intValue, Elapsed(c, t, k));
    } else {
      NoRateIn(c, t, k, mapping[CPU_USAGE].name);
    }
  }

  lemma NoRateIn(c: Samples, t: Turn, k: ResourceKey, name: string)
    requires !Rates(c, t, k)
    ensures RateIn(c, t, k, name).None?
  {
  }

  // ---- the other metrics ----------------------------------------------------------------------

  /** A metric with one float rate: neither CPU time nor one of the disk metrics. */
  predicate FloatRated(mapping: Mapping, m: string) {
    m in mapping && mapping[m].valueType == ValueFloat && m != CPU_USAGE && !IsDisk(m)
  }

  /** Every other rate accounts for exactly the growth of what was reported, less the gaps. */
  lemma {:induction false} RatesAreExact(mapping: Mapping, caches: seq<Samples>, turns: seq<Turn>, k: ResourceKey,
                                         m: string, start: int, own: int)
    requires Proper(mapping) && FloatRated(mapping, m)
    requires IsRun(mapping, caches, turns) && Cached(caches[0], k, m, start) && AllSteady(turns, k, m, start)
    ensures Cached(caches[|turns|], k, m, start)
    ensures Float(caches, turns, k, mapping[m].name)
            == 1000000000.0 * (Reported(caches, turns, k, m, own) - own - Gaps(caches, turns, k, m, own)) as real
  {
    hide Proper, RateFor, SecondRate, Steady, CPU_USAGE, IsDisk, IsTurn, RateIn, Rates, Elapsed, Follows, ValueIn;
    if turns != [] {
      var n := |turns| - 1;
      RunBefore(mapping, caches, turns, k, m, start);
      RatesAreExact(mapping, caches[..n + 1], turns[..n], k, m, start, own);
      FloatTurn(mapping, caches[n], turns[n], caches[n + 1], k, m, start);
    }
  }

  lemma FloatTurn(mapping: Mapping, c: Samples, t: Turn, cache: Samples, k: ResourceKey, m: string, start: int)
    requires Proper(mapping) && FloatRated(mapping, m)
    requires IsTurn(mapping, c, t, cache) && Cached(c, k, m, start) && Steady(t, k, m, start)
    ensures var rate := RateIn(c, t, k, mapping[m].name);
            && Cached(cache, k, m, start)
            && (rate.Some? ==> Rates(c, t, k))
            && (if rate.Some? then rate.value.floatValue * Elapsed(c, t, k) as real else 0.0)
               == if Rates(c, t, k) then 1000000000.0 * (ValueIn(t.batch, k, m) - ValueIn(c, k, m)) as real else 0.0
  {
    hide RateFor, SecondRate, Proper, IsTurn, CPU_USAGE, IsDisk, RateIn;
    TurnIs(mapping, c, t, cache, k, m, start);
    if Rates(c, t, k) {
      FloatRateFor(m, mapping[m], t.batch[k], c[k]);
      SecondRateIsExact(t.batch[k].values[m].intValue - c[k].values[m].intValue, Elapsed(c, t, k));
    } else {
      NoRateIn(c, t, k, mapping[m].name);
    }
  }

  lemma FloatRateFor(m: string, target: Target, cur: Sample, prev: Sample)
    requires Follows(cur, prev) && m in cur.values && m in prev.values
    requires target.valueType == ValueFloat && m != CPU_USAGE && !IsDisk(m)
    ensures RateFor(m, target, cur, prev)
            == Some(Value(0, SecondRate(cur.values[m].intValue - prev.values[m].intValue, cur.scrape - prev.scrape), ValueFloat))
  {
    hide SecondRate, MilliRate, IsDisk, CPU_USAGE;
  }

  lemma SecondRateIsExact(dv: int, dt: int)
    requires dt > 0
    ensures SecondRate(dv, dt) * dt as real == 1000000000.0 * dv as real
  {
  }

  // ---- when the rates add up ------------------------------------------------------------------

  /** Up to call n, the rates add up to the growth of what the source reported. */
  ghost predicate ExactUpTo(mapping: Mapping, caches: seq<Samples>, turns: seq<Turn>, k: ResourceKey, m: string, own: int, n: nat)
    requires |caches| == |turns| + 1 && n <= |turns| && m in mapping
  {
    Float(caches[..n + 1], turns[..n], k, mapping[m].name)
    == 1000000000.0 * (Reported(caches[..n + 1], turns[..n], k, m, own) - own) as real
  }

  /** Call n calculates no rate, or against a cached value that is the one reported. */
  ghost predicate NoGapAt(caches: seq<Samples>, turns: seq<Turn>, k: ResourceKey, m: string, own: int, n: nat)
    requires |caches| == |turns| + 1 && n < |turns|
  {
    Rates(caches[n], turns[n], k) ==> Gap(caches[..n + 1], turns[..n], k, m, own) == 0
  }

  /** The rates add up after every call if and only if each is calculated against a value that was reported. */
  lemma {:induction false} ExactIffNoGap(mapping: Mapping, caches: seq<Samples>, turns: seq<Turn>, k: ResourceKey,
                                         m: string, start: int, own: int)
    requires Proper(mapping) && FloatRated(mapping, m)
    requires IsRun(mapping, caches, turns) && Cached(caches[0], k, m, start) && AllSteady(turns, k, m, start)
    ensures (forall n :: 0 <= n <= |turns| ==> ExactUpTo(mapping, caches, turns, k, m, own, n))
            <==> forall n :: 0 <= n < |turns| ==> NoGapAt(caches, turns, k, m, own, n)
  {
    forall n | 0 <= n <= |turns|
      ensures ExactUpTo(mapping, caches, turns, k, m, own, n) <==> GapsUpTo(caches, turns, k, m, own, n) == 0
    {
      RunUpTo(mapping, caches, turns, k, m, start, n);
      RatesAreExact(mapping, caches[..n + 1], turns[..n], k, m, start, own);
    }
    hide ExactUpTo;
    NoGapsIff(caches, turns, k, m, own);
  }

  lemma RunUpTo(mapping: Mapping, caches: seq<Samples>, turns: seq<Turn>, k: ResourceKey, m: string, start: int, n: nat)
    requires IsRun(mapping, caches, turns) && AllSteady(turns, k, m, start) && n <= |turns|
    ensures IsRun(mapping, caches[..n + 1], turns[..n]) && AllSteady(turns[..n], k, m, start)
    ensures caches[..n + 1][0] == caches[0]
  {
    hide IsTurn, Steady;
  }

  function GapsUpTo(caches: seq<Samples>, turns: seq<Turn>, k: ResourceKey, m: string, own: int, n: nat): int
    requires |caches| == |turns| + 1 && n <= |turns|
  {
    Gaps(caches[..n + 1], turns[..n], k, m, own)
  }

  lemma GapsNext(caches: seq<Samples>, turns: seq<Turn>, k: ResourceKey, m: string, own: int, n: nat)
    requires |caches| == |turns| + 1 && n < |turns|
    ensures GapsUpTo(caches, turns, k, m, own, n + 1) == GapsUpTo(caches, turns, k, m, own, n)
            <==> NoGapAt(caches, turns, k, m, own, n)
  {
    hide Gap, Rates;
    assert caches[..n + 2][..n + 1] == caches[..n + 1] && turns[..n + 1][..n] == turns[..n];
  }

  lemma {:induction false} NoGapsSoFar(caches: seq<Samples>, turns: seq<Turn>, k: ResourceKey, m: string, own: int, n: nat)
    requires |caches| == |turns| + 1 && n <= |turns|
    requires forall i :: 0 <= i < |turns| ==> NoGapAt(caches, turns, k, m, own, i)
    ensures GapsUpTo(caches, turns, k, m, own, n) == 0
  {
    if n > 0 {
      hide NoGapAt;
      NoGapsSoFar(caches, turns, k, m, own, n - 1);
      GapsNext(caches, turns, k, m, own, n - 1);
    }
  }

  lemma NoGapsIff(caches: seq<Samples>, turns: seq<Turn>, k: ResourceKey, m: string, own: int)
    requires |caches| == |turns| + 1
    ensures (forall n :: 0 <= n <= |turns| ==> GapsUpTo(caches, turns, k, m, own, n) == 0)
            <==> forall n :: 0 <= n < |turns| ==> NoGapAt(caches, turns, k, m, own, n)
  {
    hide GapsUpTo, NoGapAt;
    if forall n :: 0 <= n < |turns| ==> NoGapAt(caches, turns, k, m, own, n) {
      forall n | 0 <= n <= |turns|
        ensures GapsUpTo(caches, turns, k, m, own, n) == 0
      {
        NoGapsSoFar(caches, turns, k, m, own, n);
      }
    }
    if forall n :: 0 <= n <= |turns| ==> GapsUpTo(caches, turns, k, m, own, n) == 0 {
      forall n | 0 <= n < |turns|
        ensures NoGapAt(caches, turns, k, m, own, n)
      {
        GapsNext(caches, turns, k, m, own, n);
      }
    }
  }

  // ---- where no later processor writes the metric ---------------------------------------------

  /** What comes after the rate calculator leaves the metric of the resource alone. */
  ghost predicate Kept(t: Turn, k: ResourceKey, m: string) {
    k in t.batch && k in t.after && k in t.left ==> Get(t.left[k].values, m) == Get(t.after[k].values, m)
  }

  ghost predicate AllKept(turns: seq<Turn>, k: ResourceKey, m: string) {
    forall i :: 0 <= i < |turns| ==> Kept(turns[i], k, m)
  }

  /** Writing rates leaves the metric they are calculated from. */
  lemma SourceKept(mapping: Mapping, c: Samples, t: Turn, k: ResourceKey, m: string)
    requires Proper(mapping) && m in mapping && AllRated(mapping, t.batch, c, t.after)
    requires Rates(c, t, k) && m in t.batch[k].values
    ensures k in t.after && Get(t.after[k].values, m) == Some(t.batch[k].values[m])
  {
    hide Proper, ValuesRated, LabeledRated;
    assert SetRated(mapping, t.batch[k], Get(c, k), t.after[k]);
    SourceUnchanged(mapping, mapping.Keys, t.batch[k], c[k], t.after[k].values, m);
  }

  lemma KeptTurn(mapping: Mapping, c: Samples, t: Turn, cache: Samples, k: ResourceKey, m: string, start: int)
    requires Proper(mapping) && m in mapping && !IsDisk(m) && IsTurn(mapping, c, t, cache)
    requires Cached(c, k, m, start) && Steady(t, k, m, start) && Kept(t, k, m)
    ensures Cached(cache, k, m, start)
    ensures ValueIn(cache, k, m) == if Rates(c, t, k) then ValueIn(t.batch, k, m) else ValueIn(c, k, m)
  {
    TurnIs(mapping, c, t, cache, k, m, start);
    hide Proper, AllRated, CacheSamples;
    if Rates(c, t, k) {
      SourceKept(mapping, c, t, k, m);
    }
  }

  /** What is cached is then what the source last reported. */
  lemma {:induction false} KeptHasNoGap(mapping: Mapping, caches: seq<Samples>, turns: seq<Turn>, k: ResourceKey, m: string,
                                        start: int)
    requires Proper(mapping) && m in mapping && !IsDisk(m) && IsRun(mapping, caches, turns)
    requires Cached(caches[0], k, m, start) && AllSteady(turns, k, m, start) && AllKept(turns, k, m)
    ensures Cached(caches[|turns|], k, m, start)
    ensures Gap(caches, turns, k, m, ValueIn(caches[0], k, m)) == 0
    decreases |turns|
  {
    hide Proper, IsTurn, Steady, Kept, Rates, ValueIn, IsDisk;
    if turns != [] {
      var n := |turns| - 1;
      RunBefore(mapping, caches, turns, k, m, start);
      KeptHasNoGap(mapping, caches[..n + 1], turns[..n], k, m, start);
      KeptTurn(mapping, caches[n], turns[n], caches[n + 1], k, m, start);
    }
  }

  lemma KeptHasNoGaps(mapping: Mapping, caches: seq<Samples>, turns: seq<Turn>, k: ResourceKey, m: string, start: int)
    requires Proper(mapping) && m in mapping && !IsDisk(m) && IsRun(mapping, caches, turns)
    requires Cached(caches[0], k, m, start) && AllSteady(turns, k, m, start) && AllKept(turns, k, m)
    ensures forall n :: 0 <= n < |turns| ==> NoGapAt(caches, turns, k, m, ValueIn(caches[0], k, m), n)
    ensures Gaps(caches, turns, k, m, ValueIn(caches[0], k, m)) == 0
  {
    hide Proper, IsTurn, Steady, Kept, Rates, ValueIn, IsDisk, Gaps, Gap;
    var own := ValueIn(caches[0], k, m);
    forall n | 0 <= n < |turns|
      ensures NoGapAt(caches, turns, k, m, own, n)
    {
      RunUpTo(mapping, caches, turns, k, m, start, n);
      KeptHasNoGap(mapping, caches[..n + 1], turns[..n], k, m, start);
    }
    NoGapsSoFar(caches, turns, k, m, own, |turns|);
    assert caches[..|turns| + 1] == caches && turns[..|turns|] == turns;
  }

  // ---- the disk metrics -----------------------------------------------------------------------

  predicate OfDevice(x: LabeledValue, m: string, id: string) {
    x.name == m && Lookup(x.labels, LABEL_RESOURCE_ID, "") == id
  }

  /** The first value of the metric for the device. */
  function DeviceValue(l: seq<LabeledValue>, m: string, id: string): Option<Value> {
    if l == [] then None
    else if OfDevice(l[0], m, id) then Some(l[0].value)
    else DeviceValue(l[1..], m, id)
  }

  /** There is a value for the device, and no second one that differs. */
  ghost predicate OneValue(l: seq<LabeledValue>, m: string, id: string) {
    (exists x :: x in l && OfDevice(x, m, id))
    && forall x, y :: x in l && y in l && OfDevice(x, m, id) && OfDevice(y, m, id) ==> x.value == y.value
  }

  /** What is found for a device is one of its values, and there is one if it has any. */
  lemma {:induction false} DeviceValueIs(l: seq<LabeledValue>, m: string, id: string)
    ensures DeviceValue(l, m, id).Some? <==> exists x :: x in l && OfDevice(x, m, id)
    ensures DeviceValue(l, m, id).Some? ==> exists x :: x in l && OfDevice(x, m, id) && Some(x.value) == DeviceValue(l, m, id)
  {
    hide OfDevice;
    if l != [] {
      DeviceValueIs(l[1..], m, id);
      assert forall x :: x in l <==> x == l[0] || x in l[1..];
    }
  }

  /** The calculator looks for the old value in just this way. */
  lemma {:induction false} FindOldIs(l: seq<LabeledValue>, item: LabeledValue, m: string, id: string)
    requires OfDevice(item, m, id)
    ensures FindOld(l, item, m) == DeviceValue(l, m, id)
  {
    if l != [] {
      FindOldIs(l[1..], item, m, id);
    }
  }

  lemma {:induction false} FirstStays(l: seq<LabeledValue>, more: seq<LabeledValue>, m: string, id: string)
    requires DeviceValue(l, m, id).Some?
    ensures DeviceValue(l + more, m, id) == DeviceValue(l, m, id)
  {
    hide OfDevice;
    if l != [] {
      assert (l + more)[0] == l[0] && (l + more)[1..] == l[1..] + more;
      if !OfDevice(l[0], m, id) {
        FirstStays(l[1..], more, m, id);
      }
    }
  }

  /** Each disk rate comes from one item, against the old value of the item's device. */
  lemma {:induction false} DiskRatesFrom(items: seq<LabeledValue>, m: string, target: Target, l: seq<LabeledValue>, dt: int)
    requires dt > 0
    ensures forall x :: x in DiskRates(items, m, target, l, dt) <==> exists y :: y in items && x in DiskRate(y, m, target, l, dt)
  {
    hide DiskRate;
    if items != [] {
      var n := |items| - 1;
      DiskRatesFrom(items[..n], m, target, l, dt);
      assert forall y :: y in items <==> y in items[..n] || y == items[n];
    }
  }

  /** The device has this float value, and no other. */
  ghost predicate HasOnly(l: seq<LabeledValue>, name: string, id: string, v: real) {
    (exists x :: x in l && OfDevice(x, name, id))
    && forall x :: x in l && OfDevice(x, name, id) ==> x.value == Value(0, v, ValueFloat)
  }

  /** Both have the same values under the name. */
  ghost predicate SameNamed(a: seq<LabeledValue>, b: seq<LabeledValue>, name: string) {
    forall x: LabeledValue :: x.name == name ==> (x in a <==> x in b)
  }

  /** A device with one value now and one before gets one rate, for the difference. */
  lemma RateOfDevice(items: seq<LabeledValue>, m: string, target: Target, l: seq<LabeledValue>, dt: int, id: string)
    requires dt > 0 && target.valueType == ValueFloat && OneValue(items, m, id) && DeviceValue(l, m, id).Some?
    ensures DeviceValue(items, m, id).Some?
    ensures var dv := DeviceValue(items, m, id).value.intValue - DeviceValue(l, m, id).value.intValue;
            HasOnly(DiskRates(items, m, target, l, dt), target.name, id, SecondRate(dv, dt))
  {
    hide SecondRate, DiskRates, FindOld, DeviceValue;
    DeviceValueIs(items, m, id);
    DiskRatesFrom(items, m, target, l, dt);
    var rates := DiskRates(items, m, target, l, dt);
    var y :| y in items && OfDevice(y, m, id) && Some(y.value) == DeviceValue(items, m, id);
    FindOldIs(l, y, m, id);
    var rate := Value(0, SecondRate(y.value.intValue - DeviceValue(l, m, id).value.intValue, dt), ValueFloat);
    var x := LabeledValue(target.name, y.labels, rate);
    assert x in DiskRate(y, m, target, l, dt) && OfDevice(x, target.name, id);
    forall z | z in rates && OfDevice(z, target.name, id)
      ensures z.value == rate
    {
      var w :| w in items && z in DiskRate(w, m, target, l, dt);
      FindOldIs(l, w, m, id);
    }
  }

  /** The rate that the call has appended for the device, if it made one. */
  function DiskRateIn(c: Samples, t: Turn, k: ResourceKey, name: string, id: string): Option<Value> {
    if Rates(c, t, k) && k in t.after && |t.batch[k].labeled| <= |t.after[k].labeled|
    then DeviceValue(t.after[k].labeled[|t.batch[k].labeled|..], name, id)
    else None
  }

  /** What the rates of a device add up to over a run, each for its time. */
  function DiskTotal(caches: seq<Samples>, turns: seq<Turn>, k: ResourceKey, name: string, id: string): real
    requires |caches| == |turns| + 1
  {
    if turns == [] then 0.0
    else
      var n := |turns| - 1;
      DiskTotal(caches[..n + 1], turns[..n], k, name, id)
      + if DiskRateIn(caches[n], turns[n], k, name, id).Some?
        then DiskRateIn(caches[n], turns[n], k, name, id).value.floatValue * Elapsed(caches[n], turns[n], k) as real else 0.0
  }

  /** The device is cached. */
  predicate DeviceCached(c: Samples, k: ResourceKey, m: string, id: string, start: int) {
    k in c && c[k].start == start && DeviceValue(c[k].labeled, m, id).Some?
  }

  function DeviceIn(c: Samples, k: ResourceKey, m: string, id: string): int {
    if k in c && DeviceValue(c[k].labeled, m, id).Some? then DeviceValue(c[k].labeled, m, id).value.intValue else 0
  }

  /** The call leaves the resource in the cache, and sees it, if at all, without a restart and with one value of the device. */
  ghost predicate DeviceSteady(t: Turn, k: ResourceKey, m: string, id: string, start: int) {
    (t.prunes ==> k in t.batch) && (k in t.batch ==> t.batch[k].start == start && OneValue(t.batch[k].labeled, m, id))
  }

  ghost predicate AllDeviceSteady(turns: seq<Turn>, k: ResourceKey, m: string, id: string, start: int) {
    forall i :: 0 <= i < |turns| ==> DeviceSteady(turns[i], k, m, id, start)
  }

  /** The value of the device that was last taken. */
  function DeviceReported(caches: seq<Samples>, turns: seq<Turn>, k: ResourceKey, m: string, id: string): int
    requires |caches| == |turns| + 1
  {
    if turns == [] then DeviceIn(caches[0], k, m, id)
    else
      var n := |turns| - 1;
      if Rates(caches[n], turns[n], k) then DeviceIn(turns[n].batch, k, m, id)
      else DeviceReported(caches[..n + 1], turns[..n], k, m, id)
  }

  /** The rates of a metric are those of the one pass over its values. */
  lemma AppendedRates(mapping: Mapping, cur: Sample, prev: Sample, labeled: seq<LabeledValue>, m: string)
    requires Proper(mapping) && Follows(cur, prev) && LabeledRated(mapping, mapping.Keys, cur, prev, labeled)
    requires IsDisk(m) && m in mapping
    ensures SameNamed(labeled[|cur.labeled|..], DiskRates(cur.labeled, m, mapping[m], prev.labeled, cur.scrape - prev.scrape),
                      mapping[m].name)
  {
    hide DiskRates;
    var tail := labeled[|cur.labeled|..];
    forall x: LabeledValue | x.name == mapping[m].name
      ensures x in tail <==> x in DiskRates(cur.labeled, m, mapping[m], prev.labeled, cur.scrape - prev.scrape)
    {
      assert x in tail <==> x in multiset(tail);
      assert x in tail <==> x in DiskPart(mapping, mapping.Keys, DISK_IO_READ, cur, prev)
                            || x in DiskPart(mapping, mapping.Keys, DISK_IO_WRITE, cur, prev);
    }
  }

  /** One call: the device is rated against its cached value, and what is cached afterwards is what was reported. */
  lemma DiskTurn(mapping: Mapping, c: Samples, t: Turn, cache: Samples, k: ResourceKey, m: string, id: string, start: int)
    requires Proper(mapping) && m in mapping && IsDisk(m) && mapping[m].valueType == ValueFloat && IsTurn(mapping, c, t, cache)
    requires DeviceCached(c, k, m, id, start) && DeviceSteady(t, k, m, id, start)
    ensures DeviceCached(cache, k, m, id, start)
    ensures var rate := DiskRateIn(c, t, k, mapping[m].name, id);
            if Rates(c, t, k)
            then rate.Some? && DeviceIn(cache, k, m, id) == DeviceIn(t.batch, k, m, id)
                 && rate.value.floatValue * Elapsed(c, t, k) as real
                    == 1000000000.0 * (DeviceIn(t.batch, k, m, id) - DeviceIn(c, k, m, id)) as real
            else rate.None? && DeviceIn(cache, k, m, id) == DeviceIn(c, k, m, id)
  {
    hide Proper, ValuesRated, LabeledRated, DeviceValue, OneValue, IsDisk;
    if Rates(c, t, k) {
      var cur, prev, after := t.batch[k], c[k], t.after[k];
      assert SetRated(mapping, cur, Get(c, k), after);
      LabeledFirst(mapping, cur, prev, after.labeled);
      DeviceRated(mapping, cur, prev, after.labeled, t.left[k].labeled, m, id);
      SecondRateIsExact(DeviceIn(t.batch, k, m, id) - DeviceIn(c, k, m, id), Elapsed(c, t, k));
      hide SecondRate;
    }
  }

  lemma LabeledFirst(mapping: Mapping, cur: Sample, prev: Sample, labeled: seq<LabeledValue>)
    requires Follows(cur, prev) && LabeledRated(mapping, mapping.Keys, cur, prev, labeled)
    ensures cur.labeled <= labeled
  {
  }

  lemma DeviceRated(mapping: Mapping, cur: Sample, prev: Sample, after: seq<LabeledValue>, left: seq<LabeledValue>, m: string,
                    id: string)
    requires Proper(mapping) && m in mapping && IsDisk(m) && mapping[m].valueType == ValueFloat && Follows(cur, prev)
    requires LabeledRated(mapping, mapping.Keys, cur, prev, after) && cur.labeled <= after <= left
    requires OneValue(cur.labeled, m, id) && DeviceValue(prev.labeled, m, id).Some?
    ensures var now, was := DeviceValue(cur.labeled, m, id), DeviceValue(prev.labeled, m, id);
            now.Some? && DeviceValue(left, m, id) == now
            && DeviceValue(after[|cur.labeled|..], mapping[m].name, id)
               == Some(Value(0, SecondRate(now.value.intValue - was.value.intValue, cur.scrape - prev.scrape), ValueFloat))
  {
    hide *;
    FirstKept(cur.labeled, after, left, m, id);
    NewRate(mapping, cur, prev, after, m, id);
  }

  lemma FirstKept(l: seq<LabeledValue>, after: seq<LabeledValue>, left: seq<LabeledValue>, m: string, id: string)
    requires l <= after <= left && OneValue(l, m, id)
    ensures DeviceValue(l, m, id).Some? && DeviceValue(left, m, id) == DeviceValue(l, m, id)
  {
    DeviceValueIs(l, m, id);
    hide DeviceValue;
    FirstStays(l, left[|l|..], m, id);
    assert left == l + left[|l|..];
  }

  lemma Later(cur: Sample, prev: Sample) returns (dt: int)
    requires Follows(cur, prev)
    ensures dt == cur.scrape - prev.scrape > 0
  {
    dt := cur.scrape - prev.scrape;
  }

  lemma NewRate(mapping: Mapping, cur: Sample, prev: Sample, after: seq<LabeledValue>, m: string, id: string)
    requires Proper(mapping) && m in mapping && IsDisk(m) && mapping[m].valueType == ValueFloat && Follows(cur, prev)
    requires LabeledRated(mapping, mapping.Keys, cur, prev, after) && cur.labeled <= after
    requires OneValue(cur.labeled, m, id) && DeviceValue(prev.labeled, m, id).Some? && DeviceValue(cur.labeled, m, id).Some?
    ensures var now, was := DeviceValue(cur.labeled, m, id), DeviceValue(prev.labeled, m, id);
            DeviceValue(after[|cur.labeled|..], mapping[m].name, id)
            == Some(Value(0, SecondRate(now.value.intValue - was.value.intValue, cur.scrape - prev.scrape), ValueFloat))
  {
    hide *;
    var dt := Later(cur, prev);
    AppendedRates(mapping, cur, prev, after, m);
    RateOfDevice(cur.labeled, m, mapping[m], prev.labeled, dt, id);
    var now, was := DeviceValue(cur.labeled, m, id), DeviceValue(prev.labeled, m, id);
    var rate := SecondRate(now.value.intValue - was.value.intValue, dt);
    RateFound(after[|cur.labeled|..], DiskRates(cur.labeled, m, mapping[m], prev.labeled, dt), mapping[m].name, id, rate);
  }

  /** Of a name's labeled values only those with that name matter. */
  lemma RateFound(tail: seq<LabeledValue>, rates: seq<LabeledValue>, name: string, id: string, rate: real)
    requires SameNamed(tail, rates, name) && HasOnly(rates, name, id, rate)
    ensures DeviceValue(tail, name, id) == Some(Value(0, rate, ValueFloat))
  {
    hide DeviceValue;
    DeviceValueIs(tail, name, id);
  }

  /** Over any run of flushes the rates of a device account for exactly the growth of what was reported for it. */
  lemma {:induction false} DiskRatesAreExact(mapping: Mapping, caches: seq<Samples>, turns: seq<Turn>, k: ResourceKey,
                                             m: string, id: string, start: int)
    requires Proper(mapping) && m in mapping && IsDisk(m) && mapping[m].valueType == ValueFloat
    requires IsRun(mapping, caches, turns)
    requires DeviceCached(caches[0], k, m, id, start) && AllDeviceSteady(turns, k, m, id, start)
    ensures DeviceCached(caches[|turns|], k, m, id, start)
    ensures DeviceIn(caches[|turns|], k, m, id) == DeviceReported(caches, turns, k, m, id)
    ensures DiskTotal(caches, turns, k, mapping[m].name, id)
            == 1000000000.0 * (DeviceReported(caches, turns, k, m, id) - DeviceIn(caches[0], k, m, id)) as real
    decreases |turns|
  {
    hide Proper, IsTurn, IsDisk, DeviceSteady, DeviceIn, DeviceCached, DiskRateIn, Rates, Elapsed, Follows;
    if turns != [] {
      var n := |turns| - 1;
      assert IsRun(mapping, caches[..n + 1], turns[..n]) && AllDeviceSteady(turns[..n], k, m, id, start);
      DiskRatesAreExact(mapping, caches[..n + 1], turns[..n], k, m, id, start);
      DiskTurn(mapping, caches[n], turns[n], caches[n + 1], k, m, id, start);
    }
  }
}
