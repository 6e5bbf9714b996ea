/**
 Rates from consecutive samples of the same resource (collector/plugins/processors/rate_calculator.go).

 The cache holds the last sample of each resource by reference. Times are nanoseconds, and the clock is
 a parameter. The metrics that are mapped and the rates they are mapped to have different names.
 */
module RateCalculator {
  import opened BatchSets
  import opened IntervalTimer
  import opened Metrics
  import opened StandardMetrics
  import opened Wrappers

  const LABEL_RESOURCE_ID := "resource_id"

  /** The rate metric that a metric is mapped to. */
  datatype Target = Target(name: string, valueType: ValueType)

  type Mapping = map<string, Target>

  /** No rate has the name of a mapped metric, and no two rates have the same name. */
  ghost predicate Proper(mapping: Mapping) {
    (forall m, n :: m in mapping && n in mapping ==> mapping[m].name != n)
    && forall m, n :: m in mapping && n in mapping && mapping[m].name == mapping[n].name ==> m == n
  }

  /** The metrics that have rates in the collector. */
  const RATE_METRICS_MAPPING: Mapping :=
    map[CPU_USAGE := Target(RateName(CPU_USAGE), ValueInt64),
        PAGE_FAULTS := Target(RateName(PAGE_FAULTS), ValueFloat),
        MAJOR_PAGE_FAULTS := Target(RateName(MAJOR_PAGE_FAULTS), ValueFloat),
        NETWORK_RX := Target(RateName(NETWORK_RX), ValueFloat),
        NETWORK_RX_ERRORS := Target(RateName(NETWORK_RX_ERRORS), ValueFloat),
        NETWORK_TX := Target(RateName(NETWORK_TX), ValueFloat),
        NETWORK_TX_ERRORS := Target(RateName(NETWORK_TX_ERRORS), ValueFloat),
        DISK_IO_READ := Target(RateName(DISK_IO_READ), ValueFloat),
        DISK_IO_WRITE := Target(RateName(DISK_IO_WRITE), ValueFloat)]

  lemma MappedNames()
    ensures RATE_METRICS_MAPPING.Keys
            == {CPU_USAGE, PAGE_FAULTS, MAJOR_PAGE_FAULTS, NETWORK_RX, NETWORK_RX_ERRORS, NETWORK_TX, NETWORK_TX_ERRORS,
                DISK_IO_READ, DISK_IO_WRITE}
    ensures forall m :: m in RATE_METRICS_MAPPING ==>
              RATE_METRICS_MAPPING[m].name == RateName(m) && (m != CPU_USAGE ==> RATE_METRICS_MAPPING[m].valueType == ValueFloat)
  {
    hide CPU_USAGE, PAGE_FAULTS, MAJOR_PAGE_FAULTS, NETWORK_RX, NETWORK_RX_ERRORS, NETWORK_TX, NETWORK_TX_ERRORS,
      DISK_IO_READ, DISK_IO_WRITE, RateName;
  }

  lemma RateNamesDiffer(m: string, n: string)
    requires RateName(m) == RateName(n)
    ensures m == n
  {
    assert m == RateName(m)[..|RateName(m)| - 5] == RateName(n)[..|RateName(n)| - 5] == n;
  }

  lemma DisksAreNoRates()
    ensures !LooksLikeRate(DISK_IO_READ) && !LooksLikeRate(DISK_IO_WRITE)
  {
  }

  /** In the collector's own table no rate is rated again, and no two metrics share a rate. */
  lemma TableIsProper()
    ensures Proper(RATE_METRICS_MAPPING)
  {
    MappedNames();
    GrowingAreNoRates();
    DisksAreNoRates();
    hide RATE_METRICS_MAPPING, RateName, LooksLikeRate, CPU_USAGE, PAGE_FAULTS, MAJOR_PAGE_FAULTS, NETWORK_RX,
      NETWORK_RX_ERRORS, NETWORK_TX, NETWORK_TX_ERRORS, DISK_IO_READ, DISK_IO_WRITE;
    forall m, n | m in RATE_METRICS_MAPPING && n in RATE_METRICS_MAPPING
      ensures RATE_METRICS_MAPPING[m].name != n
      ensures RATE_METRICS_MAPPING[m].name == RATE_METRICS_MAPPING[n].name ==> m == n
    {
      RateNamesLook(m);
      if RateName(m) == RateName(n) {
        RateNamesDiffer(m, n);
      }
    }
  }

  /** Each metric with a rate, unless it is a disk metric, is a standard metric that only grows; no rate is one. */
  lemma RatedMetricsGrow(m: string)
    requires m in RATE_METRICS_MAPPING
    ensures IsDisk(m) || m in GROWING
    ensures RATE_METRICS_MAPPING[m].name !in GROWING
  {
    MappedNames();
    GrowingAreNoRates();
    RateNamesLook(m);
    hide RATE_METRICS_MAPPING, RateName, LooksLikeRate, CPU_USAGE, PAGE_FAULTS, MAJOR_PAGE_FAULTS, NETWORK_RX,
      NETWORK_RX_ERRORS, NETWORK_TX, NETWORK_TX_ERRORS, DISK_IO_READ, DISK_IO_WRITE;
  }

  /** What the calculator reads and writes of a set. */
  datatype Sample = Sample(start: int, scrape: int, values: map<string, Value>, labeled: seq<LabeledValue>)

  function SampleOf(s: MetricSet): Sample
    reads s
  {
    Sample(s.collectionStartTime, s.scrapeTime, s.values, s.labeledValues)
  }

  // ---- rates ----------------------------------------------------------------------------------

  /** Nanoseconds of CPU time per nanosecond, in thousandths; the division truncates toward zero. */
  function MilliRate(dv: int, dt: int): int
    requires dt > 0
  {
    Quo(1000 * dv, dt)
  }

  function SecondRate(dv: int, dt: int): real
    requires dt > 0
  {
    1000000000.0 * dv as real / dt as real
  }

  /** The truncated rate is the exact one up to less than one unit. */
  lemma MilliRateIsClose(dv: int, dt: int)
    requires dt > 0
    ensures var r := MilliRate(dv, dt); -dt < r * dt - 1000 * dv < dt
  {
    RemIsSmall(1000 * dv, dt);
  }

  /** prev is strictly older than cur, and of the same collection start. */
  predicate Follows(cur: Sample, prev: Sample) {
    prev.scrape < cur.scrape && prev.start == cur.start
  }

  predicate IsDisk(m: string) {
    m == DISK_IO_READ || m == DISK_IO_WRITE
  }

  /** The rate for a metric that is not a disk metric. */
  function RateFor(m: string, target: Target, cur: Sample, prev: Sample): Option<Value>
    requires Follows(cur, prev)
  {
    if IsDisk(m) || m !in cur.values || m !in prev.values then None
    else
      var dv, dt := cur.values[m].intValue - prev.values[m].intValue, cur.scrape - prev.scrape;
      if m == CPU_USAGE then Some(Value(MilliRate(dv, dt), 0.0, ValueInt64))
      else if target.valueType == ValueFloat then Some(Value(0, SecondRate(dv, dt), ValueFloat))
      else None
  }

  /** Only the value of the metric and the times matter. */
  lemma RateForSame(m: string, target: Target, cur: Sample, same: Sample, prev: Sample)
    requires Follows(cur, prev) && same.start == cur.start && same.scrape == cur.scrape
    requires Get(same.values, m) == Get(cur.values, m)
    ensures RateFor(m, target, same, prev) == RateFor(m, target, cur, prev)
    ensures IsDisk(m) ==> RateFor(m, target, cur, prev) == None
  {
    hide MilliRate, SecondRate;
  }

  predicate SameDevice(a: LabeledValue, b: LabeledValue, m: string) {
    a.name == m && Lookup(a.labels, LABEL_RESOURCE_ID, "") == Lookup(b.labels, LABEL_RESOURCE_ID, "")
  }

  /** The first value of the same metric and device in the old sample. */
  function FindOld(l: seq<LabeledValue>, item: LabeledValue, m: string): Option<Value> {
    if l == [] then None
    else if SameDevice(l[0], item, m) then Some(l[0].value)
    else FindOld(l[1..], item, m)
  }

  function DiskRate(item: LabeledValue, m: string, target: Target, l: seq<LabeledValue>, dt: int): seq<LabeledValue>
    requires dt > 0
  {
    var before := FindOld(l, item, m);
    if item.name == m && before.Some? && target.valueType == ValueFloat then
      [LabeledValue(target.name, item.labels, Value(0, SecondRate(item.value.intValue - before.value.intValue, dt), ValueFloat))]
    else []
  }

  /** One rate for each item of a disk metric whose device was there before, in the order of the items. */
  function DiskRates(items: seq<LabeledValue>, m: string, target: Target, l: seq<LabeledValue>, dt: int)
    : (r: seq<LabeledValue>)
    requires dt > 0
    ensures forall x :: x in r ==> x.name == target.name
  {
    if items == [] then []
    else DiskRates(items[..|items| - 1], m, target, l, dt) + DiskRate(items[|items| - 1], m, target, l, dt)
  }

  lemma DiskRatesPush(items: seq<LabeledValue>, i: nat, m: string, target: Target, l: seq<LabeledValue>, dt: int)
    requires dt > 0 && i < |items|
    ensures DiskRates(items[..i + 1], m, target, l, dt)
            == DiskRates(items[..i], m, target, l, dt) + DiskRate(items[i], m, target, l, dt)
  {
    hide DiskRate;
    assert items[..i + 1][..i] == items[..i];
  }

  lemma Associative<T>(a: seq<T>, b: seq<T>, c: seq<T>)
    ensures a + (b + c) == a + b + c
  {
  }

  lemma {:induction false} OthersAddNoRates(items: seq<LabeledValue>, more: seq<LabeledValue>, m: string, target: Target,
                                            l: seq<LabeledValue>, dt: int)
    requires dt > 0 && forall x :: x in more ==> x.name != m
    ensures DiskRates(items + more, m, target, l, dt) == DiskRates(items, m, target, l, dt)
    decreases |more|
  {
    if more == [] {
      assert items + more == items;
    } else {
      assert (items + more)[..|items + more| - 1] == items + more[..|more| - 1];
      OthersAddNoRates(items, more[..|more| - 1], m, target, l, dt);
    }
  }

  function DiskPart(mapping: Mapping, done: set<string>, m: string, cur: Sample, prev: Sample): multiset<LabeledValue>
    requires Follows(cur, prev)
  {
    if m in done && m in mapping
    then multiset(DiskRates(cur.labeled, m, mapping[m], prev.labeled, cur.scrape - prev.scrape))
    else multiset{}
  }

  /** The values are those of the sample, with the rates of the metrics in done. */
  ghost predicate ValuesRated(mapping: Mapping, done: set<string>, cur: Sample, prev: Sample, values: map<string, Value>)
    requires Follows(cur, prev)
  {
    (forall m :: m in done && m in mapping && RateFor(m, mapping[m], cur, prev).Some? ==>
       Get(values, mapping[m].name) == RateFor(m, mapping[m], cur, prev))
    && forall x :: (forall m :: m in done && m in mapping && RateFor(m, mapping[m], cur, prev).Some? ==> mapping[m].name != x)
         ==> Get(values, x) == Get(cur.values, x)
  }

  /** The labeled values of the sample come first; after them come the disk rates, each once. */
  ghost predicate LabeledRated(mapping: Mapping, done: set<string>, cur: Sample, prev: Sample, labeled: seq<LabeledValue>)
    requires Follows(cur, prev)
  {
    cur.labeled <= labeled
    && (forall x :: x in labeled[|cur.labeled|..] ==> x.name !in mapping)
    && multiset(labeled[|cur.labeled|..])
       == DiskPart(mapping, done, DISK_IO_READ, cur, prev) + DiskPart(mapping, done, DISK_IO_WRITE, cur, prev)
  }

  ghost predicate Rated(mapping: Mapping, done: set<string>, cur: Sample, prev: Sample, after: Sample)
    requires Follows(cur, prev)
  {
    after.start == cur.start && after.scrape == cur.scrape
    && ValuesRated(mapping, done, cur, prev, after.values)
    && LabeledRated(mapping, done, cur, prev, after.labeled)
  }

  lemma RatedNone(mapping: Mapping, cur: Sample, prev: Sample)
    requires Follows(cur, prev)
    ensures Rated(mapping, {}, cur, prev, cur)
  {
  }

  /** A mapped metric is never overwritten by a rate. */
  lemma SourceUnchanged(mapping: Mapping, done: set<string>, cur: Sample, prev: Sample, values: map<string, Value>, m: string)
    requires Proper(mapping) && Follows(cur, prev) && ValuesRated(mapping, done, cur, prev, values) && m in mapping
    ensures Get(values, m) == Get(cur.values, m)
  {
    hide RateFor;
  }

  lemma ValuesStep(mapping: Mapping, done: set<string>, cur: Sample, prev: Sample, values: map<string, Value>, m: string)
    requires Proper(mapping) && Follows(cur, prev) && ValuesRated(mapping, done, cur, prev, values)
    requires m in mapping && m !in done
    ensures var rate := RateFor(m, mapping[m], cur, prev);
            ValuesRated(mapping, done + {m}, cur, prev, if rate.Some? then values[mapping[m].name := rate.value] else values)
  {
    hide RateFor;
    var rate := RateFor(m, mapping[m], cur, prev);
    var now := if rate.Some? then values[mapping[m].name := rate.value] else values;
    forall x | forall n :: n in done + {m} && n in mapping && RateFor(n, mapping[n], cur, prev).Some? ==> mapping[n].name != x
      ensures Get(now, x) == Get(cur.values, x)
    {
      assert forall n :: n in done && n in mapping && RateFor(n, mapping[n], cur, prev).Some? ==> n in done + {m};
    }
  }

  lemma LabeledSkip(mapping: Mapping, done: set<string>, cur: Sample, prev: Sample, labeled: seq<LabeledValue>, m: string)
    requires Follows(cur, prev) && LabeledRated(mapping, done, cur, prev, labeled) && !IsDisk(m)
    ensures LabeledRated(mapping, done + {m}, cur, prev, labeled)
  {
    hide DiskRates;
    assert DiskPart(mapping, done + {m}, DISK_IO_READ, cur, prev) == DiskPart(mapping, done, DISK_IO_READ, cur, prev);
    assert DiskPart(mapping, done + {m}, DISK_IO_WRITE, cur, prev) == DiskPart(mapping, done, DISK_IO_WRITE, cur, prev);
  }

  lemma DiskPartStep(mapping: Mapping, done: set<string>, cur: Sample, prev: Sample, m: string, d: string)
    requires Follows(cur, prev) && m in mapping && m !in done
    ensures DiskPart(mapping, done + {m}, d, cur, prev)
            == DiskPart(mapping, done, d, cur, prev)
               + if d == m then multiset(DiskRates(cur.labeled, m, mapping[m], prev.labeled, cur.scrape - prev.scrape))
                 else multiset{}
  {
    hide DiskRates;
  }

  lemma DisksDiffer()
    ensures DISK_IO_READ != DISK_IO_WRITE
  {
    assert DISK_IO_READ[8] != DISK_IO_WRITE[8];
  }

  /** Rates that are appended are not taken for values of a mapped metric. */
  lemma RatesOfSample(mapping: Mapping, done: set<string>, cur: Sample, prev: Sample, labeled: seq<LabeledValue>, m: string)
    requires Follows(cur, prev) && LabeledRated(mapping, done, cur, prev, labeled) && m in mapping
    ensures var dt := cur.scrape - prev.scrape;
            DiskRates(labeled, m, mapping[m], prev.labeled, dt) == DiskRates(cur.labeled, m, mapping[m], prev.labeled, dt)
  {
    hide DiskRates, DiskPart, IsDisk;
    var more := labeled[|cur.labeled|..];
    PrefixSplit(cur.labeled, labeled);
    OthersAddNoRates(cur.labeled, more, m, mapping[m], prev.labeled, cur.scrape - prev.scrape);
  }

  lemma PrefixSplit<T>(a: seq<T>, b: seq<T>)
    requires a <= b
    ensures b == a + b[|a|..]
  {
  }

  lemma AppendParts<T>(head: seq<T>, labeled: seq<T>, rates: seq<T>)
    requires head <= labeled
    ensures head <= labeled + rates
    ensures (labeled + rates)[|head|..] == labeled[|head|..] + rates
    ensures multiset((labeled + rates)[|head|..]) == multiset(labeled[|head|..]) + multiset(rates)
  {
    assert (labeled + rates)[|head|..] == labeled[|head|..] + rates;
  }

  lemma LabeledStep(mapping: Mapping, done: set<string>, cur: Sample, prev: Sample, labeled: seq<LabeledValue>, m: string)
    requires Proper(mapping) && Follows(cur, prev) && LabeledRated(mapping, done, cur, prev, labeled)
    requires m in mapping && m !in done && IsDisk(m)
    ensures LabeledRated(mapping, done + {m}, cur, prev,
              labeled + DiskRates(labeled, m, mapping[m], prev.labeled, cur.scrape - prev.scrape))
  {
    hide DiskRates, DiskPart;
    RatesOfSample(mapping, done, cur, prev, labeled, m);
    var rates := DiskRates(labeled, m, mapping[m], prev.labeled, cur.scrape - prev.scrape);
    AppendParts(cur.labeled, labeled, rates);
    DisksDiffer();
    DiskPartStep(mapping, done, cur, prev, m, DISK_IO_READ);
    DiskPartStep(mapping, done, cur, prev, m, DISK_IO_WRITE);
  }

  // ---- the cache over runs --------------------------------------------------------------------

  /** The scrape times in the cache after a call with a batch of the given scrape times. */
  function CacheAfter(times: map<ResourceKey, int>, batch: map<ResourceKey, int>, prunes: bool): map<ResourceKey, int> {
    map k | k in times.Keys + batch.Keys && (prunes ==> k in batch)
      :: if k !in batch || (k in times && batch[k] <= times[k]) then times[k] else batch[k]
  }

  datatype Call = Call(batch: map<ResourceKey, int>, prunes: bool)

  function CacheAfterAll(times: map<ResourceKey, int>, calls: seq<Call>): map<ResourceKey, int> {
    if calls == [] then times
    else
      var c := calls[|calls| - 1];
      CacheAfter(CacheAfterAll(times, calls[..|calls| - 1]), c.batch, c.prunes)
  }

  /** Every key of the batch is cached, and after pruning no other. */
  lemma BatchIsCached(times: map<ResourceKey, int>, batch: map<ResourceKey, int>, prunes: bool)
    ensures batch.Keys <= CacheAfter(times, batch, prunes).Keys
    ensures prunes ==> CacheAfter(times, batch, prunes).Keys == batch.Keys
  {
  }

  /** No call prunes away k. */
  ghost predicate Keeps(calls: seq<Call>, k: ResourceKey) {
    forall c :: c in calls ==> c.prunes ==> k in c.batch
  }

  /** Between prunes a cached scrape time never goes back: it is the greatest seen, and one that was seen. */
  lemma {:induction false} CachedTimeIsLatest(times: map<ResourceKey, int>, calls: seq<Call>, k: ResourceKey)
    requires k in times && Keeps(calls, k)
    ensures var after := CacheAfterAll(times, calls);
            k in after && times[k] <= after[k]
            && (forall c :: c in calls && k in c.batch ==> c.batch[k] <= after[k])
            && (after[k] == times[k] || exists c :: c in calls && k in c.batch && c.batch[k] == after[k])
  {
    if calls != [] {
      var n := |calls| - 1;
      var rest, last := calls[..n], calls[n];
      assert forall c :: c in calls <==> c in rest || c == last;
      CachedTimeIsLatest(times, rest, k);
      assert last in calls;
    }
  }

  // ---- the processor --------------------------------------------------------------------------

  type Samples = map<ResourceKey, Sample>

  function SamplesOf(sets: map<ResourceKey, MetricSet>): (r: Samples)
    reads sets.Values
    ensures r.Keys == sets.Keys
  {
    map k | k in sets :: SampleOf(sets[k])
  }

  function Times(samples: Samples): map<ResourceKey, int> {
    map k | k in samples :: samples[k].scrape
  }

  /** What a call makes of one set: rates where an older sample of the same start is cached, else nothing. */
  ghost predicate SetRated(mapping: Mapping, cur: Sample, prev: Option<Sample>, after: Sample) {
    if prev.Some? && Follows(cur, prev.value) then Rated(mapping, mapping.Keys, cur, prev.value, after)
    else after == cur
  }

  /** What a call makes of every set of the batch, given the samples that were cached before. */
  ghost predicate AllRated(mapping: Mapping, b: Samples, c: Samples, after: Samples) {
    after.Keys == b.Keys && forall k :: k in b ==> SetRated(mapping, b[k], Get(c, k), after[k])
  }

  /** The samples in the cache after a call: those of the batch as they are after it, if newer, else the former. */
  function CacheSamples(c: Samples, b: Samples, after: Samples, prunes: bool): Samples
    requires after.Keys == b.Keys
  {
    map k | k in c.Keys + b.Keys && (prunes ==> k in b)
      :: if k in b && Replaces(b[k], Get(c, k)) then after[k] else c[k]
  }

  /** What is cached is, key by key, the set of the batch or the set that was cached before. */
  ghost predicate CameFrom(cache: map<ResourceKey, MetricSet>, was: map<ResourceKey, MetricSet>,
                           sets: map<ResourceKey, MetricSet>) {
    forall k :: k in cache ==> (k in sets && cache[k] == sets[k]) || (k in was && cache[k] == was[k])
  }

  class RateCalculator {
    const rateMetricsMapping: Mapping
    var previousMetricSets: map<ResourceKey, MetricSet>
    const cachePruneInterval: int
    var lastPruneTime: int

    constructor (mapping: Mapping, now: int)
      ensures rateMetricsMapping == mapping && previousMetricSets == map[] && lastPruneTime == now
      ensures cachePruneInterval == 300000000000
    {
      rateMetricsMapping := mapping;
      previousMetricSets := map[];
      cachePruneInterval := 300000000000;
      lastPruneTime := now;
    }

    /** The rates of one set, metric by metric in any order. */
    method Rate(cur: MetricSet, prev: MetricSet)
      requires Proper(rateMetricsMapping) && cur != prev && Follows(SampleOf(cur), SampleOf(prev))
      modifies cur`values, cur`labeledValues
      ensures Rated(rateMetricsMapping, rateMetricsMapping.Keys, old(SampleOf(cur)), SampleOf(prev), SampleOf(cur))
    {
      hide *;
      ghost var c, p := SampleOf(cur), SampleOf(prev);
      var todo := rateMetricsMapping.Keys;
      ghost var done: set<string> := {};
      RatedNone(rateMetricsMapping, c, p);
      while todo != {}
        invariant done + todo == rateMetricsMapping.Keys && done !! todo && SampleOf(prev) == p
        invariant Rated(rateMetricsMapping, done, c, p, SampleOf(cur))
        decreases |todo|
      {
        var metricName :| metricName in todo;
        RateMetric(cur, prev, metricName, rateMetricsMapping[metricName], c, done);
        todo := todo - {metricName};
        done := done + {metricName};
      }
      assert done == rateMetricsMapping.Keys;
    }

    method RateMetric(cur: MetricSet, prev: MetricSet, m: string, target: Target, ghost c: Sample, ghost done: set<string>)
      requires Proper(rateMetricsMapping) && cur != prev && Follows(c, SampleOf(prev))
      requires Rated(rateMetricsMapping, done, c, SampleOf(prev), SampleOf(cur))
      requires m in rateMetricsMapping && m !in done && rateMetricsMapping[m] == target
      modifies cur`values, cur`labeledValues
      ensures Rated(rateMetricsMapping, done + {m}, c, SampleOf(prev), SampleOf(cur))
    {
      hide ValuesRated, LabeledRated, DiskRates, RateFor, Proper;
      ghost var p := SampleOf(prev);
      ValuesStep(rateMetricsMapping, done, c, p, cur.values, m);
      SourceUnchanged(rateMetricsMapping, done, c, p, cur.values, m);
      RateForSame(m, target, c, SampleOf(cur), p);
      if m == DISK_IO_READ || m == DISK_IO_WRITE {
        LabeledStep(rateMetricsMapping, done, c, p, cur.labeledValues, m);
        RateDisk(cur, prev, m, target);
      } else {
        LabeledSkip(rateMetricsMapping, done, c, p, cur.labeledValues, m);
        RateValue(cur, prev, m, target);
      }
    }

    /** The rate of a metric that has one value per set. */
    method RateValue(cur: MetricSet, prev: MetricSet, m: string, target: Target)
      requires cur != prev && Follows(SampleOf(cur), SampleOf(prev)) && !IsDisk(m)
      modifies cur`values
      ensures var rate := RateFor(m, target, old(SampleOf(cur)), SampleOf(prev));
              cur.values == if rate.Some? then old(cur.values)[target.name := rate.value] else old(cur.values)
    {
      hide MilliRate, SecondRate;
      if m in cur.values && m in prev.values {
        var dv := cur.values[m].intValue - prev.values[m].intValue;
        var dt := cur.scrapeTime - prev.scrapeTime;
        if m == CPU_USAGE {
          cur.values := cur.values[target.name := Value(MilliRate(dv, dt), 0.0, ValueInt64)];
        } else if target.valueType == ValueFloat {
          cur.values := cur.values[target.name := Value(0, SecondRate(dv, dt), ValueFloat)];
        }
      }
    }

    /** The loop over the labeled values that are there when it starts. */
    method RateDisk(cur: MetricSet, prev: MetricSet, m: string, target: Target)
      requires cur != prev && prev.scrapeTime < cur.scrapeTime
      modifies cur`labeledValues
      ensures cur.labeledValues == old(cur.labeledValues)
                + DiskRates(old(cur.labeledValues), m, target, prev.labeledValues, cur.scrapeTime - prev.scrapeTime)
    {
      var items := cur.labeledValues;
      for i := 0 to |items|
        invariant cur.labeledValues == items
                    + DiskRates(items[..i], m, target, prev.labeledValues, cur.scrapeTime - prev.scrapeTime)
      {
        hide DiskRate, FindOld, DiskRates;
        var itemNew := items[i];
        var more := DiskRateOf(itemNew, m, target, prev.labeledValues, cur.scrapeTime - prev.scrapeTime);
        DiskRatesPush(items, i, m, target, prev.labeledValues, cur.scrapeTime - prev.scrapeTime);
        Associative(items, DiskRates(items[..i], m, target, prev.labeledValues, cur.scrapeTime - prev.scrapeTime), more);
        cur.labeledValues := cur.labeledValues + more;
      }
      assert items[..|items|] == items;
    }

    /** The body of that loop, with the search for the device among the old values. */
    method DiskRateOf(itemNew: LabeledValue, m: string, target: Target, l: seq<LabeledValue>, dt: int)
      returns (r: seq<LabeledValue>)
      requires dt > 0
      ensures r == DiskRate(itemNew, m, target, l, dt)
    {
      if itemNew.name != m {
        return [];
      }
      for i := 0 to |l|
        invariant FindOld(l, itemNew, m) == FindOld(l[i..], itemNew, m)
      {
        if SameDevice(l[i], itemNew, m) {
          if target.valueType == ValueFloat {
            var dv := itemNew.value.intValue - l[i].value.intValue;
            return [LabeledValue(target.name, itemNew.labels, Value(0, SecondRate(dv, dt), ValueFloat))];
          }
          return [];
        }
      }
      return [];
    }

    /** The body of the loop over the batch. */
    method VisitSet(key: ResourceKey, newMs: MetricSet)
      requires Proper(rateMetricsMapping)
      modifies this`previousMetricSets, newMs`values, newMs`labeledValues
      ensures var prev := old(CachedSample(previousMetricSets, key));
              previousMetricSets == (if Replaces(old(SampleOf(newMs)), prev) then old(previousMetricSets)[key := newMs]
                                     else old(previousMetricSets))
              && SetRated(rateMetricsMapping, old(SampleOf(newMs)), prev, SampleOf(newMs))
    {
      hide Rated, Proper;
      if key !in previousMetricSets {
        previousMetricSets := previousMetricSets[key := newMs];
        return;
      }
      var oldMs := previousMetricSets[key];
      if !(newMs.scrapeTime > oldMs.scrapeTime) {
        return;
      }
      if newMs.collectionStartTime != oldMs.collectionStartTime {
        previousMetricSets := previousMetricSets[key := newMs];
        return;
      }
      Rate(newMs, oldMs);
      previousMetricSets := previousMetricSets[key := newMs];
    }

    /** Removes what the batch does not hold. */
    method Prune(batch: Batch)
      modifies this`previousMetricSets
      ensures previousMetricSets == Restrict(old(previousMetricSets), batch.sets.Keys)
    {
      ghost var was := previousMetricSets;
      var todo := previousMetricSets.Keys;
      while todo != {}
        invariant todo <= was.Keys
        invariant previousMetricSets == map k | k in was && (k in batch.sets || k in todo) :: was[k]
        decreases |todo|
      {
        var key :| key in todo;
        if key !in batch.sets {
          previousMetricSets := previousMetricSets - {key};
        }
        todo := todo - {key};
      }
    }

    method PruneIfDue(batch: Batch, now: int, later: int)
      modifies this`previousMetricSets, this`lastPruneTime
      ensures if old(lastPruneTime) < now - cachePruneInterval
              then lastPruneTime == later && previousMetricSets == Restrict(old(previousMetricSets), batch.sets.Keys)
              else lastPruneTime == old(lastPruneTime) && previousMetricSets == old(previousMetricSets)
    {
      if lastPruneTime < now - cachePruneInterval {
        Prune(batch);
        lastPruneTime := later;
      }
    }

    /** One turn of the loop over the batch, with the sets in done visited so far. */
    method VisitNext(sets: map<ResourceKey, MetricSet>, key: ResourceKey, ghost was: map<ResourceKey, MetricSet>,
                     ghost b: Samples, ghost c: Samples, ghost done: set<ResourceKey>)
      requires Proper(rateMetricsMapping) && Separate(sets) && Apart(sets, was) && key in sets && key !in done
      requires Midway(rateMetricsMapping, was, sets, b, c, done, previousMetricSets)
      modifies this`previousMetricSets, sets.Values`values, sets.Values`labeledValues
      ensures Midway(rateMetricsMapping, was, sets, b, c, done + {key}, previousMetricSets)
    {
      hide *;
      MidwayParts(rateMetricsMapping, was, sets, b, c, done, previousMetricSets);
      ghost var w, t := SamplesOf(was), SamplesOf(sets);
      CacheStep(was, sets, b, c, done, key);
      HeldAt(rateMetricsMapping, w, t, b, c, done, key);
      SamplesEach(was);
      SamplesEach(sets);
      CachedIs(previousMetricSets, was, key);
      OnlyThis(was, sets, key);
      VisitSet(key, sets[key]);
      SamplesEach(was);
      SamplesEach(sets);
      NotNewer(rateMetricsMapping, b[key], Get(c, key), SampleOf(sets[key]));
      HeldStep(rateMetricsMapping, w, t, b, c, done, key, SamplesOf(was), SamplesOf(sets));
      MidwayIs(rateMetricsMapping, was, sets, b, c, done + {key}, previousMetricSets);
    }

    /** The loop over the batch, in any order. */
    method VisitAll(sets: map<ResourceKey, MetricSet>)
      requires Proper(rateMetricsMapping) && Separate(sets) && Apart(sets, previousMetricSets)
      modifies this`previousMetricSets, sets.Values`values, sets.Values`labeledValues
      ensures Midway(rateMetricsMapping, old(previousMetricSets), sets, old(SamplesOf(sets)),
                     old(SamplesOf(previousMetricSets)), sets.Keys, previousMetricSets)
    {
      hide *;
      ghost var was, b, c := previousMetricSets, SamplesOf(sets), SamplesOf(previousMetricSets);
      var todo := sets.Keys;
      CacheStart(was, sets, b, c);
      HeldStart(rateMetricsMapping, was, sets);
      DoneStart(sets.Keys);
      MidwayIs(rateMetricsMapping, was, sets, b, c, sets.Keys - todo, was);
      while todo != {}
        invariant todo <= sets.Keys
        invariant Midway(rateMetricsMapping, was, sets, b, c, sets.Keys - todo, previousMetricSets)
        decreases |todo|
      {
        var key :| key in todo;
        VisitNext(sets, key, was, b, c, sets.Keys - todo);
        DoneMore(sets.Keys, todo, key);
        todo := todo - {key};
      }
    }

    method Process(batch: Batch, now: int, later: int)
      requires Proper(rateMetricsMapping) && Separate(batch.sets) && Apart(batch.sets, previousMetricSets)
      modifies this`previousMetricSets, this`lastPruneTime, batch.sets.Values`values, batch.sets.Values`labeledValues
      ensures var prunes := old(lastPruneTime) < now - cachePruneInterval;
              lastPruneTime == (if prunes then later else old(lastPruneTime))
              && Times(SamplesOf(previousMetricSets))
                 == CacheAfter(Times(old(SamplesOf(previousMetricSets))), Times(old(SamplesOf(batch.sets))), prunes)
      ensures AllRated(rateMetricsMapping, old(SamplesOf(batch.sets)), old(SamplesOf(previousMetricSets)), SamplesOf(batch.sets))
      ensures SamplesOf(previousMetricSets)
              == CacheSamples(old(SamplesOf(previousMetricSets)), old(SamplesOf(batch.sets)), SamplesOf(batch.sets),
                              old(lastPruneTime) < now - cachePruneInterval)
      ensures CameFrom(previousMetricSets, old(previousMetricSets), batch.sets)
      ensures previousMetricSets
              == CachedSets(old(previousMetricSets), batch.sets, old(SamplesOf(batch.sets)), old(SamplesOf(previousMetricSets)),
                            old(lastPruneTime) < now - cachePruneInterval)
    {
      hide *;
      CachedSetsAre(previousMetricSets, batch.sets, SamplesOf(batch.sets), SamplesOf(previousMetricSets));
      ghost var was, b, c := previousMetricSets, SamplesOf(batch.sets), SamplesOf(previousMetricSets);
      VisitAll(batch.sets);
      MidwayParts(rateMetricsMapping, was, batch.sets, b, c, batch.sets.Keys, previousMetricSets);
      TimesNow(rateMetricsMapping, was, batch.sets, b, c);
      SamplesNow(rateMetricsMapping, was, batch.sets, b, c);
      TimesKeys(b);
      ghost var cached := previousMetricSets;
      PruneIfDue(batch, now, later);
      RestrictCameFrom(cached, was, batch.sets, batch.sets.Keys);
      TimesPruned(cached, Times(c), Times(b));
      SamplesPruned(cached, c, b, SamplesOf(batch.sets));
    }
  }

  // ---- the cache during a call ----------------------------------------------------------------

  function CachedSample(cache: map<ResourceKey, MetricSet>, k: ResourceKey): Option<Sample>
    reads cache.Values
  {
    if k in cache then Some(SampleOf(cache[k])) else None
  }

  lemma SamplesEach(sets: map<ResourceKey, MetricSet>)
    ensures forall k :: k in sets ==> SamplesOf(sets)[k] == SampleOf(sets[k])
    ensures forall k :: k in sets ==> SamplesOf(sets)[k].scrape == sets[k].scrapeTime
    ensures forall k :: CachedSample(sets, k) == Get(SamplesOf(sets), k)
  {
  }

  lemma TimesKeys(b: Samples)
    ensures Times(b).Keys == b.Keys
  {
  }

  lemma CachedIs(cache: map<ResourceKey, MetricSet>, was: map<ResourceKey, MetricSet>, k: ResourceKey)
    requires (k in cache <==> k in was) && (k in was ==> cache[k] == was[k])
    ensures CachedSample(cache, k) == Get(SamplesOf(was), k)
  {
  }

  function Restrict<K, V>(m: map<K, V>, keys: set<K>): map<K, V> {
    map k | k in m && k in keys :: m[k]
  }

  predicate Replaces(cur: Sample, prev: Option<Sample>) {
    prev.None? || prev.value.scrape < cur.scrape
  }

  /** No set of the batch is cached under another key. */
  ghost predicate Apart(sets: map<ResourceKey, MetricSet>, cache: map<ResourceKey, MetricSet>) {
    forall j, k :: j in cache && k in sets && cache[j] == sets[k] ==> j == k
  }

  /** The cache after the sets in done: the newer of the two samples stays. */
  ghost function CacheNow(was: map<ResourceKey, MetricSet>, sets: map<ResourceKey, MetricSet>, b: Samples, c: Samples,
                          done: set<ResourceKey>): map<ResourceKey, MetricSet>
    requires was.Keys == c.Keys && sets.Keys == b.Keys && done <= sets.Keys
  {
    map k | k in was.Keys + done :: if k in done && Replaces(b[k], Get(c, k)) then sets[k] else was[k]
  }

  lemma DoneStart<T>(all: set<T>)
    ensures all - all == {} && all - {} == all
  {
  }

  lemma DoneMore<T>(all: set<T>, todo: set<T>, x: T)
    requires x in todo && todo <= all
    ensures all - (todo - {x}) == all - todo + {x}
  {
  }

  /** The sets that a call leaves in the cache. */
  ghost function CachedSets(was: map<ResourceKey, MetricSet>, sets: map<ResourceKey, MetricSet>, b: Samples, c: Samples,
                            prunes: bool): map<ResourceKey, MetricSet>
    requires was.Keys == c.Keys && sets.Keys == b.Keys
  {
    var now := CacheNow(was, sets, b, c, sets.Keys);
    if prunes then Restrict(now, sets.Keys) else now
  }

  lemma CachedSetsAre(was: map<ResourceKey, MetricSet>, sets: map<ResourceKey, MetricSet>, b: Samples, c: Samples)
    requires was.Keys == c.Keys && sets.Keys == b.Keys
    ensures CachedSets(was, sets, b, c, true) == Restrict(CacheNow(was, sets, b, c, sets.Keys), sets.Keys)
    ensures CachedSets(was, sets, b, c, false) == CacheNow(was, sets, b, c, sets.Keys)
  {
  }

  /** How things stand when the sets in done have been visited. */
  ghost predicate Midway(mapping: Mapping, was: map<ResourceKey, MetricSet>, sets: map<ResourceKey, MetricSet>, b: Samples,
                         c: Samples, done: set<ResourceKey>, cache: map<ResourceKey, MetricSet>)
    reads was.Values, sets.Values
  {
    was.Keys == c.Keys && sets.Keys == b.Keys && done <= sets.Keys
    && Held(mapping, SamplesOf(was), SamplesOf(sets), b, c, done) && cache == CacheNow(was, sets, b, c, done)
  }

  lemma MidwayParts(mapping: Mapping, was: map<ResourceKey, MetricSet>, sets: map<ResourceKey, MetricSet>, b: Samples,
                    c: Samples, done: set<ResourceKey>, cache: map<ResourceKey, MetricSet>)
    requires Midway(mapping, was, sets, b, c, done, cache)
    ensures was.Keys == c.Keys && sets.Keys == b.Keys && done <= sets.Keys
    ensures Held(mapping, SamplesOf(was), SamplesOf(sets), b, c, done) && cache == CacheNow(was, sets, b, c, done)
  {
  }

  lemma MidwayIs(mapping: Mapping, was: map<ResourceKey, MetricSet>, sets: map<ResourceKey, MetricSet>, b: Samples,
                 c: Samples, done: set<ResourceKey>, cache: map<ResourceKey, MetricSet>)
    requires was.Keys == c.Keys && sets.Keys == b.Keys && done <= sets.Keys
    requires Held(mapping, SamplesOf(was), SamplesOf(sets), b, c, done) && cache == CacheNow(was, sets, b, c, done)
    ensures Midway(mapping, was, sets, b, c, done, cache)
  {
  }

  /** The sets in done are rated, and what is not yet visited is as it was when the call began. */
  ghost predicate Held(mapping: Mapping, was: Samples, sets: Samples, b: Samples, c: Samples, done: set<ResourceKey>)
  {
    was.Keys == c.Keys && sets.Keys == b.Keys
    && (forall k :: k in sets && k !in done ==> sets[k] == b[k])
    && (forall k :: k in sets && k in done ==> SetRated(mapping, b[k], Get(c, k), sets[k]))
    && (forall k :: k in was && k !in done ==> was[k] == c[k])
    && (forall k :: k in was ==> was[k].scrape == c[k].scrape)
    && forall k :: k in was && k in b && !Replaces(b[k], Get(c, k)) ==> was[k] == c[k]
  }

  lemma HeldStep(mapping: Mapping, was: Samples, sets: Samples, b: Samples, c: Samples, done: set<ResourceKey>,
                 key: ResourceKey, now: Samples, after: Samples)
    requires Held(mapping, was, sets, b, c, done) && key in sets
    requires now.Keys == was.Keys && after.Keys == sets.Keys
    requires forall k :: k in sets && k != key ==> after[k] == sets[k]
    requires forall k :: k in was && k != key ==> now[k] == was[k]
    requires key in was ==> now[key].scrape == was[key].scrape
    requires key in was && !Replaces(b[key], Get(c, key)) ==> now[key] == was[key]
    requires SetRated(mapping, b[key], Get(c, key), after[key])
    ensures Held(mapping, now, after, b, c, done + {key})
  {
    hide SetRated, Replaces, Get;
    forall k | k in after
      ensures if k in done + {key} then SetRated(mapping, b[k], Get(c, k), after[k]) else after[k] == b[k]
    {
      assert k != key ==> after[k] == sets[k];
    }
    forall k | k in now
      ensures now[k].scrape == c[k].scrape && (k !in done + {key} ==> now[k] == c[k])
      ensures k in b && !Replaces(b[k], Get(c, k)) ==> now[k] == c[k]
    {
      assert k != key ==> now[k] == was[k];
    }
  }

  lemma HeldAt(mapping: Mapping, was: Samples, sets: Samples, b: Samples, c: Samples, done: set<ResourceKey>, key: ResourceKey)
    requires Held(mapping, was, sets, b, c, done) && key in sets && key !in done
    ensures sets[key] == b[key] && Get(was, key) == Get(c, key)
  {
  }

  lemma HeldStart(mapping: Mapping, was: map<ResourceKey, MetricSet>, sets: map<ResourceKey, MetricSet>)
    ensures Held(mapping, SamplesOf(was), SamplesOf(sets), SamplesOf(sets), SamplesOf(was), {})
  {
  }

  /** The scrape times in the cache once all sets have been visited. */
  lemma TimesNow(mapping: Mapping, was: map<ResourceKey, MetricSet>, sets: map<ResourceKey, MetricSet>, b: Samples, c: Samples)
    requires was.Keys == c.Keys && sets.Keys == b.Keys && Held(mapping, SamplesOf(was), SamplesOf(sets), b, c, sets.Keys)
    ensures AllRated(mapping, b, c, SamplesOf(sets))
    ensures Times(SamplesOf(CacheNow(was, sets, b, c, sets.Keys))) == CacheAfter(Times(c), Times(b), false)
    ensures CameFrom(CacheNow(was, sets, b, c, sets.Keys), was, sets)
  {
    hide SetRated, CacheNow, CacheAfter, Times, SamplesOf, SampleOf, Get, CachedSample;
    SamplesEach(was);
    SamplesEach(sets);
    var now, times := CacheNow(was, sets, b, c, sets.Keys), CacheAfter(Times(c), Times(b), false);
    CacheNowAt(was, sets, b, c);
    forall k | k in now
      ensures now[k].scrapeTime == times[k]
    {
      if k in sets {
        ScrapeKept(mapping, b[k], Get(c, k), SampleOf(sets[k]));
        SampleScrape(sets[k]);
      }
    }
    TimesAre(now, times);
  }

  /** The samples in the cache once all sets have been visited. */
  lemma SamplesNow(mapping: Mapping, was: map<ResourceKey, MetricSet>, sets: map<ResourceKey, MetricSet>, b: Samples, c: Samples)
    requires was.Keys == c.Keys && sets.Keys == b.Keys && Held(mapping, SamplesOf(was), SamplesOf(sets), b, c, sets.Keys)
    ensures SamplesOf(CacheNow(was, sets, b, c, sets.Keys)) == CacheSamples(c, b, SamplesOf(sets), false)
  {
    hide SetRated, SampleOf, SamplesOf, CacheNow;
    SamplesEach(was);
    SamplesEach(sets);
    var now := CacheNow(was, sets, b, c, sets.Keys);
    SamplesEach(now);
    CacheNowIs(was, sets, b, c);
    var samples := CacheSamples(c, b, SamplesOf(sets), false);
    assert samples.Keys == now.Keys;
    forall k | k in now
      ensures SamplesOf(now)[k] == samples[k]
    {
    }
  }

  lemma CacheNowIs(was: map<ResourceKey, MetricSet>, sets: map<ResourceKey, MetricSet>, b: Samples, c: Samples)
    requires was.Keys == c.Keys && sets.Keys == b.Keys
    ensures var now := CacheNow(was, sets, b, c, sets.Keys);
            now.Keys == was.Keys + sets.Keys
            && forall k :: k in now ==> now[k] == if k in sets && Replaces(b[k], Get(c, k)) then sets[k] else was[k]
  {
    hide Replaces;
    assert forall k :: k !in was ==> Get(c, k).None?;
  }

  /** A sample that is not newer than the cached one is left as it is. */
  lemma NotNewer(mapping: Mapping, cur: Sample, prev: Option<Sample>, after: Sample)
    requires SetRated(mapping, cur, prev, after)
    ensures !Replaces(cur, prev) ==> after == cur
  {
    hide Rated;
  }

  lemma SamplesPruned(cache: map<ResourceKey, MetricSet>, c: Samples, b: Samples, after: Samples)
    requires after.Keys == b.Keys && SamplesOf(cache) == CacheSamples(c, b, after, false)
    ensures SamplesOf(Restrict(cache, b.Keys)) == CacheSamples(c, b, after, true)
  {
    hide SampleOf, Replaces;
    SamplesEach(cache);
    SamplesEach(Restrict(cache, b.Keys));
    var all, left := CacheSamples(c, b, after, false), CacheSamples(c, b, after, true);
    assert forall k :: k in left ==> left[k] == all[k];
  }

  lemma SampleScrape(s: MetricSet)
    ensures SampleOf(s).scrape == s.scrapeTime
  {
  }

  /** Where the cache and its scrape times come from, key by key. */
  lemma CacheNowAt(was: map<ResourceKey, MetricSet>, sets: map<ResourceKey, MetricSet>, b: Samples, c: Samples)
    requires was.Keys == c.Keys && sets.Keys == b.Keys
    ensures var now, times := CacheNow(was, sets, b, c, sets.Keys), CacheAfter(Times(c), Times(b), false);
            (forall k :: k in now <==> k in times)
            && forall k :: k in now ==>
                 (k in sets || k in was)
                 && if k in sets && times[k] == b[k].scrape && (k !in was || c[k].scrape < b[k].scrape) then now[k] == sets[k]
                    else k in was && now[k] == was[k] && times[k] == c[k].scrape
  {
  }

  lemma TimesAre(cache: map<ResourceKey, MetricSet>, times: map<ResourceKey, int>)
    requires (forall k :: k in cache <==> k in times) && forall k :: k in cache ==> cache[k].scrapeTime == times[k]
    ensures Times(SamplesOf(cache)) == times
  {
  }

  lemma ScrapeKept(mapping: Mapping, cur: Sample, prev: Option<Sample>, after: Sample)
    requires SetRated(mapping, cur, prev, after)
    ensures after.scrape == cur.scrape
  {
  }

  /** Pruning leaves the scrape times of the keys of the batch. */
  lemma TimesPruned(cache: map<ResourceKey, MetricSet>, times: map<ResourceKey, int>, batch: map<ResourceKey, int>)
    requires Times(SamplesOf(cache)) == CacheAfter(times, batch, false)
    ensures Times(SamplesOf(Restrict(cache, batch.Keys))) == CacheAfter(times, batch, true)
  {
    TimesAt(cache);
    TimesAre(Restrict(cache, batch.Keys), CacheAfter(times, batch, true));
  }

  lemma TimesAt(cache: map<ResourceKey, MetricSet>)
    ensures Times(SamplesOf(cache)).Keys == cache.Keys
    ensures forall k :: k in cache ==> Times(SamplesOf(cache))[k] == cache[k].scrapeTime
  {
  }

  lemma RestrictCameFrom(cache: map<ResourceKey, MetricSet>, was: map<ResourceKey, MetricSet>,
                         sets: map<ResourceKey, MetricSet>, keys: set<ResourceKey>)
    requires CameFrom(cache, was, sets)
    ensures CameFrom(Restrict(cache, keys), was, sets)
  {
  }

  lemma CacheStart(was: map<ResourceKey, MetricSet>, sets: map<ResourceKey, MetricSet>, b: Samples, c: Samples)
    requires was.Keys == c.Keys && sets.Keys == b.Keys
    ensures CacheNow(was, sets, b, c, {}) == was
  {
  }

  lemma CacheStep(was: map<ResourceKey, MetricSet>, sets: map<ResourceKey, MetricSet>, b: Samples, c: Samples,
                  done: set<ResourceKey>, k: ResourceKey)
    requires was.Keys == c.Keys && sets.Keys == b.Keys && done <= sets.Keys && k in sets && k !in done
    ensures var now := CacheNow(was, sets, b, c, done);
            (k in now <==> k in was) && (k in was ==> now[k] == was[k])
            && CacheNow(was, sets, b, c, done + {k}) == if Replaces(b[k], Get(c, k)) then now[k := sets[k]] else now
  {
  }

  lemma OnlyThis(was: map<ResourceKey, MetricSet>, sets: map<ResourceKey, MetricSet>, k: ResourceKey)
    requires Separate(sets) && Apart(sets, was) && k in sets
    ensures forall j :: j in sets && j != k ==> sets[j] != sets[k]
    ensures forall j :: j in was && j != k ==> was[j] != sets[k]
  {
  }
}
