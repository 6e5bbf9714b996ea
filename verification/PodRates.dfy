/**
 The rates of the collector's own table, with the pod aggregator writing the sums of containers into the very
 sets that the rate calculator has cached (collector/internal/setup/data_processors.go,
 plugins/processors/pod_aggregator.go). The aggregator is told to skip every metric that a rate is calculated
 from, so that the rates add up, whatever the containers report.
 */
module PodRates {
  import opened Aggregation
  import opened Bags
  import opened BatchSets
  import opened ContainerInfo
  import opened Metrics
  import opened PodAggregation
  import opened PodAggregationPass
  import opened RateCalculator
  import opened RateRuns
  import opened StandardMetrics
  import opened Sums
  import opened Wrappers

  // ---- what the aggregator leaves alone -------------------------------------------------------

  /** A pass of the pod aggregator: the sets it finds, the sets it leaves, and the order of its visits. */
  datatype Aggregate = Aggregate(found: Snapshot, left: Snapshot, order: seq<ResourceKey>, adding: set<(ResourceKey, string)>)

  ghost predicate IsAggregate(skipped: set<string>, p: Aggregate) {
    Account(p.found, skipped, p.order, p.left, p.adding) && Distinct(p.order)
    && forall k :: k in p.order <==> k in p.found
  }

  /**
   After its rates are written, the set of a resource goes through the pod aggregator, unless it was taken
   out of the batch; nothing else writes the metric.
   */
  ghost predicate GoesThrough(t: Turn, k: ResourceKey, m: string, p: Aggregate)
    requires k in t.after && k in t.left
  {
    if k in p.found
    then BaseOf(p.found, k, m) == Get(t.after[k].values, m) && BaseOf(p.left, k, m) == Get(t.left[k].values, m)
    else Get(t.left[k].values, m) == Get(t.after[k].values, m)
  }

  /** Sets that are no pods, and metrics that are skipped, are left alone. */
  lemma OnlyPodsAreTouched(skipped: set<string>, k: ResourceKey, m: string, p: Aggregate)
    requires IsAggregate(skipped, p) && (!k.PodKey? || m in skipped)
    ensures BaseOf(p.left, k, m) == BaseOf(p.found, k, m)
  {
    hide MetricTally, LabelsKept, IsPod, Distinct, PodOf, BaseOf;
    forall j
      ensures !Feeds(p.found, skipped, j, k, m)
    {
      NotAPod(p.found, j);
    }
    NothingFed(p.found, skipped, p.order, k, m);
    assert Tally(BaseOf(p.left, k, m), (k, m) in p.adding) == MetricTally(p.found, skipped, p.order, k, m);
  }

  lemma NotAPod(s: Snapshot, j: ResourceKey)
    ensures PodOf(s, j).Some? ==> PodOf(s, j).value.PodKey?
  {
  }

  lemma {:induction false} NothingFed(s: Snapshot, skipped: set<string>, order: seq<ResourceKey>, k: ResourceKey, m: string)
    requires forall j :: !Feeds(s, skipped, j, k, m)
    ensures MetricTally(s, skipped, order, k, m) == Tally(BaseOf(s, k, m), false)
  {
    hide Feeds;
    if order != [] {
      NothingFed(s, skipped, order[..|order| - 1], k, m);
    }
  }

  // ---- what the collector tells it to skip ----------------------------------------------------

  /** The metrics that the pod resource aggregator sees to. */
  const POD_METRICS_TO_NOT_AGGREGATE := [METRIC_CPU_REQUEST, METRIC_CPU_LIMIT, METRIC_MEMORY_REQUEST, METRIC_MEMORY_LIMIT]

  /** Whatever it is told besides, a pod aggregator skips every metric that has rates, except the labeled disk metrics. */
  lemma RatedAreSkipped(additional: seq<string>, m: string)
    requires m in RATE_METRICS_MAPPING && !IsDisk(m)
    ensures m in SkipList(additional)
  {
    RatedMetricsGrow(m);
    hide *;
    SkipListIs(additional, m);
  }

  /** In the collector it skips none of the rates. */
  lemma RatesAreNotSkipped(m: string)
    requires m in RATE_METRICS_MAPPING
    ensures RATE_METRICS_MAPPING[m].name !in SkipList(POD_METRICS_TO_NOT_AGGREGATE)
  {
    RatedMetricsGrow(m);
    MappedNames();
    hide *;
    RateNamesLook(m);
    RequestsAreNoRates(RateName(m));
    SkipListIs(POD_METRICS_TO_NOT_AGGREGATE, RateName(m));
  }

  lemma RequestsAreNoRates(x: string)
    requires LooksLikeRate(x)
    ensures x !in POD_METRICS_TO_NOT_AGGREGATE
  {
    assert !LooksLikeRate(METRIC_CPU_REQUEST) && !LooksLikeRate(METRIC_CPU_LIMIT);
    assert !LooksLikeRate(METRIC_MEMORY_REQUEST) && !LooksLikeRate(METRIC_MEMORY_LIMIT);
    hide LooksLikeRate, METRIC_CPU_REQUEST, METRIC_CPU_LIMIT, METRIC_MEMORY_REQUEST, METRIC_MEMORY_LIMIT;
  }

  // ---- runs -----------------------------------------------------------------------------------

  /** The flushes of a run with their passes of the aggregator, as far as resource and metric are concerned. */
  ghost predicate Aggregated(skipped: set<string>, turns: seq<Turn>, passes: seq<Aggregate>, k: ResourceKey, m: string) {
    |passes| == |turns|
    && forall i :: 0 <= i < |turns| ==> IsAggregate(skipped, passes[i]) && Through(turns[i], passes[i], k, m)
  }

  ghost predicate Through(t: Turn, p: Aggregate, k: ResourceKey, m: string) {
    k in t.batch ==> k in t.after && k in t.left && GoesThrough(t, k, m, p)
  }

  lemma SkippedIsKept(skipped: set<string>, t: Turn, p: Aggregate, k: ResourceKey, m: string)
    requires IsAggregate(skipped, p) && Through(t, p, k, m) && m in skipped
    ensures Kept(t, k, m)
  {
    OnlyPodsAreTouched(skipped, k, m, p);
    hide IsAggregate;
  }

  /**
   Every sample that enters the cache, be it the first, one after a restart, or one that has been rated, holds what
   its source reported for each metric that rates are calculated from.
   */
  lemma CachedIsReported(additional: seq<string>, c: Samples, t: Turn, cache: Samples, p: Aggregate, k: ResourceKey, m: string)
    requires m in RATE_METRICS_MAPPING && !IsDisk(m) && IsTurn(RATE_METRICS_MAPPING, c, t, cache)
    requires IsAggregate(SkipList(additional), p) && Through(t, p, k, m)
    requires k in t.batch && m in t.batch[k].values && Replaces(t.batch[k], Get(c, k))
    ensures k in cache && Get(cache[k].values, m) == Some(t.batch[k].values[m])
  {
    TableIsProper();
    RatedAreSkipped(additional, m);
    SkippedIsKept(SkipList(additional), t, p, k, m);
    hide RATE_METRICS_MAPPING, Proper, IsAggregate, Through, SkipList, ValuesRated, LabeledRated, IsDisk;
    var cur, prev := t.batch[k], Get(c, k);
    assert SetRated(RATE_METRICS_MAPPING, cur, prev, t.after[k]);
    if prev.Some? && Follows(cur, prev.value) {
      SourceKept(RATE_METRICS_MAPPING, c, t, k, m);
    }
  }

  lemma AllSkippedKept(skipped: set<string>, turns: seq<Turn>, passes: seq<Aggregate>, k: ResourceKey, m: string)
    requires Aggregated(skipped, turns, passes, k, m) && m in skipped
    ensures AllKept(turns, k, m)
  {
    hide IsAggregate, Through, Kept;
    forall i | 0 <= i < |turns|
      ensures Kept(turns[i], k, m)
    {
      SkippedIsKept(skipped, turns[i], passes[i], k, m);
    }
  }

  /**
   After every flush of any run, the rates of a resource add up to exactly the growth of what its source
   reported, although the sets that they are calculated against have been through the pod aggregator.
   */
  lemma RatesAddUp(additional: seq<string>, caches: seq<Samples>, turns: seq<Turn>, passes: seq<Aggregate>,
                   k: ResourceKey, m: string, start: int)
    requires m in RATE_METRICS_MAPPING && m != CPU_USAGE && !IsDisk(m)
    requires IsRun(RATE_METRICS_MAPPING, caches, turns)
    requires Cached(caches[0], k, m, start) && AllSteady(turns, k, m, start)
    requires Aggregated(SkipList(additional), turns, passes, k, m)
    ensures forall n :: 0 <= n <= |turns| ==>
              ExactUpTo(RATE_METRICS_MAPPING, caches, turns, k, m, ValueIn(caches[0], k, m), n)
  {
    RunSizes(RATE_METRICS_MAPPING, caches, turns);
    hide *;
    TableIsProper();
    FloatOfTable(m);
    RatedAreSkipped(additional, m);
    AllSkippedKept(SkipList(additional), turns, passes, k, m);
    KeptHasNoGaps(RATE_METRICS_MAPPING, caches, turns, k, m, start);
    ExactIffNoGap(RATE_METRICS_MAPPING, caches, turns, k, m, start, ValueIn(caches[0], k, m));
  }

  lemma FloatOfTable(m: string)
    requires m in RATE_METRICS_MAPPING && m != CPU_USAGE && !IsDisk(m)
    ensures FloatRated(RATE_METRICS_MAPPING, m)
  {
    MappedNames();
    hide RATE_METRICS_MAPPING, CPU_USAGE, IsDisk;
  }

  lemma RunSizes(mapping: Mapping, caches: seq<Samples>, turns: seq<Turn>)
    requires IsRun(mapping, caches, turns)
    ensures |caches| == |turns| + 1
  {
  }

  /** In the same way the CPU rates account for the usage reported, up to one unit per nanosecond. */
  lemma UsageAddsUp(additional: seq<string>, caches: seq<Samples>, turns: seq<Turn>, passes: seq<Aggregate>,
                    k: ResourceKey, start: int)
    requires IsRun(RATE_METRICS_MAPPING, caches, turns)
    requires Cached(caches[0], k, CPU_USAGE, start) && AllSteady(turns, k, CPU_USAGE, start)
    requires Aggregated(SkipList(additional), turns, passes, k, CPU_USAGE)
    ensures Cached(caches[|turns|], k, CPU_USAGE, start)
    ensures var own := ValueIn(caches[0], k, CPU_USAGE);
            var off := Milli(caches, turns, k, RateName(CPU_USAGE))
                       - 1000 * (Reported(caches, turns, k, CPU_USAGE, own) - own);
            var time := caches[|turns|][k].scrape - caches[0][k].scrape;
            -time <= off <= time
  {
    RunSizes(RATE_METRICS_MAPPING, caches, turns);
    hide *;
    CpuIsNoDisk();
    CpuIsRated();
    TableIsProper();
    RatedAreSkipped(additional, CPU_USAGE);
    AllSkippedKept(SkipList(additional), turns, passes, k, CPU_USAGE);
    KeptHasNoGaps(RATE_METRICS_MAPPING, caches, turns, k, CPU_USAGE, start);
    RatesAccountForUsage(RATE_METRICS_MAPPING, caches, turns, k, start, ValueIn(caches[0], k, CPU_USAGE));
  }

  lemma CpuIsRated()
    ensures CPU_USAGE in RATE_METRICS_MAPPING
    ensures RATE_METRICS_MAPPING[CPU_USAGE].name == RateName(CPU_USAGE)
  {
    MappedNames();
    hide RATE_METRICS_MAPPING, CPU_USAGE;
  }

  /** The disk rates of the table add up device by device. */
  lemma DeviceRatesAddUp(caches: seq<Samples>, turns: seq<Turn>, k: ResourceKey, m: string, id: string, start: int)
    requires m in RATE_METRICS_MAPPING && IsDisk(m)
    requires IsRun(RATE_METRICS_MAPPING, caches, turns)
    requires DeviceCached(caches[0], k, m, id, start) && AllDeviceSteady(turns, k, m, id, start)
    ensures DiskTotal(caches, turns, k, RateName(m), id)
            == 1000000000.0 * (DeviceReported(caches, turns, k, m, id) - DeviceIn(caches[0], k, m, id)) as real
  {
    RunSizes(RATE_METRICS_MAPPING, caches, turns);
    MappedNames();
    DiskIsNotCpu(m);
    hide *;
    TableIsProper();
    DiskRatesAreExact(RATE_METRICS_MAPPING, caches, turns, k, m, id, start);
  }

  lemma DiskIsNotCpu(m: string)
    requires IsDisk(m)
    ensures m != CPU_USAGE
  {
    CpuIsNoDisk();
    hide CPU_USAGE, IsDisk;
  }

  // ---- the processors themselves --------------------------------------------------------------

  /** The two processors as the collector makes them. */
  predicate IsSetUp(calculator: RateCalculator, pods: PodAggregator) {
    calculator.rateMetricsMapping == RATE_METRICS_MAPPING
    && pods.skippedMetrics == SkipList(POD_METRICS_TO_NOT_AGGREGATE)
  }

  method CreateDataProcessors(now: int) returns (calculator: RateCalculator, pods: PodAggregator)
    ensures fresh(calculator) && fresh(pods) && IsSetUp(calculator, pods) && calculator.previousMetricSets == map[]
  {
    calculator := new RateCalculator(RATE_METRICS_MAPPING, now);
    pods := new PodAggregator(POD_METRICS_TO_NOT_AGGREGATE);
  }

  /** The samples of some sets, some of them changed since, as they now are. */
  lemma SamplesLeft(sets: map<ResourceKey, MetricSet>, after: Samples, found: Snapshot, left: Snapshot)
    requires after.Keys == sets.Keys == found.Keys && sets.Keys <= left.Keys
    requires forall k :: k in sets ==>
               sets[k].collectionStartTime == after[k].start && sets[k].scrapeTime == after[k].scrape
               && sets[k].labeledValues == after[k].labeled
    requires forall k :: k in sets ==> found[k].values == after[k].values && left[k].values == sets[k].values
    requires forall k :: k in sets ==> found[k].values.Keys <= left[k].values.Keys
    ensures Passed(after, SamplesOf(sets))
    ensures forall k :: k in sets ==> SamplesOf(sets)[k].values == left[k].values
  {
  }

  /** The aggregator removes no value. */
  lemma NoValueLost(skipped: set<string>, p: Aggregate, k: ResourceKey)
    requires IsAggregate(skipped, p) && k in p.found
    ensures k in p.left && p.found[k].values.Keys <= p.left[k].values.Keys
  {
    hide MetricTally, LabelsKept, IsPod, Distinct;
    forall m | m in p.found[k].values
      ensures m in p.left[k].values
    {
      assert Tally(BaseOf(p.left, k, m), (k, m) in p.adding) == MetricTally(p.found, skipped, p.order, k, m);
      TallyStays(p.found, skipped, p.order, k, m);
    }
  }

  lemma {:induction false} TallyStays(s: Snapshot, skipped: set<string>, order: seq<ResourceKey>, k: ResourceKey, m: string)
    requires BaseOf(s, k, m).Some?
    ensures MetricTally(s, skipped, order, k, m).now.Some?
  {
    hide Feeds;
    if order != [] {
      TallyStays(s, skipped, order[..|order| - 1], k, m);
    }
  }

  /** What is cached after a call are the samples of the batch's own sets, however they change later. */
  lemma CacheLater(c: Samples, b: Samples, after: Samples, cache: map<ResourceKey, MetricSet>, was: map<ResourceKey, MetricSet>,
                   sets: map<ResourceKey, MetricSet>, left: Samples, prunes: bool)
    requires after.Keys == b.Keys == sets.Keys == left.Keys && was.Keys == c.Keys
    requires forall k :: k in cache <==> k in CacheSamples(c, b, after, prunes)
    requires forall k :: k in cache ==>
               if k in b && Replaces(b[k], Get(c, k)) then cache[k] == sets[k]
               else k in was && cache[k] == was[k]
    requires left == SamplesOf(sets)
    requires forall k :: k in cache && k in was && cache[k] == was[k] ==> SampleOf(was[k]) == c[k]
    ensures SamplesOf(cache) == CacheSamples(c, b, left, prunes)
  {
    hide Replaces, Get, SampleOf, CacheSamples;
    SamplesEach(cache);
    SamplesEach(sets);
    CacheSamplesAre(c, b, after, left, prunes, SamplesOf(cache));
  }

  lemma CacheSamplesAre(c: Samples, b: Samples, after: Samples, left: Samples, prunes: bool, now: Samples)
    requires after.Keys == b.Keys == left.Keys
    requires forall k :: k in now <==> k in CacheSamples(c, b, after, prunes)
    requires forall k :: k in now ==>
               if k in b && Replaces(b[k], Get(c, k)) then now[k] == left[k]
               else k in c && now[k] == c[k]
    ensures now == CacheSamples(c, b, left, prunes)
  {
    assert forall k :: k in b && k !in c ==> Replaces(b[k], Get(c, k));
    hide Replaces, Get;
  }

  /** No set of the batch is in the cache yet. */
  ghost predicate NotCached(sets: map<ResourceKey, MetricSet>, cache: map<ResourceKey, MetricSet>) {
    cache.Values !! sets.Values
  }

  lemma CachedApart(sets: map<ResourceKey, MetricSet>, cache: map<ResourceKey, MetricSet>)
    requires NotCached(sets, cache)
    ensures Apart(sets, cache)
    ensures forall k :: k in cache ==> cache[k] !in sets.Values
  {
    assert forall k :: k in sets ==> sets[k] in sets.Values;
  }

  lemma KeyedByLabels(s: Snapshot, u: Snapshot)
    requires PodsKeyed(s) && u.Keys == s.Keys && forall k :: k in s ==> u[k].labels == s[k].labels
    ensures PodsKeyed(u)
  {
  }

  lemma CachedSetsAt(was: map<ResourceKey, MetricSet>, sets: map<ResourceKey, MetricSet>, b: Samples, c: Samples, prunes: bool,
                     cache: map<ResourceKey, MetricSet>, after: Samples)
    requires was.Keys == c.Keys && sets.Keys == b.Keys == after.Keys
    requires cache == CachedSets(was, sets, b, c, prunes)
    ensures forall k :: k in cache <==> k in CacheSamples(c, b, after, prunes)
    ensures forall k :: k in cache ==>
              if k in b && Replaces(b[k], Get(c, k)) then cache[k] == sets[k]
              else k in was && cache[k] == was[k]
  {
    assert forall k :: k !in c && k in b ==> Replaces(b[k], Get(c, k));
    hide Replaces;
    CacheNowIs(was, sets, b, c);
    hide CacheNow;
  }

  /** The aggregator finds the sets of the batch with the values that the calculator leaves. */
  ghost predicate Finds(t: Turn, p: Aggregate) {
    p.found.Keys == t.batch.Keys == t.after.Keys && forall k :: k in p.found ==> p.found[k].values == t.after[k].values
  }

  /** Each set goes through the aggregator as it is when the rates have been written. */
  lemma GoesSo(t: Turn, p: Aggregate, k: ResourceKey, m: string)
    requires k in t.batch ==>
               k in t.after && k in t.left && k in p.found && k in p.left
               && p.found[k].values == t.after[k].values && p.left[k].values == t.left[k].values
    ensures Through(t, p, k, m)
  {
  }

  /**
   The rate calculator and then the pod aggregator over one batch: a turn of a run. No value that rates will be
   calculated against is a sum of containers.
   */
  method RateAndAggregate(calculator: RateCalculator, pods: PodAggregator, batch: Batch, now: int, later: int)
    returns (ghost t: Turn, ghost p: Aggregate)
    requires IsSetUp(calculator, pods) && Separate(batch.sets)
    requires NotCached(batch.sets, calculator.previousMetricSets) && PodsKeyed(SnapshotOf(batch))
    modifies calculator, batch`sets, batch.sets.Values
    ensures t.batch == old(SamplesOf(batch.sets))
    ensures IsTurn(RATE_METRICS_MAPPING, old(SamplesOf(calculator.previousMetricSets)), t,
                   SamplesOf(calculator.previousMetricSets))
    ensures IsAggregate(SkipList(POD_METRICS_TO_NOT_AGGREGATE), p) && Finds(t, p)
    ensures forall k, m :: Through(t, p, k, m)
    ensures forall k, m :: m in RATE_METRICS_MAPPING && !IsDisk(m) ==> Kept(t, k, m)
  {
    hide *;
    TableIsProper();
    SetUpParts(calculator, pods);
    t, p := RateThenAggregate(calculator, pods, batch, now, later);
    forall k, m
      ensures Through(t, p, k, m)
      ensures m in RATE_METRICS_MAPPING && !IsDisk(m) ==> Kept(t, k, m)
    {
      if m in RATE_METRICS_MAPPING && !IsDisk(m) {
        RatedAreSkipped(POD_METRICS_TO_NOT_AGGREGATE, m);
        SkippedIsKept(SkipList(POD_METRICS_TO_NOT_AGGREGATE), t, p, k, m);
      }
    }
  }

  lemma SetUpParts(calculator: RateCalculator, pods: PodAggregator)
    requires IsSetUp(calculator, pods)
    ensures calculator.rateMetricsMapping == RATE_METRICS_MAPPING
    ensures pods.skippedMetrics == SkipList(POD_METRICS_TO_NOT_AGGREGATE)
  {
  }

  method RateThenAggregate(calculator: RateCalculator, pods: PodAggregator, batch: Batch, now: int, later: int)
    returns (ghost t: Turn, ghost p: Aggregate)
    requires Proper(calculator.rateMetricsMapping) && Separate(batch.sets)
    requires NotCached(batch.sets, calculator.previousMetricSets) && PodsKeyed(SnapshotOf(batch))
    modifies calculator, batch`sets, batch.sets.Values
    ensures t.batch == old(SamplesOf(batch.sets))
    ensures IsTurn(calculator.rateMetricsMapping, old(SamplesOf(calculator.previousMetricSets)), t,
                   SamplesOf(calculator.previousMetricSets))
    ensures IsAggregate(pods.skippedMetrics, p) && Finds(t, p)
    ensures forall k, m :: Through(t, p, k, m)
  {
    hide *;
    ghost var was, sets := calculator.previousMetricSets, batch.sets;
    ghost var b, c := SamplesOf(sets), SamplesOf(was);
    ghost var prunes := calculator.lastPruneTime < now - calculator.cachePruneInterval;
    CachedApart(sets, was);
    SamplesEach(was);
    RateStep(calculator, batch, now, later);
    ghost var cache := calculator.previousMetricSets;
    CachedSetsAt(was, sets, b, c, prunes, cache, SamplesOf(sets));
    t, p := AggregateStep(pods, batch, sets, SamplesOf(sets), b, prunes);
    SamplesEach(was);
    CacheLater(c, b, t.after, cache, was, sets, t.left, prunes);
    TurnOf(calculator.rateMetricsMapping, c, t, SamplesOf(cache));
  }

  /** The calculator keeps labels, so that pods are keyed as before. */
  method RateStep(calculator: RateCalculator, batch: Batch, now: int, later: int)
    requires Proper(calculator.rateMetricsMapping) && Separate(batch.sets)
    requires Apart(batch.sets, calculator.previousMetricSets) && PodsKeyed(SnapshotOf(batch))
    modifies calculator`previousMetricSets, calculator`lastPruneTime, batch.sets.Values`values, batch.sets.Values`labeledValues
    ensures PodsKeyed(SnapshotOf(batch))
    ensures AllRated(calculator.rateMetricsMapping, old(SamplesOf(batch.sets)),
              old(SamplesOf(calculator.previousMetricSets)), SamplesOf(batch.sets))
    ensures calculator.previousMetricSets
            == CachedSets(old(calculator.previousMetricSets), batch.sets, old(SamplesOf(batch.sets)),
                 old(SamplesOf(calculator.previousMetricSets)),
                 old(calculator.lastPruneTime) < now - calculator.cachePruneInterval)
  {
    hide *;
    ghost var s := SnapshotOf(batch);
    SnapshotEntries(batch);
    EachPart(batch.sets);
    calculator.Process(batch, now, later);
    SnapshotEntries(batch);
    EachPart(batch.sets);
    KeyedByLabels(s, SnapshotOf(batch));
  }

  /** The pod aggregator over a batch whose rates have been written. */
  method AggregateStep(pods: PodAggregator, batch: Batch, ghost sets: map<ResourceKey, MetricSet>, ghost after: Samples,
                       ghost b: Samples, ghost prunes: bool)
    returns (ghost t: Turn, ghost p: Aggregate)
    requires Separate(sets) && PodsKeyed(SnapshotOf(batch)) && b.Keys == sets.Keys
    requires batch.sets == sets && after == SamplesOf(sets)
    modifies batch`sets, sets.Values`values
    ensures t == Turn(b, after, SamplesOf(sets), prunes)
    ensures Passed(t.after, t.left) && IsAggregate(pods.skippedMetrics, p) && Finds(t, p)
    ensures forall k, m :: Through(t, p, k, m)
  {
    hide *;
    ValuesShown(batch, sets);
    EachPart(sets);
    p := AggregateOnly(pods, batch, sets);
    t := Turn(b, after, SamplesOf(sets), prunes);
    PassedThrough(pods.skippedMetrics, sets, t, p);
  }

  method AggregateOnly(pods: PodAggregator, batch: Batch, ghost sets: map<ResourceKey, MetricSet>) returns (ghost p: Aggregate)
    requires Separate(sets) && PodsKeyed(SnapshotOf(batch)) && batch.sets == sets
    modifies batch`sets, sets.Values`values
    ensures IsAggregate(pods.skippedMetrics, p) && p.found == old(SnapshotOf(batch)) && p.found.Keys == sets.Keys <= p.left.Keys
    ensures forall k :: k in sets ==> p.left[k].values == sets[k].values
  {
    hide *;
    ghost var found := SnapshotOf(batch);
    ghost var order, adding, made := pods.Process(batch);
    p := Aggregate(found, SnapshotOf(batch), order, adding);
    ExtendsAt(sets, batch.sets);
    ValuesShown(batch, sets);
    IsAggregateOf(pods.skippedMetrics, p);
  }

  lemma PassedThrough(skipped: set<string>, sets: map<ResourceKey, MetricSet>, t: Turn, p: Aggregate)
    requires IsAggregate(skipped, p) && t.after.Keys == sets.Keys == p.found.Keys == t.batch.Keys && sets.Keys <= p.left.Keys
    requires t.left == SamplesOf(sets)
    requires forall k :: k in sets ==>
               sets[k].collectionStartTime == t.after[k].start && sets[k].scrapeTime == t.after[k].scrape
               && sets[k].labeledValues == t.after[k].labeled
               && p.found[k].values == t.after[k].values && p.left[k].values == sets[k].values
    ensures Passed(t.after, t.left) && Finds(t, p)
    ensures forall k, m :: Through(t, p, k, m)
  {
    hide IsAggregate, Through, Passed, SamplesOf;
    forall k | k in sets
      ensures p.found[k].values.Keys <= p.left[k].values.Keys
    {
      NoValueLost(skipped, p, k);
    }
    SamplesLeft(sets, t.after, p.found, p.left);
    forall k, m
      ensures Through(t, p, k, m)
    {
      GoesSo(t, p, k, m);
    }
  }

  /** The values in the batch's views and in the samples of some of its sets. */
  lemma ValuesShown(batch: Batch, sets: map<ResourceKey, MetricSet>)
    requires sets.Keys <= batch.sets.Keys && forall k :: k in sets ==> batch.sets[k] == sets[k]
    ensures forall k :: k in sets ==> SnapshotOf(batch)[k].values == sets[k].values
    ensures forall k :: k in sets ==>
              SamplesOf(sets)[k].start == sets[k].collectionStartTime
              && SamplesOf(sets)[k].scrape == sets[k].scrapeTime
              && SamplesOf(sets)[k].values == sets[k].values
  {
    SnapshotEntries(batch);
    EachPart(sets);
    hide SamplesOf, SnapshotOf;
  }

  /** The parts of the views and samples of some sets. */
  lemma EachPart(sets: map<ResourceKey, MetricSet>)
    ensures forall k :: k in sets ==>
              SamplesOf(sets)[k].start == sets[k].collectionStartTime
              && SamplesOf(sets)[k].scrape == sets[k].scrapeTime
              && SamplesOf(sets)[k].values == sets[k].values
              && SamplesOf(sets)[k].labeled == sets[k].labeledValues
              && ViewOf(sets[k]).values == sets[k].values && ViewOf(sets[k]).labels == sets[k].labels
  {
  }

  lemma ExtendsAt(was: map<ResourceKey, MetricSet>, sets: map<ResourceKey, MetricSet>)
    requires Extends(was, sets)
    ensures was.Keys <= sets.Keys && forall k :: k in was ==> k in sets && sets[k] == was[k]
  {
  }

  lemma IsAggregateOf(skipped: set<string>, p: Aggregate)
    requires Account(p.found, skipped, p.order, p.left, p.adding) && Distinct(p.order)
    requires forall k :: k in p.order <==> k in p.found
    ensures IsAggregate(skipped, p)
  {
  }

  lemma TurnOf(mapping: Mapping, before: Samples, t: Turn, cache: Samples)
    requires AllRated(mapping, t.batch, before, t.after) && Passed(t.after, t.left)
    requires cache == CacheSamples(before, t.batch, t.left, t.prunes)
    ensures IsTurn(mapping, before, t, cache)
  {
  }
}
