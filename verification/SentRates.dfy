/**
 The rates that leave a flush (collector/internal/setup/data_processors.go, plugins/processors/rate_calculator.go,
 pod_aggregator.go). The metrics that rates are calculated from are skipped by the pod aggregator, the rates
 themselves are not: a rate of zero gives way to the sum of the rates of the pod's containers.
 */
module SentRates {
  import opened Aggregation
  import opened Bags
  import opened BatchSets
  import opened Metrics
  import opened PodAggregation
  import opened PodAggregationPass
  import opened PodRates
  import opened RateCalculator
  import opened RateRuns
  import opened StandardMetrics
  import opened Sums
  import opened Wrappers

  const SKIPPED := SkipList(POD_METRICS_TO_NOT_AGGREGATE)

  /** The rate of a metric in the collector's table. */
  function RateOf(m: string): string
    requires m in RATE_METRICS_MAPPING
  {
    RATE_METRICS_MAPPING[m].name
  }

  // ---- one flush ------------------------------------------------------------------------------

  /** What is sent for the resource. */
  function Sent(p: Aggregate, k: ResourceKey, name: string): Option<Value> {
    BaseOf(p.left, k, name)
  }

  /** The rates of the containers of the resource; there are none unless it is a pod. */
  function ContainerRates(p: Aggregate, k: ResourceKey, name: string): map<ResourceKey, Value> {
    ContainerValues(p.found, SKIPPED, k, name)
  }

  /** No source reports the rate, and the aggregator finds it as it was calculated. */
  ghost predicate OnlyCalculated(t: Turn, p: Aggregate, name: string) {
    forall j :: j in p.found && name in p.found[j].values ==>
      j in t.batch && name !in t.batch[j].values && j in t.after && Get(t.after[j].values, name) == Some(p.found[j].values[name])
  }

  /** The rate is not zero, or no container has one, or theirs add up to zero. */
  ghost predicate Stays(p: Aggregate, k: ResourceKey, name: string) {
    !IsOpen(BaseOf(p.found, k, name)) || ContainerRates(p, k, name) == map[]
    || SumMap(Nums(ContainerRates(p, k, name))) == 0.0
  }

  function RateType(m: string): ValueType {
    if m == CPU_USAGE then ValueInt64 else ValueFloat
  }

  /** The calculator gives all rates of a metric the same type. */
  lemma RateTyped(c: Samples, t: Turn, j: ResourceKey, m: string)
    requires m in RATE_METRICS_MAPPING && AllRated(RATE_METRICS_MAPPING, t.batch, c, t.after) && j in t.batch && j in t.after
    requires RateOf(m) !in t.batch[j].values && RateOf(m) in t.after[j].values
    ensures t.after[j].values[RateOf(m)].valueType == RateType(m)
  {
    TableIsProper();
    hide Proper, Rated, RATE_METRICS_MAPPING, RateType;
    var cur, after := t.batch[j], t.after[j];
    assert SetRated(RATE_METRICS_MAPPING, cur, Get(c, j), after);
    WrittenIsTyped(RATE_METRICS_MAPPING, cur, Get(c, j), after, m);
  }

  lemma WrittenIsTyped(mapping: Mapping, cur: Sample, prev: Option<Sample>, after: Sample, m: string)
    requires Proper(mapping) && m in mapping && SetRated(mapping, cur, prev, after)
    requires mapping[m].name !in cur.values && mapping[m].name in after.values
    ensures after.values[mapping[m].name].valueType == RateType(m)
  {
    hide LabeledRated, CPU_USAGE, MilliRate, SecondRate, IsDisk;
    var name := mapping[m].name;
    assert Get(after.values, name).Some? && Get(cur.values, name).None?;
    assert ValuesRated(mapping, mapping.Keys, cur, prev.value, after.values);
    var n :| n in mapping && RateFor(n, mapping[n], cur, prev.value).Some? && mapping[n].name == name;
    assert n == m;
  }

  lemma RatesAgree(c: Samples, t: Turn, p: Aggregate, k: ResourceKey, m: string)
    requires m in RATE_METRICS_MAPPING && AllRated(RATE_METRICS_MAPPING, t.batch, c, t.after) && OnlyCalculated(t, p, RateOf(m))
    ensures Agree(ContainerRates(p, k, RateOf(m)))
  {
    hide AllRated, RATE_METRICS_MAPPING, SKIPPED, RateType, PodOf;
    var rates := ContainerRates(p, k, RateOf(m));
    forall j | j in rates
      ensures rates[j].valueType == RateType(m)
    {
      RateTyped(c, t, j, m);
    }
  }

  /** The rate that is sent is the one calculated if and only if it stays; otherwise the containers' sum replaces a zero. */
  lemma SentIff(c: Samples, t: Turn, p: Aggregate, k: ResourceKey, m: string)
    requires m in RATE_METRICS_MAPPING && AllRated(RATE_METRICS_MAPPING, t.batch, c, t.after)
    requires IsAggregate(SKIPPED, p) && OnlyCalculated(t, p, RateOf(m)) && BaseOf(p.found, k, RateOf(m)).Some?
    ensures var rate, sent := Num(BaseOf(p.found, k, RateOf(m)).value), Sent(p, k, RateOf(m));
            && sent.Some?
            && (Num(sent.value) == rate <==> Stays(p, k, RateOf(m)))
            && (Num(sent.value) != rate ==> rate == 0.0 && Num(sent.value) == SumMap(Nums(ContainerRates(p, k, RateOf(m)))))
  {
    RatesAgree(c, t, p, k, m);
    NonZeroIsSupported(BaseOf(p.found, k, RateOf(m)).value);
    hide AllRated, RATE_METRICS_MAPPING, SKIPPED, Account, ContainerValues, BaseOf, Agree, SumMap, Nums, Num, Distinct,
      OnlyCalculated;
    PodTotal(p.found, SKIPPED, p.order, p.left, p.adding, k, RateOf(m));
  }

  // ---- runs -----------------------------------------------------------------------------------

  /** The resource's rate arrives at the aggregator as it was calculated. */
  ghost predicate Arrives(t: Turn, p: Aggregate, k: ResourceKey, name: string) {
    k in t.batch ==> k in t.after && k in p.found && BaseOf(p.found, k, name) == Get(t.after[k].values, name)
  }

  /** A flush and its pass of the aggregator, as far as the rate is concerned. */
  ghost predicate Flushed(c: Samples, t: Turn, p: Aggregate, k: ResourceKey, name: string) {
    AllRated(RATE_METRICS_MAPPING, t.batch, c, t.after) && IsAggregate(SKIPPED, p)
    && OnlyCalculated(t, p, name) && Arrives(t, p, k, name)
  }

  ghost predicate AllFlushed(caches: seq<Samples>, turns: seq<Turn>, passes: seq<Aggregate>, k: ResourceKey, name: string) {
    |caches| == |turns| + 1 && |passes| == |turns|
    && forall i :: 0 <= i < |turns| ==> Flushed(caches[i], turns[i], passes[i], k, name)
  }

  /** What the rate calculated in a flush comes to over its time. */
  function Calculated(c: Samples, t: Turn, k: ResourceKey, name: string): real {
    if RateIn(c, t, k, name).Some? then Num(RateIn(c, t, k, name).value) * Elapsed(c, t, k) as real else 0.0
  }

  /** The same for the rate that is sent in its place. */
  function SentFor(c: Samples, t: Turn, p: Aggregate, k: ResourceKey, name: string): real {
    if RateIn(c, t, k, name).Some? then NumOr0(Sent(p, k, name)) * Elapsed(c, t, k) as real else 0.0
  }

  /** The two processors, one after the other, make such a flush of any batch whose sources report no rates. */
  lemma FlushedBoth(c: Samples, t: Turn, cache: Samples, p: Aggregate, k: ResourceKey, name: string)
    requires IsTurn(RATE_METRICS_MAPPING, c, t, cache) && IsAggregate(SKIPPED, p) && Finds(t, p)
    requires forall j :: j in t.batch ==> name !in t.batch[j].values
    ensures Flushed(c, t, p, k, name)
  {
    hide AllRated, IsAggregate, RATE_METRICS_MAPPING, SKIPPED;
  }

  function CalculatedTotal(caches: seq<Samples>, turns: seq<Turn>, k: ResourceKey, name: string): real
    requires |caches| == |turns| + 1
  {
    if turns == [] then 0.0
    else
      var n := |turns| - 1;
      CalculatedTotal(caches[..n + 1], turns[..n], k, name) + Calculated(caches[n], turns[n], k, name)
  }

  function SentTotal(caches: seq<Samples>, turns: seq<Turn>, passes: seq<Aggregate>, k: ResourceKey, name: string): real
    requires |caches| == |turns| + 1 && |passes| == |turns|
  {
    if turns == [] then 0.0
    else
      var n := |turns| - 1;
      SentTotal(caches[..n + 1], turns[..n], passes[..n], k, name) + SentFor(caches[n], turns[n], passes[n], k, name)
  }

  /** The flush calculates no rate, or sends the one it calculates. */
  ghost predicate StaysAt(c: Samples, t: Turn, p: Aggregate, k: ResourceKey, name: string) {
    RateIn(c, t, k, name).Some? ==> Stays(p, k, name)
  }

  lemma SentTurn(c: Samples, t: Turn, p: Aggregate, k: ResourceKey, m: string)
    requires m in RATE_METRICS_MAPPING && Flushed(c, t, p, k, RateOf(m))
    ensures SentFor(c, t, p, k, RateOf(m)) == Calculated(c, t, k, RateOf(m)) <==> StaysAt(c, t, p, k, RateOf(m))
  {
    hide AllRated, RATE_METRICS_MAPPING, SKIPPED, IsAggregate, Stays, Num, OnlyCalculated, BaseOf;
    var name := RateOf(m);
    if RateIn(c, t, k, name).Some? {
      SentIff(c, t, p, k, m);
      TimesEqual(Num(Sent(p, k, name).value), Num(RateIn(c, t, k, name).value), Elapsed(c, t, k));
    }
  }

  lemma TimesEqual(x: real, y: real, dt: int)
    requires dt > 0
    ensures x * dt as real == y * dt as real <==> x == y
  {
    assert x * dt as real - y * dt as real == (x - y) * dt as real;
  }

  /** Up to flush n the rates sent come to what was calculated. */
  ghost predicate SentUpTo(caches: seq<Samples>, turns: seq<Turn>, passes: seq<Aggregate>, k: ResourceKey, name: string, n: nat)
    requires |caches| == |turns| + 1 && |passes| == |turns| && n <= |turns|
  {
    SentTotal(caches[..n + 1], turns[..n], passes[..n], k, name) == CalculatedTotal(caches[..n + 1], turns[..n], k, name)
  }

  lemma SentNext(caches: seq<Samples>, turns: seq<Turn>, passes: seq<Aggregate>, k: ResourceKey, m: string, n: nat)
    requires m in RATE_METRICS_MAPPING && AllFlushed(caches, turns, passes, k, RateOf(m)) && n < |turns|
    requires SentUpTo(caches, turns, passes, k, RateOf(m), n)
    ensures SentUpTo(caches, turns, passes, k, RateOf(m), n + 1)
            <==> StaysAt(caches[n], turns[n], passes[n], k, RateOf(m))
  {
    hide RATE_METRICS_MAPPING, Flushed, SentFor, Calculated, StaysAt;
    SentTurn(caches[n], turns[n], passes[n], k, m);
    assert caches[..n + 2][..n + 1] == caches[..n + 1] && turns[..n + 1][..n] == turns[..n] && passes[..n + 1][..n] == passes[..n];
  }

  lemma {:induction false} SentSoFar(caches: seq<Samples>, turns: seq<Turn>, passes: seq<Aggregate>, k: ResourceKey, m: string,
                                     n: nat)
    requires m in RATE_METRICS_MAPPING && AllFlushed(caches, turns, passes, k, RateOf(m)) && n <= |turns|
    requires forall i :: 0 <= i < |turns| ==> StaysAt(caches[i], turns[i], passes[i], k, RateOf(m))
    ensures SentUpTo(caches, turns, passes, k, RateOf(m), n)
  {
    if n > 0 {
      hide RATE_METRICS_MAPPING, Flushed, StaysAt, SentUpTo;
      SentSoFar(caches, turns, passes, k, m, n - 1);
      SentNext(caches, turns, passes, k, m, n - 1);
    }
  }

  /** Over every run the rates sent come to those calculated if and only if in every flush the rate stays. */
  lemma SentIsCalculatedIff(caches: seq<Samples>, turns: seq<Turn>, passes: seq<Aggregate>, k: ResourceKey, m: string)
    requires m in RATE_METRICS_MAPPING && AllFlushed(caches, turns, passes, k, RateOf(m))
    ensures (forall n :: 0 <= n <= |turns| ==> SentUpTo(caches, turns, passes, k, RateOf(m), n))
            <==> forall n :: 0 <= n < |turns| ==> StaysAt(caches[n], turns[n], passes[n], k, RateOf(m))
  {
    hide RATE_METRICS_MAPPING, Flushed, StaysAt, SentUpTo;
    if forall n :: 0 <= n < |turns| ==> StaysAt(caches[n], turns[n], passes[n], k, RateOf(m)) {
      forall n | 0 <= n <= |turns|
        ensures SentUpTo(caches, turns, passes, k, RateOf(m), n)
      {
        SentSoFar(caches, turns, passes, k, m, n);
      }
    }
    if forall n :: 0 <= n <= |turns| ==> SentUpTo(caches, turns, passes, k, RateOf(m), n) {
      forall n | 0 <= n < |turns|
        ensures StaysAt(caches[n], turns[n], passes[n], k, RateOf(m))
      {
        SentNext(caches, turns, passes, k, m, n);
      }
    }
  }

  // ---- what is sent and what was reported -----------------------------------------------------

  lemma {:induction false} FloatIsCalculated(caches: seq<Samples>, turns: seq<Turn>, passes: seq<Aggregate>, k: ResourceKey,
                                             m: string)
    requires m in RATE_METRICS_MAPPING && m != CPU_USAGE && AllFlushed(caches, turns, passes, k, RateOf(m))
    ensures CalculatedTotal(caches, turns, k, RateOf(m)) == Float(caches, turns, k, RateOf(m))
    decreases |turns|
  {
    hide RATE_METRICS_MAPPING, Flushed, RateIn, Num, Rates, Elapsed, CPU_USAGE;
    if turns != [] {
      var n := |turns| - 1;
      FloatIsCalculated(caches[..n + 1], turns[..n], passes[..n], k, m);
      RateIsFloat(caches[n], turns[n], passes[n], k, m);
    }
  }

  lemma RateIsFloat(c: Samples, t: Turn, p: Aggregate, k: ResourceKey, m: string)
    requires m in RATE_METRICS_MAPPING && m != CPU_USAGE && Flushed(c, t, p, k, RateOf(m))
    ensures var rate := RateIn(c, t, k, RateOf(m));
            rate.Some? ==> Rates(c, t, k) && Num(rate.value) == rate.value.floatValue
  {
    hide AllRated, RATE_METRICS_MAPPING, SKIPPED, IsAggregate, CPU_USAGE;
    if RateIn(c, t, k, RateOf(m)).Some? {
      assert BaseOf(p.found, k, RateOf(m)).Some?;
      RateTyped(c, t, k, m);
    }
  }

  /** Up to flush n the rates sent add up to the growth of what the source reported. */
  ghost predicate SentExactUpTo(caches: seq<Samples>, turns: seq<Turn>, passes: seq<Aggregate>, k: ResourceKey, m: string, n: nat)
    requires |caches| == |turns| + 1 && |passes| == |turns| && n <= |turns| && m in RATE_METRICS_MAPPING
  {
    SentTotal(caches[..n + 1], turns[..n], passes[..n], k, RateOf(m))
    == 1000000000.0 * (Reported(caches[..n + 1], turns[..n], k, m, ValueIn(caches[0], k, m)) - ValueIn(caches[0], k, m)) as real
  }

  /**
   After every flush of a run, the rates sent for a resource add up to the growth of what its source reported,
   if and only if in no flush a calculated rate of zero gave way to rates of containers that do not cancel out.
   */
  lemma SentAddUpIff(caches: seq<Samples>, turns: seq<Turn>, passes: seq<Aggregate>, k: ResourceKey, m: string, start: int)
    requires m in RATE_METRICS_MAPPING && m != CPU_USAGE && !IsDisk(m) && IsRun(RATE_METRICS_MAPPING, caches, turns)
    requires Cached(caches[0], k, m, start) && AllSteady(turns, k, m, start)
    requires Aggregated(SKIPPED, turns, passes, k, m) && AllFlushed(caches, turns, passes, k, RateOf(m))
    ensures (forall n :: 0 <= n <= |turns| ==> SentExactUpTo(caches, turns, passes, k, m, n))
            <==> forall n :: 0 <= n < |turns| ==> StaysAt(caches[n], turns[n], passes[n], k, RateOf(m))
  {
    RunSizes(RATE_METRICS_MAPPING, caches, turns);
    SkippedIs();
    hide *;
    RatesAddUp(POD_METRICS_TO_NOT_AGGREGATE, caches, turns, passes, k, m, start);
    SentIsCalculatedIff(caches, turns, passes, k, m);
    forall n | 0 <= n <= |turns|
      ensures SentExactUpTo(caches, turns, passes, k, m, n) <==> SentUpTo(caches, turns, passes, k, RateOf(m), n)
    {
      SentExactIff(caches, turns, passes, k, m, n);
    }
  }

  lemma SkippedIs()
    ensures SKIPPED == SkipList(POD_METRICS_TO_NOT_AGGREGATE)
  {
  }

  lemma SentExactIff(caches: seq<Samples>, turns: seq<Turn>, passes: seq<Aggregate>, k: ResourceKey, m: string, n: nat)
    requires m in RATE_METRICS_MAPPING && m != CPU_USAGE && AllFlushed(caches, turns, passes, k, RateOf(m)) && n <= |turns|
    requires ExactUpTo(RATE_METRICS_MAPPING, caches, turns, k, m, ValueIn(caches[0], k, m), n)
    ensures SentExactUpTo(caches, turns, passes, k, m, n) <==> SentUpTo(caches, turns, passes, k, RateOf(m), n)
  {
    hide Flushed, RATE_METRICS_MAPPING, CPU_USAGE, Float, SentTotal, CalculatedTotal, Reported, ValueIn;
    FloatIsCalculated(caches[..n + 1], turns[..n], passes[..n], k, m);
  }

  // ---- a pod that stands still ----------------------------------------------------------------

  function Int(n: int): Value {
    Value(n, 0.0, ValueInt64)
  }

  function PerSecond(dv: int, dt: int): Value
    requires dt > 0
  {
    Value(0, SecondRate(dv, dt), ValueFloat)
  }

  const POD := PodKey("a", "p")
  const CONTAINER := PodContainerKey("a", "p", "c")
  const FAULTS_RATE := RateName(PAGE_FAULTS)

  function Plain(faults: int): map<string, Value> {
    map[PAGE_FAULTS := Int(faults)]
  }

  function RatedFaults(faults: int, rate: Value): map<string, Value> {
    Plain(faults)[FAULTS_RATE := rate]
  }

  /** The samples of the pod and of its container. */
  function Both(scrape: int, pod: map<string, Value>, container: map<string, Value>): Samples {
    map[POD := Sample(0, scrape, pod, []), CONTAINER := Sample(0, scrape, container, [])]
  }

  function Faults(scrape: int, pod: int, container: int): Samples {
    Both(scrape, Plain(pod), Plain(container))
  }

  function FaultSets(pod: map<string, Value>, container: map<string, Value>): Snapshot {
    map[POD := SetView(pod, map[LABEL_TYPE := TYPE_POD], []),
        CONTAINER := SetView(container,
                             map[LABEL_TYPE := TYPE_POD_CONTAINER, LABEL_NAMESPACE_NAME := "a", LABEL_POD_NAME := "p"], [])]
  }

  /** The pod has x page faults as before, its container v more. */
  function StandingFlush(x: int, v: int, dt: int): Turn
    requires dt > 0
  {
    Turn(Faults(dt, x, v), Both(dt, RatedFaults(x, PerSecond(0, dt)), RatedFaults(v, PerSecond(v, dt))),
         Both(dt, RatedFaults(x, PerSecond(v, dt)), RatedFaults(v, PerSecond(v, dt))), false)
  }

  function StandingPass(x: int, v: int, dt: int): Aggregate
    requires dt > 0
  {
    Aggregate(FaultSets(RatedFaults(x, PerSecond(0, dt)), RatedFaults(v, PerSecond(v, dt))),
              FaultSets(RatedFaults(x, PerSecond(v, dt)), RatedFaults(v, PerSecond(v, dt))),
              [POD, CONTAINER], {(POD, FAULTS_RATE)})
  }

  lemma NamesDiffer()
    ensures PAGE_FAULTS in RATE_METRICS_MAPPING && RateOf(PAGE_FAULTS) == FAULTS_RATE
    ensures !IsDisk(PAGE_FAULTS) && PAGE_FAULTS != CPU_USAGE && PAGE_FAULTS in SKIPPED && FAULTS_RATE !in SKIPPED
    ensures PAGE_FAULTS != FAULTS_RATE
  {
    assert PAGE_FAULTS[0] == 'm' && DISK_IO_READ[0] == 'd' && DISK_IO_WRITE[0] == 'd' && CPU_USAGE[0] == 'c';
    assert |FAULTS_RATE| == |PAGE_FAULTS| + 5;
    MappedNames();
    hide RATE_METRICS_MAPPING, PAGE_FAULTS, CPU_USAGE, DISK_IO_READ, DISK_IO_WRITE;
    RatedAreSkipped(POD_METRICS_TO_NOT_AGGREGATE, PAGE_FAULTS);
    RatesAreNotSkipped(PAGE_FAULTS);
  }

  lemma LabelsDiffer()
    ensures LABEL_TYPE != LABEL_POD_NAME && LABEL_TYPE != LABEL_NAMESPACE_NAME && LABEL_POD_NAME != LABEL_NAMESPACE_NAME
    ensures TYPE_POD != TYPE_POD_CONTAINER && POD != CONTAINER
  {
    assert LABEL_POD_NAME[0] == 'p' && LABEL_NAMESPACE_NAME[0] == 'n' && LABEL_TYPE[0] == 't';
    assert |TYPE_POD| < |TYPE_POD_CONTAINER|;
  }

  lemma RatedAt(faults: int, rate: Value)
    ensures PAGE_FAULTS in RatedFaults(faults, rate) && FAULTS_RATE in RatedFaults(faults, rate)
    ensures var r := RatedFaults(faults, rate);
            && (forall m :: m in r <==> m == PAGE_FAULTS || m == FAULTS_RATE)
            && r[PAGE_FAULTS] == Int(faults) && r[FAULTS_RATE] == rate
  {
    NamesDiffer();
    hide PAGE_FAULTS, FAULTS_RATE, Int;
  }

  lemma RatedAgain(faults: int, rate: Value, other: Value)
    ensures RatedFaults(faults, rate)[FAULTS_RATE := other] == RatedFaults(faults, other)
  {
    hide FAULTS_RATE, Plain;
  }

  /** The container is the pod's. */
  lemma PodOfFaults(pod: map<string, Value>, container: map<string, Value>)
    ensures var s := FaultSets(pod, container);
            && (forall k :: k in s <==> k == POD || k == CONTAINER)
            && s[POD].values == pod && s[CONTAINER].values == container
            && PodOf(s, POD) == None && PodOf(s, CONTAINER) == Some(POD)
  {
    LabelsDiffer();
    hide LABEL_TYPE, LABEL_POD_NAME, LABEL_NAMESPACE_NAME, TYPE_POD, TYPE_POD_CONTAINER;
  }

  lemma BothVisited(s: Snapshot, q: ResourceKey, m: string)
    requires POD in s && CONTAINER in s && PodOf(s, POD) == None
    ensures MetricTally(s, SKIPPED, [POD, CONTAINER], q, m)
            == var none := Tally(BaseOf(s, q, m), false);
               if Feeds(s, SKIPPED, CONTAINER, q, m) then Step(none, s[CONTAINER].values[m]) else none
  {
    hide Step, PodOf, BaseOf, SKIPPED, POD, CONTAINER;
    assert [POD, CONTAINER][..1] == [POD] && [POD][..0] == [];
    assert MetricTally(s, SKIPPED, [], q, m) == Tally(BaseOf(s, q, m), false);
    assert MetricTally(s, SKIPPED, [POD], q, m) == Tally(BaseOf(s, q, m), false);
  }

  /** A pass over a pod and its container that have only the metric x to add up, which is zero for the pod. */
  function PassOf(pod: map<string, Value>, container: map<string, Value>, x: string): Aggregate
    requires x in container
  {
    Aggregate(FaultSets(pod, container), FaultSets(pod[x := container[x]], container), [POD, CONTAINER], {(POD, x)})
  }

  ghost predicate OnlyAdds(pod: map<string, Value>, container: map<string, Value>, x: string) {
    x in pod && x in container && pod[x].IsZero() && forall m :: m in container && m !in SKIPPED <==> m == x
  }

  lemma BaseOfFaults(pod: map<string, Value>, container: map<string, Value>, q: ResourceKey, m: string)
    ensures BaseOf(FaultSets(pod, container), q, m)
            == if q == POD then Get(pod, m) else if q == CONTAINER then Get(container, m) else None
  {
    LabelsDiffer();
    PodOfFaults(pod, container);
    hide POD, CONTAINER, FaultSets, PodOf;
  }

  /** The pod has what the container brings, and all else is as before. */
  lemma PassBase(pod: map<string, Value>, container: map<string, Value>, x: string, q: ResourceKey, m: string)
    requires x in pod && x in container
    ensures var p := PassOf(pod, container, x);
            && BaseOf(p.left, q, m) == (if q == POD && m == x then Some(container[x]) else BaseOf(p.found, q, m))
            && BaseOf(p.found, POD, x) == Some(pod[x])
  {
    BaseOfFaults(pod, container, q, m);
    BaseOfFaults(pod, container, POD, x);
    BaseOfFaults(pod[x := container[x]], container, q, m);
    hide POD, CONTAINER, FaultSets, BaseOf;
  }

  lemma PassFeeds(pod: map<string, Value>, container: map<string, Value>, x: string, q: ResourceKey, m: string)
    requires OnlyAdds(pod, container, x)
    ensures var s := PassOf(pod, container, x).found;
            && POD in s && CONTAINER in s && PodOf(s, POD) == None && s[CONTAINER].values == container
            && (Feeds(s, SKIPPED, CONTAINER, q, m) <==> q == POD && m == x)
  {
    PodOfFaults(pod, container);
    hide POD, CONTAINER, FaultSets, PodOf, SKIPPED;
  }

  lemma PassTally(pod: map<string, Value>, container: map<string, Value>, x: string, q: ResourceKey, m: string)
    requires OnlyAdds(pod, container, x)
    ensures var p := PassOf(pod, container, x);
            Tally(BaseOf(p.left, q, m), (q, m) in p.adding) == MetricTally(p.found, SKIPPED, p.order, q, m)
  {
    StepOpens(pod[x], container[x]);
    hide SKIPPED, MetricTally, BaseOf, Feeds, PodOf, Step, FaultSets, POD, CONTAINER;
    PassBase(pod, container, x, q, m);
    PassFeeds(pod, container, x, q, m);
    BothVisited(PassOf(pod, container, x).found, q, m);
  }

  lemma StepOpens(v: Value, w: Value)
    requires v.IsZero()
    ensures Step(Tally(Some(v), false), w) == Tally(Some(w), true)
  {
  }

  lemma PassKeys(pod: map<string, Value>, container: map<string, Value>, x: string)
    requires x in container
    ensures var p := PassOf(pod, container, x);
            && (forall k :: k in p.left <==> k in p.found || IsPod(p.found, p.order, k))
            && (forall k :: k in p.left ==> LabelsKept(p.found, p.order, p.left, k))
            && Distinct(p.order) && forall k :: k in p.order <==> k in p.found
  {
    LabelsDiffer();
    PodOfFaults(pod, container);
    PodOfFaults(pod[x := container[x]], container);
    PassLabels(pod, container, x);
    hide POD, CONTAINER, FaultSets, PodOf, LabelsKept;
    var p := PassOf(pod, container, x);
    assert p.order[0] == POD && p.order[1] == CONTAINER;
    assert forall k :: k in p.order <==> k == POD || k == CONTAINER;
  }

  lemma PassLabels(pod: map<string, Value>, container: map<string, Value>, x: string)
    requires x in container
    ensures var p := PassOf(pod, container, x); forall k :: k in p.left ==> LabelsKept(p.found, p.order, p.left, k)
  {
    LabelsDiffer();
    hide POD, CONTAINER, LABEL_TYPE, TYPE_POD, TYPE_POD_CONTAINER, PodOf, PodLabels;
  }

  lemma PassIsAggregate(pod: map<string, Value>, container: map<string, Value>, x: string)
    requires OnlyAdds(pod, container, x)
    ensures IsAggregate(SKIPPED, PassOf(pod, container, x))
  {
    var p := PassOf(pod, container, x);
    PassKeys(pod, container, x);
    hide OnlyAdds, PassOf, SKIPPED, Distinct, MetricTally, LabelsKept, BaseOf, IsPod;
    forall q, m
      ensures Tally(BaseOf(p.left, q, m), (q, m) in p.adding) == MetricTally(p.found, SKIPPED, p.order, q, m)
    {
      PassTally(pod, container, x, q, m);
    }
  }

  lemma StandingAdds(x: int, v: int, dt: int)
    requires v > 0 && dt > 0
    ensures OnlyAdds(RatedFaults(x, PerSecond(0, dt)), RatedFaults(v, PerSecond(v, dt)), FAULTS_RATE)
  {
    NamesDiffer();
    Positive(v, dt);
    RatedAt(x, PerSecond(0, dt));
    RatedAt(v, PerSecond(v, dt));
    hide PAGE_FAULTS, FAULTS_RATE, SKIPPED, PerSecond, RatedFaults;
  }

  lemma Positive(v: int, dt: int)
    requires v > 0 && dt > 0
    ensures PerSecond(v, dt).floatValue > 0.0 && !PerSecond(v, dt).IsZero() && PerSecond(0, dt).IsZero()
  {
    var y := 1000000000.0 * v as real;
    assert y > 0.0 && y / dt as real > 0.0;
  }

  /** The samples of one resource, with its rate. */
  lemma FaultsRated(scrape: int, now: int, before: int)
    requires scrape > 0
    ensures var cur, prev := Sample(0, scrape, Plain(now), []), Sample(0, 0, Plain(before), []);
            SetRated(RATE_METRICS_MAPPING, cur, Some(prev),
                     Sample(0, scrape, RatedFaults(now, PerSecond(now - before, scrape)), []))
  {
    var cur, prev := Sample(0, scrape, Plain(now), []), Sample(0, 0, Plain(before), []);
    FaultValuesRated(scrape, now, before);
    NoDiskRates(cur, prev);
    hide ValuesRated, LabeledRated, RATE_METRICS_MAPPING, RatedFaults, Plain;
  }

  lemma NoDiskRates(cur: Sample, prev: Sample)
    requires Follows(cur, prev) && cur.labeled == []
    ensures LabeledRated(RATE_METRICS_MAPPING, RATE_METRICS_MAPPING.Keys, cur, prev, [])
  {
    hide RATE_METRICS_MAPPING, DISK_IO_READ, DISK_IO_WRITE;
  }

  lemma FaultValuesRated(scrape: int, now: int, before: int)
    requires scrape > 0
    ensures var cur, prev := Sample(0, scrape, Plain(now), []), Sample(0, 0, Plain(before), []);
            ValuesRated(RATE_METRICS_MAPPING, RATE_METRICS_MAPPING.Keys, cur, prev,
                        RatedFaults(now, PerSecond(now - before, scrape)))
  {
    var cur, prev := Sample(0, scrape, Plain(now), []), Sample(0, 0, Plain(before), []);
    PlainRate(scrape, now, before);
    RatedAt(now, PerSecond(now - before, scrape));
    hide RateFor, PerSecond, PAGE_FAULTS, FAULTS_RATE, RATE_METRICS_MAPPING, ValuesRated, RatedFaults;
    OnlyRateIs(RATE_METRICS_MAPPING, cur, prev, PAGE_FAULTS, PerSecond(now - before, scrape));
  }

  lemma PlainRate(scrape: int, now: int, before: int)
    requires scrape > 0
    ensures PAGE_FAULTS in RATE_METRICS_MAPPING && RATE_METRICS_MAPPING[PAGE_FAULTS].name == FAULTS_RATE
    ensures RateFor(PAGE_FAULTS, RATE_METRICS_MAPPING[PAGE_FAULTS], Sample(0, scrape, Plain(now), []), Sample(0, 0, Plain(before), []))
            == Some(PerSecond(now - before, scrape))
  {
    NamesDiffer();
    FloatOfTable(PAGE_FAULTS);
    PlainAt(now);
    PlainAt(before);
    hide RateFor, PerSecond, PAGE_FAULTS, FAULTS_RATE, IsDisk, RATE_METRICS_MAPPING, CPU_USAGE, Plain, Int;
    FloatRateOf(PAGE_FAULTS, RATE_METRICS_MAPPING[PAGE_FAULTS], Sample(0, scrape, Plain(now), []), Sample(0, 0, Plain(before), []),
                now, before);
  }

  lemma FloatRateOf(m: string, target: Target, cur: Sample, prev: Sample, now: int, before: int)
    requires Follows(cur, prev) && Get(cur.values, m) == Some(Int(now)) && Get(prev.values, m) == Some(Int(before))
    requires target.valueType == ValueFloat && m != CPU_USAGE && !IsDisk(m)
    ensures RateFor(m, target, cur, prev) == Some(PerSecond(now - before, cur.scrape - prev.scrape))
  {
    hide RateFor, SecondRate, IsDisk, CPU_USAGE;
    FloatRateFor(m, target, cur, prev);
  }

  lemma PlainAt(faults: int)
    ensures Plain(faults).Keys == {PAGE_FAULTS} && Plain(faults)[PAGE_FAULTS] == Int(faults)
  {
  }

  /** A sample with one metric gets one rate. */
  lemma OnlyRateIs(mapping: Mapping, cur: Sample, prev: Sample, m: string, rate: Value)
    requires Follows(cur, prev) && m in mapping && cur.values.Keys == {m}
    requires RateFor(m, mapping[m], cur, prev) == Some(rate)
    ensures ValuesRated(mapping, mapping.Keys, cur, prev, cur.values[mapping[m].name := rate])
  {
    assert forall n :: n in mapping && n != m ==> RateFor(n, mapping[n], cur, prev).None?;
    hide RateFor;
  }

  // ---- what the pod is sent -------------------------------------------------------------------

  lemma StandingIs(x: int, v: int, dt: int)
    requires dt > 0
    ensures var t := StandingFlush(x, v, dt);
            && t.batch == Both(dt, Plain(x), Plain(v)) && Faults(0, x, 0) == Both(0, Plain(x), Plain(0)) && !t.prunes
            && t.after == Both(dt, RatedFaults(x, PerSecond(0, dt)), RatedFaults(v, PerSecond(v, dt)))
            && t.left == Both(dt, RatedFaults(x, PerSecond(v, dt)), RatedFaults(v, PerSecond(v, dt)))
  {
    hide Plain, RatedFaults, PerSecond, Both;
  }

  lemma StandingTurn(x: int, v: int, dt: int)
    requires dt > 0
    ensures var t := StandingFlush(x, v, dt); IsTurn(RATE_METRICS_MAPPING, Faults(0, x, 0), t, t.left)
  {
    RatedAt(x, PerSecond(0, dt));
    RatedAt(x, PerSecond(v, dt));
    hide *;
    StandingIs(x, v, dt);
    StandingRated(x, v, dt);
    BothAt(0, Plain(x), Plain(0));
    BothPassed(dt, RatedFaults(x, PerSecond(0, dt)), RatedFaults(x, PerSecond(v, dt)), RatedFaults(v, PerSecond(v, dt)));
    BothCached(dt, Faults(0, x, 0), Plain(x), Plain(v), RatedFaults(x, PerSecond(v, dt)), RatedFaults(v, PerSecond(v, dt)));
    TurnOf(RATE_METRICS_MAPPING, Faults(0, x, 0), StandingFlush(x, v, dt), StandingFlush(x, v, dt).left);
  }

  lemma BothPassed(dt: int, pod: map<string, Value>, left: map<string, Value>, container: map<string, Value>)
    requires pod.Keys <= left.Keys
    ensures Passed(Both(dt, pod, container), Both(dt, left, container))
  {
    BothAt(dt, pod, container);
    BothAt(dt, left, container);
    hide Both, POD, CONTAINER;
  }

  lemma BothCached(dt: int, c: Samples, pod: map<string, Value>, container: map<string, Value>, left: map<string, Value>,
                   containerLeft: map<string, Value>)
    requires dt > 0 && (forall k :: k in c <==> k == POD || k == CONTAINER) && c[POD].scrape == c[CONTAINER].scrape == 0
    ensures Both(dt, left, containerLeft).Keys == Both(dt, pod, container).Keys
    ensures CacheSamples(c, Both(dt, pod, container), Both(dt, left, containerLeft), false) == Both(dt, left, containerLeft)
  {
    BothAt(dt, pod, container);
    BothAt(dt, left, containerLeft);
    hide Both, POD, CONTAINER;
  }

  lemma StandingRated(x: int, v: int, dt: int)
    requires dt > 0
    ensures var t := StandingFlush(x, v, dt); AllRated(RATE_METRICS_MAPPING, t.batch, Faults(0, x, 0), t.after)
  {
    hide *;
    StandingIs(x, v, dt);
    FaultsRated(dt, x, x);
    FaultsRated(dt, v, 0);
    BothRated(RATE_METRICS_MAPPING, dt, Plain(x), Plain(v), Plain(x), Plain(0), RatedFaults(x, PerSecond(0, dt)),
              RatedFaults(v, PerSecond(v, dt)));
  }

  lemma BothRated(mapping: Mapping, dt: int, pod: map<string, Value>, container: map<string, Value>, podWas: map<string, Value>,
                  containerWas: map<string, Value>, podNow: map<string, Value>, containerNow: map<string, Value>)
    requires SetRated(mapping, Sample(0, dt, pod, []), Some(Sample(0, 0, podWas, [])), Sample(0, dt, podNow, []))
    requires SetRated(mapping, Sample(0, dt, container, []), Some(Sample(0, 0, containerWas, [])), Sample(0, dt, containerNow, []))
    ensures AllRated(mapping, Both(dt, pod, container), Both(0, podWas, containerWas), Both(dt, podNow, containerNow))
  {
    BothAt(0, podWas, containerWas);
    BothAt(dt, pod, container);
    BothAt(dt, podNow, containerNow);
    hide SetRated, Both;
  }

  lemma BothAt(scrape: int, pod: map<string, Value>, container: map<string, Value>)
    ensures var b := Both(scrape, pod, container);
            && (forall k :: k in b <==> k == POD || k == CONTAINER)
            && b[POD] == Sample(0, scrape, pod, []) && b[CONTAINER] == Sample(0, scrape, container, [])
  {
    LabelsDiffer();
    hide POD, CONTAINER;
  }

  /**
   A pod's page faults stand still and those of its container grow: the rate calculated for the pod is zero, and
   the container's is sent for it.
   */
  lemma StandingPodSendsRates(x: int, v: int, dt: int)
    requires v > 0 && dt > 0
    ensures var c, t, p := Faults(0, x, 0), StandingFlush(x, v, dt), StandingPass(x, v, dt);
            && IsTurn(RATE_METRICS_MAPPING, c, t, t.left) && IsAggregate(SKIPPED, p) && Finds(t, p)
            && Through(t, p, POD, PAGE_FAULTS) && Through(t, p, POD, FAULTS_RATE)
            && ValueIn(c, POD, PAGE_FAULTS) == ValueIn(t.batch, POD, PAGE_FAULTS) == x
            && RateIn(c, t, POD, FAULTS_RATE) == Some(PerSecond(0, dt))
            && Sent(p, POD, FAULTS_RATE) == Some(PerSecond(v, dt)) && PerSecond(v, dt).floatValue > 0.0
  {
    hide *;
    StandingTurn(x, v, dt);
    StandingAdds(x, v, dt);
    StandingIsPass(x, v, dt);
    PassIsAggregate(RatedFaults(x, PerSecond(0, dt)), RatedFaults(v, PerSecond(v, dt)), FAULTS_RATE);
    StandingFound(x, v, dt);
    Positive(v, dt);
  }

  lemma StandingIsPass(x: int, v: int, dt: int)
    requires dt > 0
    ensures FAULTS_RATE in RatedFaults(v, PerSecond(v, dt))
    ensures StandingPass(x, v, dt) == PassOf(RatedFaults(x, PerSecond(0, dt)), RatedFaults(v, PerSecond(v, dt)), FAULTS_RATE)
  {
    RatedAt(v, PerSecond(v, dt));
    RatedAgain(x, PerSecond(0, dt), PerSecond(v, dt));
    hide PAGE_FAULTS, FAULTS_RATE, PerSecond, RatedFaults, FaultSets, POD, CONTAINER;
  }

  lemma StandingFound(x: int, v: int, dt: int)
    requires dt > 0
    ensures var c, t, p := Faults(0, x, 0), StandingFlush(x, v, dt), StandingPass(x, v, dt);
            && Finds(t, p) && Through(t, p, POD, PAGE_FAULTS) && Through(t, p, POD, FAULTS_RATE)
            && ValueIn(c, POD, PAGE_FAULTS) == ValueIn(t.batch, POD, PAGE_FAULTS) == x
            && RateIn(c, t, POD, FAULTS_RATE) == Some(PerSecond(0, dt))
            && Sent(p, POD, FAULTS_RATE) == Some(PerSecond(v, dt))
  {
    PodOfFaults(RatedFaults(x, PerSecond(0, dt)), RatedFaults(v, PerSecond(v, dt)));
    PodOfFaults(RatedFaults(x, PerSecond(v, dt)), RatedFaults(v, PerSecond(v, dt)));
    BothAt(dt, RatedFaults(x, PerSecond(0, dt)), RatedFaults(v, PerSecond(v, dt)));
    BothAt(dt, RatedFaults(x, PerSecond(v, dt)), RatedFaults(v, PerSecond(v, dt)));
    RatedAt(x, PerSecond(0, dt));
    RatedAt(x, PerSecond(v, dt));
    hide PAGE_FAULTS, FAULTS_RATE, PerSecond, RatedFaults, FaultSets, Both, POD, CONTAINER, PodOf;
    StandingValues(x, v, dt);
    hide Plain, Faults, ValueIn, RateIn;
  }

  lemma StandingValues(x: int, v: int, dt: int)
    requires dt > 0
    ensures var c, t := Faults(0, x, 0), StandingFlush(x, v, dt);
            && ValueIn(c, POD, PAGE_FAULTS) == ValueIn(t.batch, POD, PAGE_FAULTS) == x
            && RateIn(c, t, POD, FAULTS_RATE) == Some(PerSecond(0, dt))
  {
    BothAt(0, Plain(x), Plain(0));
    BothAt(dt, Plain(x), Plain(v));
    BothAt(dt, RatedFaults(x, PerSecond(0, dt)), RatedFaults(v, PerSecond(v, dt)));
    PlainAt(x);
    RatedAt(x, PerSecond(0, dt));
    hide PAGE_FAULTS, FAULTS_RATE, PerSecond, RatedFaults, Plain, Both, POD, CONTAINER;
  }
}
