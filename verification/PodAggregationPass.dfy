/** The pod aggregator itself, which updates pods in place and adds the pods it had to make at the end. */
module PodAggregationPass {
  import opened Aggregation
  import opened Bags
  import opened BatchSets
  import opened Metrics
  import opened PodAggregation
  import opened StandardMetrics
  import opened Sums
  import opened Wrappers

  // ---- what a batch is after some containers have been visited --------------------------------

  /** The pod of a container set that names its pod and namespace. */
  function PodOf(s: Snapshot, k: ResourceKey): Option<ResourceKey> {
    if k in s && IsType(s[k], TYPE_POD_CONTAINER) && LABEL_POD_NAME in s[k].labels
       && LABEL_NAMESPACE_NAME in s[k].labels
    then Some(PodKey(s[k].labels[LABEL_NAMESPACE_NAME], s[k].labels[LABEL_POD_NAME]))
    else None
  }

  /** Sets at pod keys are no container sets. */
  ghost predicate PodsKeyed(s: Snapshot) {
    forall k :: k in s && k.PodKey? ==> !IsType(s[k], TYPE_POD_CONTAINER)
  }

  const LABELS_TO_POPULATE := [LABEL_POD_ID, LABEL_POD_NAME, LABEL_NAMESPACE_NAME, LABEL_NAMESPACE_UID, LABEL_HOSTNAME, LABEL_HOST_ID]

  /** podMetricSet: the labels of a pod made for a container with the given labels. */
  function PodLabels(labels: map<string, string>): map<string, string> {
    map l | l in labels.Keys + {LABEL_TYPE} && (l == LABEL_TYPE || l in LABELS_TO_POPULATE)
      :: if l == LABEL_TYPE then TYPE_POD else labels[l]
  }

  /** Container k has a value for metric m of pod p. */
  predicate Feeds(s: Snapshot, skipped: set<string>, k: ResourceKey, p: ResourceKey, m: string) {
    PodOf(s, k) == Some(p) && m in s[k].values && m !in skipped
  }

  function MetricTally(s: Snapshot, skipped: set<string>, order: seq<ResourceKey>, p: ResourceKey, m: string): Tally {
    if order == [] then Tally(BaseOf(s, p, m), false)
    else
      var t := MetricTally(s, skipped, order[..|order| - 1], p, m);
      var k := order[|order| - 1];
      if Feeds(s, skipped, k, p, m) then Step(t, s[k].values[m]) else t
  }

  ghost predicate IsPod(s: Snapshot, order: seq<ResourceKey>, p: ResourceKey) {
    exists k :: k in order && PodOf(s, k) == Some(p)
  }

  ghost predicate LabelsKept(s: Snapshot, order: seq<ResourceKey>, t: Snapshot, p: ResourceKey)
    requires p in t
  {
    if p in s then t[p].labels == s[p].labels && t[p].labeled == s[p].labeled
    else t[p].labeled == []
         && exists k :: k in order && PodOf(s, k) == Some(p) && t[p].labels == PodLabels(s[k].labels)
  }

  /** t is s after the sets in order have been visited, with the pods made on the way. */
  ghost predicate Account(s: Snapshot, skipped: set<string>, order: seq<ResourceKey>, t: Snapshot,
                          adding: set<(ResourceKey, string)>) {
    (forall k :: k in t <==> k in s || IsPod(s, order, k))
    && (forall k :: k in t ==> LabelsKept(s, order, t, k))
    && forall p, m :: Tally(BaseOf(t, p, m), (p, m) in adding) == MetricTally(s, skipped, order, p, m)
  }

  // ---- the totals -----------------------------------------------------------------------------

  /** The values of the containers of p for m. */
  function ContainerValues(s: Snapshot, skipped: set<string>, p: ResourceKey, m: string): map<ResourceKey, Value> {
    map k | k in s && Feeds(s, skipped, k, p, m) :: s[k].values[m]
  }

  /** The containers of p that have m, in the order of their visits. */
  function Feeding(s: Snapshot, skipped: set<string>, order: seq<ResourceKey>, p: ResourceKey, m: string)
    : (r: seq<ResourceKey>)
    ensures forall k :: k in r <==> k in order && Feeds(s, skipped, k, p, m)
  {
    if order == [] then []
    else
      var r := Feeding(s, skipped, order[..|order| - 1], p, m);
      var k := order[|order| - 1];
      if Feeds(s, skipped, k, p, m) then r + [k] else r
  }

  lemma {:induction false} FeedingDistinct(s: Snapshot, skipped: set<string>, order: seq<ResourceKey>, p: ResourceKey, m: string)
    requires Distinct(order)
    ensures Distinct(Feeding(s, skipped, order, p, m))
  {
    if order != [] {
      FeedingDistinct(s, skipped, order[..|order| - 1], p, m);
    }
  }

  lemma {:induction false} TallyIsRun(s: Snapshot, skipped: set<string>, order: seq<ResourceKey>, p: ResourceKey, m: string)
    requires forall k :: k in order ==> k in s
    ensures forall k :: k in Feeding(s, skipped, order, p, m) ==> k in ContainerValues(s, skipped, p, m)
    ensures MetricTally(s, skipped, order, p, m)
            == Run(ContainerValues(s, skipped, p, m), Feeding(s, skipped, order, p, m), Tally(BaseOf(s, p, m), false))
  {
    hide Step, PodOf;
    if order != [] {
      var rest, k := order[..|order| - 1], order[|order| - 1];
      TallyIsRun(s, skipped, rest, p, m);
      if Feeds(s, skipped, k, p, m) {
        var f := Feeding(s, skipped, rest, p, m);
        assert (f + [k])[..|f|] == f;
      }
    }
  }

  /**
   For each pod and metric where the containers' values agree in type: a value that was there and not
   zero is unchanged, and otherwise the value is the sum over the pod's containers, in whatever order
   they were visited.
   */
  lemma PodTotal(s: Snapshot, skipped: set<string>, order: seq<ResourceKey>, t: Snapshot,
                 adding: set<(ResourceKey, string)>, p: ResourceKey, m: string)
    requires Account(s, skipped, order, t, adding) && Distinct(order) && forall k :: k in order <==> k in s
    requires Agree(ContainerValues(s, skipped, p, m))
    ensures var c, base, now := ContainerValues(s, skipped, p, m), BaseOf(s, p, m), BaseOf(t, p, m);
            if c == map[] || !IsOpen(base) then now == base
            else now.Some? && Num(now.value) == SumMap(Nums(c))
  {
    hide ContainerValues, Feeding, MetricTally, Run, BaseOf, Agree, SumMap, Nums, Num, LabelsKept, IsPod, PodOf, Distinct;
    FeedingDistinct(s, skipped, order, p, m);
    TallyIsRun(s, skipped, order, p, m);
    FeedingCovers(s, skipped, order, p, m);
    TotalOfContainers(ContainerValues(s, skipped, p, m), Feeding(s, skipped, order, p, m), BaseOf(s, p, m));
    assert Tally(BaseOf(t, p, m), (p, m) in adding) == MetricTally(s, skipped, order, p, m);
  }

  lemma FeedingCovers(s: Snapshot, skipped: set<string>, order: seq<ResourceKey>, p: ResourceKey, m: string)
    requires forall k :: k in order <==> k in s
    ensures forall k :: k in ContainerValues(s, skipped, p, m) ==> k in Feeding(s, skipped, order, p, m)
  {
  }

  // ---- one visit ------------------------------------------------------------------------------

  lemma AccountNone(s: Snapshot, skipped: set<string>)
    ensures Account(s, skipped, [], s, {})
  {
  }

  lemma TallyPush(s: Snapshot, skipped: set<string>, order: seq<ResourceKey>, k: ResourceKey, p: ResourceKey, m: string)
    ensures MetricTally(s, skipped, order + [k], p, m)
            == if Feeds(s, skipped, k, p, m) then Step(MetricTally(s, skipped, order, p, m), s[k].values[m])
               else MetricTally(s, skipped, order, p, m)
  {
    assert (order + [k])[..|order|] == order;
  }

  lemma AccountSkip(s: Snapshot, skipped: set<string>, order: seq<ResourceKey>, t: Snapshot,
                    adding: set<(ResourceKey, string)>, k: ResourceKey)
    requires Account(s, skipped, order, t, adding) && PodOf(s, k).None?
    ensures Account(s, skipped, order + [k], t, adding)
  {
    hide MetricTally, PodOf, PodLabels;
    forall p, m
      ensures MetricTally(s, skipped, order + [k], p, m) == MetricTally(s, skipped, order, p, m)
    {
      TallyPush(s, skipped, order, k, p, m);
    }
    forall p
      ensures IsPod(s, order + [k], p) <==> IsPod(s, order, p)
    {
      PodPush(s, order, k, p);
    }
    forall p | p in t
      ensures LabelsKept(s, order + [k], t, p)
    {
      assert LabelsKept(s, order, t, p);
    }
  }

  lemma PodPush(s: Snapshot, order: seq<ResourceKey>, k: ResourceKey, p: ResourceKey)
    ensures IsPod(s, order + [k], p) <==> IsPod(s, order, p) || PodOf(s, k) == Some(p)
  {
    hide PodOf;
    if PodOf(s, k) == Some(p) {
      assert k in order + [k];
    }
    if j :| j in order && PodOf(s, j) == Some(p) {
      assert j in order + [k];
    }
  }

  /** The pod a container is added to: the one there, or a new one. */
  function PodSet(t: Snapshot, p: ResourceKey, labels: map<string, string>): SetView {
    if p in t then t[p] else SetView(map[], PodLabels(labels), [])
  }

  /** values is what the pod's values become when a container with the values src is added. */
  ghost predicate Fed(skipped: set<string>, src: map<string, Value>, p: ResourceKey,
                      was: map<string, Value>, adding: set<(ResourceKey, string)>,
                      values: map<string, Value>, now: set<(ResourceKey, string)>) {
    (forall m :: Tally(Get(values, m), (p, m) in now)
                 == if m in src && m !in skipped then Step(Tally(Get(was, m), (p, m) in adding), src[m])
                    else Tally(Get(was, m), (p, m) in adding))
    && forall q, m :: q != p ==> ((q, m) in now <==> (q, m) in adding)
  }

  lemma ContainerIsStable(s: Snapshot, skipped: set<string>, order: seq<ResourceKey>, t: Snapshot,
                          adding: set<(ResourceKey, string)>, k: ResourceKey)
    requires Account(s, skipped, order, t, adding) && PodsKeyed(s) && k in s
    ensures k in t && PodOf(t, k) == PodOf(s, k)
    ensures PodOf(s, k).Some? ==> t[k] == s[k] && PodOf(s, k) != Some(k)
  {
    hide MetricTally, PodLabels;
    assert LabelsKept(s, order, t, k);
    if PodOf(s, k).Some? {
      forall m
        ensures Get(t[k].values, m) == Get(s[k].values, m)
      {
        assert Tally(BaseOf(t, k, m), (k, m) in adding) == MetricTally(s, skipped, order, k, m);
        NotFed(s, skipped, order, k, m);
      }
      SameGets(t[k].values, s[k].values);
    }
  }

  lemma SameGets(a: map<string, Value>, b: map<string, Value>)
    requires forall m :: Get(a, m) == Get(b, m)
    ensures a == b
  {
    forall m
      ensures m in a <==> m in b
      ensures m in a ==> a[m] == b[m]
    {
      assert Get(a, m) == Get(b, m);
    }
  }

  lemma {:induction false} NotFed(s: Snapshot, skipped: set<string>, order: seq<ResourceKey>, k: ResourceKey, m: string)
    requires !k.PodKey?
    ensures MetricTally(s, skipped, order, k, m) == Tally(BaseOf(s, k, m), false)
  {
    if order != [] {
      NotFed(s, skipped, order[..|order| - 1], k, m);
    }
  }

  lemma TallyFed(s: Snapshot, skipped: set<string>, order: seq<ResourceKey>, t: Snapshot,
                 adding: set<(ResourceKey, string)>, k: ResourceKey, p: ResourceKey,
                 pod: SetView, values: map<string, Value>, now: set<(ResourceKey, string)>, q: ResourceKey, m: string)
    requires PodOf(s, k) == Some(p) && pod.values == (if p in t then t[p].values else map[])
    requires Tally(BaseOf(t, q, m), (q, m) in adding) == MetricTally(s, skipped, order, q, m)
    requires Fed(skipped, s[k].values, p, pod.values, adding, values, now)
    ensures Tally(BaseOf(t[p := pod.(values := values)], q, m), (q, m) in now) == MetricTally(s, skipped, order + [k], q, m)
  {
    hide MetricTally, Step, PodOf;
    TallyPush(s, skipped, order, k, q, m);
  }

  lemma LabelsFed(s: Snapshot, order: seq<ResourceKey>, t: Snapshot, k: ResourceKey, p: ResourceKey,
                  values: map<string, Value>, q: ResourceKey)
    requires PodOf(s, k) == Some(p) && k in t && t[k] == s[k] && (q in t ==> LabelsKept(s, order, t, q))
    requires q in t || q == p
    requires p !in t ==> p !in s
    ensures LabelsKept(s, order + [k], t[p := PodSet(t, p, t[k].labels).(values := values)], q)
  {
    hide PodOf, PodLabels;
    assert k in order + [k];
    assert forall j :: j in order ==> j in order + [k];
  }

  lemma AccountFeed(s: Snapshot, skipped: set<string>, order: seq<ResourceKey>, t: Snapshot,
                    adding: set<(ResourceKey, string)>, k: ResourceKey, p: ResourceKey,
                    values: map<string, Value>, now: set<(ResourceKey, string)>)
    requires Account(s, skipped, order, t, adding) && PodOf(s, k) == Some(p) && k in t && t[k] == s[k]
    requires var pod := PodSet(t, p, t[k].labels);
             Fed(skipped, s[k].values, p, pod.values, adding, values, now)
    ensures var pod := PodSet(t, p, t[k].labels);
            Account(s, skipped, order + [k], t[p := pod.(values := values)], now)
  {
    hide MetricTally, PodLabels, PodOf, Fed, LabelsKept, BaseOf, IsPod;
    var pod := PodSet(t, p, t[k].labels);
    var u := t[p := pod.(values := values)];
    forall q, m
      ensures Tally(BaseOf(u, q, m), (q, m) in now) == MetricTally(s, skipped, order + [k], q, m)
    {
      assert Tally(BaseOf(t, q, m), (q, m) in adding) == MetricTally(s, skipped, order, q, m);
      TallyFed(s, skipped, order, t, adding, k, p, pod, values, now, q, m);
    }
    forall q
      ensures IsPod(s, order + [k], q) <==> IsPod(s, order, q) || q == p
    {
      PodPush(s, order, k, q);
    }
    forall q | q in u
      ensures LabelsKept(s, order + [k], u, q)
    {
      LabelsFed(s, order, t, k, p, values, q);
    }
  }

  // ---- the processor --------------------------------------------------------------------------

  /** What an aggregator skips: the metrics it is told to, and the standard metrics that are cumulative or deltas. */
  function SkipList(additional: seq<string>): set<string> {
    Elements(additional) + Accumulating(STANDARD_METRICS)
  }

  lemma SkipListIs(additional: seq<string>, m: string)
    ensures m in SkipList(additional) <==> m in additional || m in GROWING
  {
    AccumulatingAre();
    hide STANDARD_METRICS, Accumulating, GROWING;
  }

  class PodAggregator {
    const skippedMetrics: set<string>

    constructor (additionalMetricsToSkip: seq<string>)
      ensures skippedMetrics == SkipList(additionalMetricsToSkip)
    {
      hide STANDARD_METRICS;
      var skipped: set<string> := {};
      for i := 0 to |additionalMetricsToSkip|
        invariant skipped == Elements(additionalMetricsToSkip[..i])
      {
        skipped := skipped + {additionalMetricsToSkip[i]};
      }
      assert additionalMetricsToSkip[..|additionalMetricsToSkip|] == additionalMetricsToSkip;
      for i := 0 to |STANDARD_METRICS|
        invariant skipped == Elements(additionalMetricsToSkip) + Accumulating(STANDARD_METRICS[..i])
      {
        var metric := STANDARD_METRICS[i];
        assert STANDARD_METRICS[..i + 1] == STANDARD_METRICS[..i] + [metric];
        AccumulatingPush(STANDARD_METRICS[..i], metric);
        if metric.metricType == Cumulative || metric.metricType == Delta {
          skipped := skipped + {metric.name};
        }
      }
      assert STANDARD_METRICS[..|STANDARD_METRICS|] == STANDARD_METRICS;
      skippedMetrics := skipped;
    }

    /** The loop over the metrics of one container, in any order. The source's error is never returned. */
    method AddValues(src: MetricSet, pod: MetricSet, podKey: ResourceKey, adding: set<(ResourceKey, string)>)
      returns (now: set<(ResourceKey, string)>)
      requires src != pod
      modifies pod`values
      ensures Fed(skippedMetrics, src.values, podKey, old(pod.values), adding, pod.values, now)
    {
      now := adding;
      var todo := src.values.Keys;
      ghost var seen: set<string> := {};
      FedNone(skippedMetrics, src.values, podKey, pod.values, adding);
      while todo != {}
        invariant seen + todo == src.values.Keys && seen !! todo
        invariant Fed(skippedMetrics, Only(src.values, seen), podKey, old(pod.values), adding, pod.values, now)
        decreases |todo|
      {
        hide Fed, Step, Only;
        var metricName :| metricName in todo;
        ghost var was, wasAdding := pod.values, now;
        now := AddValue(src.values[metricName], metricName, pod, podKey, now);
        FedStep(skippedMetrics, src.values, seen, podKey, old(pod.values), adding, was, wasAdding, pod.values, now,
                metricName);
        todo := todo - {metricName};
        seen := seen + {metricName};
      }
      assert Only(src.values, seen) == src.values;
    }

    method AddValue(metricValue: Value, metricName: string, pod: MetricSet, podKey: ResourceKey,
                    adding: set<(ResourceKey, string)>)
      returns (now: set<(ResourceKey, string)>)
      modifies pod`values
      ensures OneFed(skippedMetrics, metricValue, metricName, podKey, old(pod.values), adding, pod.values, now)
    {
      now := adding;
      if metricName in skippedMetrics {
        return;
      }
      var aggregatedValue: Value;
      if metricName !in pod.values || pod.values[metricName].IsZero() {
        now := now + {(podKey, metricName)};
        aggregatedValue := metricValue;
      } else {
        aggregatedValue := pod.values[metricName];
        if (podKey, metricName) in now {
          if aggregatedValue.valueType != metricValue.valueType {
            return;
          }
          match aggregatedValue.valueType {
            case ValueInt64 =>
              aggregatedValue := aggregatedValue.(intValue := aggregatedValue.intValue + metricValue.intValue);
            case ValueFloat =>
              aggregatedValue := aggregatedValue.(floatValue := aggregatedValue.floatValue + metricValue.floatValue);
            case OtherType(_) =>
              assert false;
          }
        }
      }
      pod.values := pod.values[metricName := aggregatedValue];
    }

    /** The body of the loop over the batch; all is the batch together with the pods made so far. */
    method VisitSet(batch: Batch, k: ResourceKey, newPods: map<ResourceKey, MetricSet>,
                    adding: set<(ResourceKey, string)>, ghost all: map<ResourceKey, MetricSet>,
                    ghost s: Snapshot, ghost order: seq<ResourceKey>)
      returns (pods: map<ResourceKey, MetricSet>, now: set<(ResourceKey, string)>,
               ghost after: map<ResourceKey, MetricSet>, ghost made: set<MetricSet>)
      requires Together(batch.sets, newPods, all) && Separate(all) && PodsKeyed(s)
      requires Account(s, skippedMetrics, order, ViewsOf(all), adding) && k in s && k in batch.sets
      modifies all.Values`values
      ensures Together(batch.sets, pods, after) && Separate(after)
      ensures fresh(made) && Within(after, all, made)
      ensures Account(s, skippedMetrics, order + [k], ViewsOf(after), now)
    {
      hide *;
      pods, now, after, made := newPods, adding, all, {};
      ghost var t := ViewsOf(all);
      TogetherAt(batch.sets, newPods, all);
      ContainerIsStable(s, skippedMetrics, order, t, adding, k);
      WithinSelf(all);
      ViewsEntries(all);
      var metricSet := batch.sets[k];
      ViewParts(metricSet);
      PodOfView(t, k, ViewOf(metricSet));
      if Lookup(metricSet.labels, LABEL_TYPE, "") != TYPE_POD_CONTAINER {
        AccountSkip(s, skippedMetrics, order, t, adding, k);
        return;
      }
      if LABEL_POD_NAME !in metricSet.labels || LABEL_NAMESPACE_NAME !in metricSet.labels {
        AccountSkip(s, skippedMetrics, order, t, adding, k);
        return;
      }
      var podKey := PodKey(metricSet.labels[LABEL_NAMESPACE_NAME], metricSet.labels[LABEL_POD_NAME]);
      var pod: MetricSet;
      if podKey in batch.sets {
        pod := batch.sets[podKey];
      } else if podKey in newPods {
        pod := newPods[podKey];
      } else {
        pod := new MetricSet(PodLabels(metricSet.labels));
        pods := newPods[podKey := pod];
        after := all[podKey := pod];
        made := {pod};
        TogetherPut(batch.sets, newPods, all, podKey, pod);
      }
      PutGroup(all, podKey, pod);
      ApartFrom(all, k, podKey, pod);
      AlreadyThere(all, podKey, pod);
      ghost var was := ViewOf(pod);
      ViewParts(pod);
      PodSetIs(t, podKey, metricSet.labels, was);
      now := AddValues(metricSet, pod, podKey, adding);
      ViewParts(pod);
      AccountFeed(s, skippedMetrics, order, t, adding, k, podKey, pod.values, now);
      ViewsChanged(t, all, podKey, pod);
    }

    /** Adds the pods made on the way to the batch. */
    method AddPods(batch: Batch, newPods: map<ResourceKey, MetricSet>, ghost all: map<ResourceKey, MetricSet>)
      requires Together(batch.sets, newPods, all)
      modifies batch`sets
      ensures batch.sets == all && Extends(old(batch.sets), all)
    {
      hide *;
      ghost var was := batch.sets;
      var add := newPods.Keys;
      AddStart(was, newPods, all);
      while add != {}
        invariant Adding(was, newPods, add, batch.sets)
        decreases |add|
      {
        var k :| k in add;
        AddStep(was, newPods, add, batch.sets, k);
        batch.sets := batch.sets[k := newPods[k]];
        add := add - {k};
      }
      AddDone(was, newPods, all, batch.sets);
    }

    /** The order of the visits is arbitrary, and pods made on the way join the batch at the end. */
    method Process(batch: Batch) returns (ghost order: seq<ResourceKey>, ghost adding: set<(ResourceKey, string)>,
                                          ghost made: set<MetricSet>)
      requires Separate(batch.sets) && PodsKeyed(SnapshotOf(batch))
      modifies batch`sets, batch.sets.Values`values
      ensures Separate(batch.sets) && Extends(old(batch.sets), batch.sets)
      ensures fresh(made) && Within(batch.sets, old(batch.sets), made)
      ensures Distinct(order) && forall k :: k in order <==> k in old(batch.sets)
      ensures Account(old(SnapshotOf(batch)), skippedMetrics, order, SnapshotOf(batch), adding)
    {
      hide *;
      ghost var all;
      var newPods, requireAggregate;
      newPods, requireAggregate, all, order, made := VisitAll(batch);
      AddPods(batch, newPods, all);
      SnapshotIsViews(batch);
      adding := requireAggregate;
    }

    /** The loop over the batch; all is the batch together with the pods made. */
    method VisitAll(batch: Batch)
      returns (newPods: map<ResourceKey, MetricSet>, requireAggregate: set<(ResourceKey, string)>,
               ghost all: map<ResourceKey, MetricSet>, ghost order: seq<ResourceKey>, ghost made: set<MetricSet>)
      requires Separate(batch.sets) && PodsKeyed(SnapshotOf(batch))
      modifies batch.sets.Values`values
      ensures Together(batch.sets, newPods, all) && Separate(all)
      ensures fresh(made) && Within(all, batch.sets, made)
      ensures Distinct(order) && forall k :: k in order <==> k in batch.sets
      ensures Account(old(SnapshotOf(batch)), skippedMetrics, order, ViewsOf(all), requireAggregate)
    {
      hide *;
      ghost var was, s := batch.sets, SnapshotOf(batch);
      newPods, requireAggregate := map[], {};
      var todo := batch.sets.Keys;
      all, order, made := was, [], {};
      SnapshotIsViews(batch);
      AccountNone(s, skippedMetrics);
      TogetherNone(was);
      WithinSelf(was);
      VisitedNone(todo);
      while todo != {}
        invariant Together(was, newPods, all) && Separate(all)
        invariant fresh(made) && Within(all, was, made)
        invariant Visited(order, todo, was.Keys)
        invariant Account(s, skippedMetrics, order, ViewsOf(all), requireAggregate)
        decreases |todo|
      {
        var k :| k in todo;
        VisitedPush(order, todo, was.Keys, k);
        WithinAt(all, was, made);
        ghost var before, created := all, {};
        newPods, requireAggregate, all, created := VisitSet(batch, k, newPods, requireAggregate, all, s, order);
        WithinStep(was, before, all, made, created);
        assert fresh(created);
        FreshUnion(made, created);
        made := made + created;
        order := order + [k];
        todo := todo - {k};
      }
      VisitedAll(order, was.Keys);
    }
  }

  // ---- lemmas for the loops -------------------------------------------------------------------

  function Only(m: map<string, Value>, keys: set<string>): map<string, Value> {
    map k | k in m && k in keys :: m[k]
  }

  ghost predicate OneFed(skipped: set<string>, v: Value, m: string, p: ResourceKey,
                         was: map<string, Value>, adding: set<(ResourceKey, string)>,
                         values: map<string, Value>, now: set<(ResourceKey, string)>) {
    Tally(Get(values, m), (p, m) in now)
    == (if m in skipped then Tally(Get(was, m), (p, m) in adding) else Step(Tally(Get(was, m), (p, m) in adding), v))
    && (forall x :: x != m ==> Get(values, x) == Get(was, x) && ((p, x) in now <==> (p, x) in adding))
    && forall q, x :: q != p ==> ((q, x) in now <==> (q, x) in adding)
  }

  lemma FedNone(skipped: set<string>, src: map<string, Value>, p: ResourceKey, was: map<string, Value>,
                adding: set<(ResourceKey, string)>)
    ensures Fed(skipped, Only(src, {}), p, was, adding, was, adding)
  {
  }

  lemma FedStep(skipped: set<string>, src: map<string, Value>, seen: set<string>, p: ResourceKey,
                was: map<string, Value>, adding: set<(ResourceKey, string)>,
                mid: map<string, Value>, midAdding: set<(ResourceKey, string)>,
                values: map<string, Value>, now: set<(ResourceKey, string)>, m: string)
    requires Fed(skipped, Only(src, seen), p, was, adding, mid, midAdding) && m in src && m !in seen
    requires OneFed(skipped, src[m], m, p, mid, midAdding, values, now)
    ensures Fed(skipped, Only(src, seen + {m}), p, was, adding, values, now)
  {
    hide Step;
    forall x
      ensures Tally(Get(values, x), (p, x) in now)
              == if x in Only(src, seen + {m}) && x !in skipped
                 then Step(Tally(Get(was, x), (p, x) in adding), Only(src, seen + {m})[x])
                 else Tally(Get(was, x), (p, x) in adding)
    {
      assert Tally(Get(mid, x), (p, x) in midAdding)
             == if x in Only(src, seen) && x !in skipped then Step(Tally(Get(was, x), (p, x) in adding), Only(src, seen)[x])
                else Tally(Get(was, x), (p, x) in adding);
    }
  }

  /** all is the batch's sets and the new pods, which are at other keys. */
  ghost predicate Together(sets: map<ResourceKey, MetricSet>, pods: map<ResourceKey, MetricSet>,
                           all: map<ResourceKey, MetricSet>) {
    sets.Keys !! pods.Keys && all.Keys == sets.Keys + pods.Keys
    && forall k :: k in all ==> all[k] == if k in sets then sets[k] else pods[k]
  }

  lemma TogetherNone(sets: map<ResourceKey, MetricSet>)
    ensures Together(sets, map[], sets)
  {
  }

  lemma TogetherAt(sets: map<ResourceKey, MetricSet>, pods: map<ResourceKey, MetricSet>,
                   all: map<ResourceKey, MetricSet>)
    requires Together(sets, pods, all)
    ensures forall k :: k in all <==> k in sets || k in pods
    ensures forall k :: k in sets ==> all[k] == sets[k]
    ensures forall k :: k in pods ==> all[k] == pods[k]
  {
  }

  lemma TogetherPut(sets: map<ResourceKey, MetricSet>, pods: map<ResourceKey, MetricSet>,
                    all: map<ResourceKey, MetricSet>, p: ResourceKey, pod: MetricSet)
    requires Together(sets, pods, all) && p !in sets && p !in pods
    ensures Together(sets, pods[p := pod], all[p := pod])
  {
  }

  lemma AlreadyThere(all: map<ResourceKey, MetricSet>, p: ResourceKey, pod: MetricSet)
    ensures p in all && all[p] == pod ==> all[p := pod] == all
  {
  }

  lemma PodOfView(t: Snapshot, k: ResourceKey, v: SetView)
    requires k in t && t[k] == v
    ensures PodOf(t, k) == if Lookup(v.labels, LABEL_TYPE, "") == TYPE_POD_CONTAINER && LABEL_POD_NAME in v.labels
                              && LABEL_NAMESPACE_NAME in v.labels
                           then Some(PodKey(v.labels[LABEL_NAMESPACE_NAME], v.labels[LABEL_POD_NAME])) else None
  {
  }

  lemma PodSetIs(t: Snapshot, p: ResourceKey, labels: map<string, string>, v: SetView)
    requires if p in t then t[p] == v else v == SetView(map[], PodLabels(labels), [])
    ensures PodSet(t, p, labels) == v
  {
  }

  /** order has visited what is no longer to do. */
  ghost predicate Visited(order: seq<ResourceKey>, todo: set<ResourceKey>, keys: set<ResourceKey>) {
    Distinct(order) && (forall k :: k in order ==> k in keys && k !in todo)
    && todo <= keys && forall k :: k in keys && k !in todo ==> k in order
  }

  lemma VisitedNone(keys: set<ResourceKey>)
    ensures Visited([], keys, keys)
  {
  }

  lemma VisitedPush(order: seq<ResourceKey>, todo: set<ResourceKey>, keys: set<ResourceKey>, k: ResourceKey)
    requires Visited(order, todo, keys) && k in todo
    ensures Visited(order + [k], todo - {k}, keys) && k in keys
  {
  }

  lemma VisitedAll(order: seq<ResourceKey>, keys: set<ResourceKey>)
    requires Visited(order, {}, keys)
    ensures Distinct(order) && forall k :: k in order <==> k in keys
  {
  }

  /** sets is was with all of pods but those still to add. */
  ghost predicate Adding(was: map<ResourceKey, MetricSet>, pods: map<ResourceKey, MetricSet>,
                         add: set<ResourceKey>, sets: map<ResourceKey, MetricSet>) {
    add <= pods.Keys && Together(was, map k | k in pods && k !in add :: pods[k], sets)
  }

  lemma AddStart(was: map<ResourceKey, MetricSet>, pods: map<ResourceKey, MetricSet>, all: map<ResourceKey, MetricSet>)
    requires Together(was, pods, all)
    ensures Adding(was, pods, pods.Keys, was)
    ensures was.Keys !! pods.Keys
  {
  }

  lemma AddStep(was: map<ResourceKey, MetricSet>, pods: map<ResourceKey, MetricSet>, add: set<ResourceKey>,
                sets: map<ResourceKey, MetricSet>, k: ResourceKey)
    requires Adding(was, pods, add, sets) && k in add && was.Keys !! pods.Keys
    ensures k in pods && Adding(was, pods, add - {k}, sets[k := pods[k]])
  {
  }

  lemma AddDone(was: map<ResourceKey, MetricSet>, pods: map<ResourceKey, MetricSet>, all: map<ResourceKey, MetricSet>,
                sets: map<ResourceKey, MetricSet>)
    requires Adding(was, pods, {}, sets) && Together(was, pods, all)
    ensures sets == all && Extends(was, sets)
  {
    assert (map k | k in pods && k !in {} :: pods[k]) == pods;
  }
}
