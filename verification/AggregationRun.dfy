/**
 The namespace, node and cluster aggregators one after the other, as the collector sets them up
 (collector/internal/setup/data_processors.go, plugins/manager/manager.go).
 */
module AggregationRun {
  import opened Aggregation
  import opened AggregationLevels
  import opened AggregationPass
  import opened BatchSets
  import opened Metrics
  import opened Sums
  import opened Wrappers

  /** The namespaces that have a member of the part. */
  function NamesOf(part: Part, s: Snapshot): set<string> {
    set k | k in s && InNamespace(part, s, k) :: NamespaceOf(s, k)
  }

  /** Pods where containers are counted and the other way round. */
  function Other(part: Part): Part {
    if part == AggregatablePods then AggregatablePodContainers else AggregatablePods
  }

  /** The namespaces that get a set, but for the other count. */
  function CountlessNames(part: Part, s: Snapshot): set<string> {
    NamesOf(Other(part), s) - NamesOf(part, s)
  }

  lemma NameHasMember(part: Part, s: Snapshot, n: string, count: string)
    ensures n in NamesOf(part, s) <==> NamespaceCounts(part, s, n, count) != map[]
  {
    hide InNamespace, NamespaceOf, CountOf;
    var c := NamespaceCounts(part, s, n, count);
    if n in NamesOf(part, s) {
      var k :| k in s && InNamespace(part, s, k) && NamespaceOf(s, k) == n;
      assert k in c;
    }
    if c != map[] {
      var k :| k in c;
      assert NamespaceOf(s, k) == n;
    }
  }

  /** A namespace pass makes sets for the namespaces of its members. */
  lemma NamesAfterPass(spec: Spec, s: Snapshot, t: Snapshot, n: string)
    requires spec.grouping == ByNamespace && Pass(spec, s, t)
    ensures NamespaceKey(n) in t <==> NamespaceKey(n) in s || n in NamesOf(spec.part, s)
  {
    var g := NamespaceKey(n);
    hide GroupGains, IsPartOfGroup;
    if IsGroup(spec, s, s.Keys, g) {
      var k :| k in MembersOf(spec, s, s.Keys, g);
      assert InNamespace(spec.part, s, k) && NamespaceOf(s, k) == n;
    }
    if n in NamesOf(spec.part, s) {
      var k :| k in s && InNamespace(spec.part, s, k) && NamespaceOf(s, k) == n;
      assert k in MembersOf(spec, s, s.Keys, g);
    }
  }

  /** After both passes there is a set for exactly the namespaces with a pod or a container. */
  lemma NamesAfterBoth(metrics: seq<string>, s0: Snapshot, s1: Snapshot, s2: Snapshot, n: string)
    requires NoGroups(s0)
    requires Pass(NamespaceSpecs(metrics)[0], s0, s1) && Pass(NamespaceSpecs(metrics)[1], s1, s2)
    ensures NamespaceKey(n) in s2
            <==> n in NamesOf(AggregatablePods, s0) || n in NamesOf(AggregatablePodContainers, s0)
  {
    hide Pass, NamesOf, NamespaceCounts;
    NamesAfterPass(NamespaceSpecs(metrics)[0], s0, s1, n);
    NamesAfterPass(NamespaceSpecs(metrics)[1], s1, s2, n);
    NameHasMember(AggregatablePodContainers, s1, n, METRIC_POD_CONTAINER_COUNT);
    NameHasMember(AggregatablePodContainers, s0, n, METRIC_POD_CONTAINER_COUNT);
    SecondCounts(metrics, s0, s1, s2, n);
  }

  lemma {:induction false} SizeOfKeys(names: set<string>)
    ensures |set n | n in names :: NamespaceKey(n)| == |names|
    decreases |names|
  {
    if names != {} {
      var n :| n in names;
      SizeOfKeys(names - {n});
      assert (set m | m in names :: NamespaceKey(m)) == (set m | m in names - {n} :: NamespaceKey(m)) + {NamespaceKey(n)};
    }
  }

  /** The namespace sets without the count are those of the namespaces that have only the other part. */
  lemma UncountedAre(metrics: seq<string>, s0: Snapshot, s1: Snapshot, s2: Snapshot, i: nat)
    requires NoGroups(s0) && Listed(metrics) && i < 2
    requires Pass(NamespaceSpecs(metrics)[0], s0, s1) && Pass(NamespaceSpecs(metrics)[1], s1, s2)
    ensures var spec := NamespaceSpecs(metrics)[i];
            |Uncounted(s2, spec.count)| == |CountlessNames(spec.part, s0)|
            && (NamespaceSets(s2) == {} <==> NamesOf(AggregatablePods, s0) + NamesOf(AggregatablePodContainers, s0) == {})
  {
    var spec := NamespaceSpecs(metrics)[i];
    var names := CountlessNames(spec.part, s0);
    assert spec.part == AggregatablePods || spec.part == AggregatablePodContainers;
    hide NamesOf, Pass, NoGroups, Listed, CountsHold, NamespaceCounts, SetCounts, MemberSums, SumMap;
    NamespacesCounted(metrics, s0, s1, s2, i);
    forall k
      ensures k in Uncounted(s2, spec.count) <==> k.NamespaceKey? && k.namespace in names
      ensures k in NamespaceSets(s2)
              <==> k.NamespaceKey? && k.namespace in NamesOf(AggregatablePods, s0) + NamesOf(AggregatablePodContainers, s0)
    {
      if k.NamespaceKey? {
        NamesAfterBoth(metrics, s0, s1, s2, k.namespace);
        if k in s2 {
          SetsHaveSums(spec.part, s0, s2, spec.count);
          SetCountIsSum(spec.part, s0, s2, spec.count, k);
          NameHasMember(spec.part, s0, k.namespace, spec.count);
        }
      }
    }
    KeysOfNames(s2, spec.count, names, NamesOf(AggregatablePods, s0) + NamesOf(AggregatablePodContainers, s0));
  }

  lemma KeysOfNames(s: Snapshot, count: string, names: set<string>, all: set<string>)
    requires forall k :: k in Uncounted(s, count) <==> k.NamespaceKey? && k.namespace in names
    requires forall k :: k in NamespaceSets(s) <==> k.NamespaceKey? && k.namespace in all
    ensures |Uncounted(s, count)| == |names| && (NamespaceSets(s) == {} <==> all == {})
  {
    hide Uncounted, NamespaceSets;
    SizeOfKeys(names);
    assert Uncounted(s, count) == set n | n in names :: NamespaceKey(n);
    if n :| n in all {
      assert NamespaceKey(n) in NamespaceSets(s);
    }
  }

  /**
   In terms of the batch at the start: the cluster counts every namespaced pod, or container, and one more
   for each namespace that has only the other. It is exact if and only if there is no such namespace.
   */
  lemma ClusterCountOfInput(metrics: seq<string>, s0: Snapshot, s1: Snapshot, s2: Snapshot, t: Snapshot,
                            s3: Snapshot, s4: Snapshot, i: nat)
    requires Levels(metrics, s0, s1, s2, t, s3, s4) && i < 2
    ensures var spec := NamespaceSpecs(metrics)[i];
            CountedInCluster(spec.part, spec.count, s0, BaseOf(s4, ClusterKey, spec.count))
  {
    var spec := NamespaceSpecs(metrics)[i];
    assert spec.part == AggregatablePods || spec.part == AggregatablePodContainers;
    hide NamesOf, NamespaceSets, Uncounted, SumMap, Reals, AllCounts, Pass, NoGroups, BaseOf, Listed, NodesOnly,
      CountlessNames, CountedInCluster;
    ClusterCount(metrics, s0, s1, s2, t, s3, s4, i);
    UncountedAre(metrics, s0, s1, s2, i);
    CountedByInput(spec.part, spec.count, s0, s2, BaseOf(s4, ClusterKey, spec.count));
  }

  lemma CountedByInput(part: Part, count: string, s0: Snapshot, s2: Snapshot, now: Option<Value>)
    requires part == AggregatablePods || part == AggregatablePodContainers
    requires var exact := SumMap(Reals(AllCounts(part, s0, count)));
             if NamespaceSets(s2) == {} then now == None
             else now.Some? && now.value.intValue as real == exact + |Uncounted(s2, count)| as real
    requires |Uncounted(s2, count)| == |CountlessNames(part, s0)|
    requires NamespaceSets(s2) == {} <==> NamesOf(AggregatablePods, s0) + NamesOf(AggregatablePodContainers, s0) == {}
    ensures CountedInCluster(part, count, s0, now)
  {
    hide NamesOf, NamespaceSets, Uncounted, SumMap, Reals, AllCounts;
    var mine, others := NamesOf(part, s0), NamesOf(Other(part), s0);
    assert mine + others == NamesOf(AggregatablePods, s0) + NamesOf(AggregatablePodContainers, s0);
    if others <= mine {
      assert others - mine == {};
    } else {
      var n :| n in others && n !in mine;
      assert n in others - mine;
    }
  }

  ghost predicate CountedInCluster(part: Part, count: string, s0: Snapshot, now: Option<Value>) {
    var exact := SumMap(Reals(AllCounts(part, s0, count)));
    if NamesOf(part, s0) + NamesOf(Other(part), s0) == {} then now == None
    else now.Some?
         && now.value.intValue as real == exact + |CountlessNames(part, s0)| as real
         && (now.value.intValue as real == exact <==> NamesOf(Other(part), s0) <= NamesOf(part, s0))
  }

  /** One pod, and no container. */
  function LonePod(): Snapshot {
    map[PodKey("a", "p") := SetView(map[], map[LABEL_TYPE := TYPE_POD, LABEL_NAMESPACE_NAME := "a"], [])]
  }

  /** For a lone pod without container sets, the cluster reports one container. */
  lemma LonePodCountsContainer(now: Option<Value>)
    requires CountedInCluster(AggregatablePodContainers, METRIC_POD_CONTAINER_COUNT, LonePod(), now)
    ensures AllCounts(AggregatablePodContainers, LonePod(), METRIC_POD_CONTAINER_COUNT) == map[]
    ensures now.Some? && now.value.intValue == 1
  {
    LonePodNames();
    hide SumMap, NamesOf, AllCounts, LonePod;
    SumOfNone(Reals(AllCounts(AggregatablePodContainers, LonePod(), METRIC_POD_CONTAINER_COUNT)));
  }

  lemma LonePodNames()
    ensures NamesOf(AggregatablePods, LonePod()) == {"a"} && NamesOf(AggregatablePodContainers, LonePod()) == {}
    ensures AllCounts(AggregatablePodContainers, LonePod(), METRIC_POD_CONTAINER_COUNT) == map[]
  {
    var s, k := LonePod(), PodKey("a", "p");
    assert TYPE_POD != TYPE_POD_CONTAINER && LABEL_TYPE != LABEL_NAMESPACE_NAME;
    assert FindLabels(s[k], METRIC_POD_PHASE) == map[];
    assert InNamespace(AggregatablePods, s, k) && !InNamespace(AggregatablePodContainers, s, k);
    assert NamespaceOf(s, k) == "a";
    hide InNamespace, NamespaceOf, CountOf;
  }

  /** Two stages of an aggregator with two specs. */
  lemma TwoPasses(specs: seq<Spec>, stages: seq<Snapshot>)
    requires |specs| == 2 && |stages| == 3 && Stages(specs, stages)
    ensures Pass(specs[0], stages[0], stages[1]) && Pass(specs[1], stages[1], stages[2])
  {
    hide Gains;
  }

  lemma TwoNodePasses(metrics: seq<string>, stages: seq<Snapshot>)
    requires |stages| == 3 && Stages(NodeSpecs(metrics), stages)
    ensures NodesOnly(stages[0], stages[2])
  {
    hide Pass;
    TwoPasses(NodeSpecs(metrics), stages);
    NodePassOnly(NodeSpecs(metrics)[0], stages[0], stages[1]);
    NodePassOnly(NodeSpecs(metrics)[1], stages[1], stages[2]);
  }

  /** What a flush finds in the cluster set when all three aggregators have succeeded. */
  ghost predicate ClusterHolds(metrics: seq<string>, s0: Snapshot, s4: Snapshot) {
    (forall m :: m in metrics ==> IsTotal(None, AllValues(s0, m), BaseOf(s4, ClusterKey, m)))
    && CountedInCluster(AggregatablePods, METRIC_POD_COUNT, s0, BaseOf(s4, ClusterKey, METRIC_POD_COUNT))
    && CountedInCluster(AggregatablePodContainers, METRIC_POD_CONTAINER_COUNT, s0,
                        BaseOf(s4, ClusterKey, METRIC_POD_CONTAINER_COUNT))
  }

  lemma StagesHold(metrics: seq<string>, nodeMetrics: seq<string>, a: seq<Snapshot>, b: seq<Snapshot>, c: seq<Snapshot>)
    requires |a| == 3 && |b| == 3 && |c| == 3 && a[2] == b[0] && b[2] == c[0]
    requires Stages(NamespaceSpecs(metrics), a) && Stages(NodeSpecs(nodeMetrics), b) && Stages(ClusterSpecs(metrics), c)
    requires NoGroups(a[0]) && Listed(metrics)
    ensures ClusterHolds(metrics, a[0], c[2])
  {
    hide Stages, IsTotal, AllValues, BaseOf, CountedInCluster, NoGroups, Listed, Pass, NodesOnly;
    TwoPasses(NamespaceSpecs(metrics), a);
    TwoNodePasses(nodeMetrics, b);
    TwoPasses(ClusterSpecs(metrics), c);
    assert Levels(metrics, a[0], a[1], a[2], c[0], c[1], c[2]);
    hide Levels;
    forall m | m in metrics
      ensures IsTotal(None, AllValues(a[0], m), BaseOf(c[2], ClusterKey, m))
    {
      ClusterTotal(metrics, a[0], a[1], a[2], c[0], c[1], c[2], m);
    }
    ClusterCountOfInput(metrics, a[0], a[1], a[2], c[0], c[1], c[2], 0);
    ClusterCountOfInput(metrics, a[0], a[1], a[2], c[0], c[1], c[2], 1);
  }

  /** The three aggregators of a flush in their order; the first error ends it. */
  method Aggregate(namespaces: SumCountAggregator, nodes: SumCountAggregator, cluster: SumCountAggregator,
                   batch: Batch, ghost metrics: seq<string>, ghost nodeMetrics: seq<string>)
    returns (ok: bool, ghost made: set<MetricSet>)
    requires namespaces.specs == NamespaceSpecs(metrics) && nodes.specs == NodeSpecs(nodeMetrics)
    requires cluster.specs == ClusterSpecs(metrics) && Listed(metrics) && Listed(nodeMetrics)
    requires Separate(batch.sets) && WellKeyed(SnapshotOf(batch)) && NoGroups(SnapshotOf(batch))
    modifies batch`sets, batch.sets.Values
    ensures fresh(made) && Within(batch.sets, old(batch.sets), made)
    ensures ok ==> ClusterHolds(metrics, old(SnapshotOf(batch)), SnapshotOf(batch))
  {
    AllWellFormed(metrics, nodeMetrics);
    hide *;
    ghost var was, before := batch.sets, batch.sets;
    ghost var a, b, c, created;
    ok, a, made := namespaces.Process(batch);
    if !ok {
      return;
    }
    WithinAt(batch.sets, was, made);
    before := batch.sets;
    ok, b, created := nodes.Process(batch);
    WithinStep(was, before, batch.sets, made, created);
    assert fresh(created);
    FreshUnion(made, created);
    made := made + created;
    if !ok {
      return;
    }
    WithinAt(batch.sets, was, made);
    before := batch.sets;
    ok, c, created := cluster.Process(batch);
    WithinStep(was, before, batch.sets, made, created);
    assert fresh(created);
    FreshUnion(made, created);
    made := made + created;
    if ok {
      SpecSizes(metrics, nodeMetrics);
      StagesHold(metrics, nodeMetrics, a, b, c);
    }
  }

  lemma SpecSizes(metrics: seq<string>, nodeMetrics: seq<string>)
    ensures |NamespaceSpecs(metrics)| == |NodeSpecs(nodeMetrics)| == |ClusterSpecs(metrics)| == 2
  {
  }

  lemma AllWellFormed(metrics: seq<string>, nodeMetrics: seq<string>)
    requires Listed(metrics) && Listed(nodeMetrics)
    ensures forall spec :: spec in NamespaceSpecs(metrics) ==> spec.WellFormed()
    ensures forall spec :: spec in NodeSpecs(nodeMetrics) ==> spec.WellFormed()
    ensures forall spec :: spec in ClusterSpecs(metrics) ==> spec.WellFormed()
  {
    SpecsWellFormed(metrics);
    SpecsWellFormed(nodeMetrics);
  }
}
