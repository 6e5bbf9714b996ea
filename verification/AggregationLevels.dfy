/** What the aggregators add up to over two levels, from pods to namespaces to the cluster, and by node. */
module AggregationLevels {
  import opened Aggregation
  import opened BatchSets
  import opened Metrics
  import opened Sums
  import opened Wrappers

  /** t is s after a whole pass of the spec. */
  ghost predicate Pass(spec: Spec, s: Snapshot, t: Snapshot) {
    Gains(spec, s, t, s.Keys)
  }

  /** One metric of one group, whether or not the group gained anything. */
  lemma MetricAfter(spec: Spec, s: Snapshot, t: Snapshot, g: ResourceKey, m: string)
    requires spec.WellFormed() && Pass(spec, s, t)
    ensures m == spec.count ==> IsCount(BaseOf(s, g, m), CountsOf(spec, s, s.Keys, g), BaseOf(t, g, m))
    ensures m in spec.metrics ==> IsTotal(BaseOf(s, g, m), Contributions(spec, s, s.Keys, g, m), BaseOf(t, g, m))
    ensures m != spec.count && m !in spec.metrics ==> BaseOf(t, g, m) == BaseOf(s, g, m)
  {
    hide IsTotal, IsCount, Contributions, CountsOf, IsGroup;
    if IsGroup(spec, s, s.Keys, g) {
      assert MetricGains(spec, s, s.Keys, g, t[g], m);
    } else {
      var values := if g in s then s[g].values else map[];
      NoMembersGain(spec, s, s.Keys, g, values);
      assert MetricGains(spec, s, s.Keys, g, SetView(values, map[], []), m);
    }
  }

  // ---- namespaces -----------------------------------------------------------------------------

  /** There are no namespace or cluster sets yet. */
  ghost predicate NoGroups(s: Snapshot) {
    forall k :: k in s ==> !k.NamespaceKey? && !k.ClusterKey? && !IsType(s[k], TYPE_NAMESPACE)
  }

  /** The member of a namespace: a set of the right kind with a namespace label. */
  predicate InNamespace(part: Part, s: Snapshot, k: ResourceKey) {
    k in s && IsPartOfGroup(part, s[k]) && LABEL_NAMESPACE_NAME in s[k].labels
  }

  function NamespaceOf(s: Snapshot, k: ResourceKey): string {
    if k in s then Lookup(s[k].labels, LABEL_NAMESPACE_NAME, "") else ""
  }

  /** A metric's values over the aggregatable pods of a namespace. */
  function NamespaceValues(s: Snapshot, n: string, m: string): map<ResourceKey, Value> {
    map k | k in s && InNamespace(AggregatablePods, s, k) && NamespaceOf(s, k) == n && m in s[k].values
      :: s[k].values[m]
  }

  /** A metric's values over all aggregatable pods with a namespace. */
  function AllValues(s: Snapshot, m: string): map<ResourceKey, Value> {
    map k | k in s && InNamespace(AggregatablePods, s, k) && m in s[k].values :: s[k].values[m]
  }

  function NamespaceCounts(part: Part, s: Snapshot, n: string, count: string): map<ResourceKey, int> {
    map k | k in s && InNamespace(part, s, k) && NamespaceOf(s, k) == n :: CountOf(s[k].values, count)
  }

  function AllCounts(part: Part, s: Snapshot, count: string): map<ResourceKey, int> {
    map k | k in s && InNamespace(part, s, k) :: CountOf(s[k].values, count)
  }

  /** t is s with other values in node sets only, as the node aggregator leaves it. */
  ghost predicate NodesOnly(s: Snapshot, t: Snapshot) {
    t.Keys == s.Keys
    && forall k :: k in s ==> t[k].labels == s[k].labels && (!k.NodeKey? ==> t[k] == s[k])
  }

  /** The passes of the namespace and cluster aggregators over a batch, and what the node aggregator does between. */
  ghost predicate Levels(metrics: seq<string>, s0: Snapshot, s1: Snapshot, s2: Snapshot, t: Snapshot, s3: Snapshot, s4: Snapshot) {
    NoGroups(s0)
    && Listed(metrics)
    && Pass(NamespaceSpecs(metrics)[0], s0, s1) && Pass(NamespaceSpecs(metrics)[1], s1, s2)
    && NodesOnly(s2, t)
    && Pass(ClusterSpecs(metrics)[0], t, s3) && Pass(ClusterSpecs(metrics)[1], s3, s4)
  }

  /** Each metric is listed once, and neither count is listed. */
  ghost predicate Listed(metrics: seq<string>) {
    (forall i, j :: 0 <= i < j < |metrics| ==> metrics[i] != metrics[j])
    && METRIC_POD_COUNT !in metrics && METRIC_POD_CONTAINER_COUNT !in metrics
  }

  lemma SpecsWellFormed(metrics: seq<string>)
    requires Listed(metrics)
    ensures NamespaceSpecs(metrics)[0].WellFormed() && NamespaceSpecs(metrics)[1].WellFormed()
    ensures NodeSpecs(metrics)[0].WellFormed() && NodeSpecs(metrics)[1].WellFormed()
    ensures ClusterSpecs(metrics)[0].WellFormed() && ClusterSpecs(metrics)[1].WellFormed()
  {
  }

  /** A namespace pass adds namespace sets only, and leaves the sets that are not namespaces as they are. */
  lemma NamespacePass(spec: Spec, s: Snapshot, t: Snapshot, k: ResourceKey)
    requires spec.grouping == ByNamespace && Pass(spec, s, t)
    ensures k in s ==> k in t
    ensures k in t && !k.NamespaceKey? ==> k in s && t[k] == s[k]
    ensures k in t && k !in s ==> k.NamespaceKey? && IsType(t[k], TYPE_NAMESPACE)
    ensures k in s && k.NamespaceKey? ==> t[k].labels == s[k].labels
  {
    hide MetricGains, IsPartOfGroup;
    if IsGroup(spec, s, s.Keys, k) {
      var j :| j in MembersOf(spec, s, s.Keys, k);
      if k !in s {
        assert LabelsGain(spec, s, s.Keys, k, t[k]);
      } else {
        assert LabelsGain(spec, s, s.Keys, k, t[k]);
      }
    }
  }

  /** After the namespace passes the sets of type namespace are those at namespace keys. */
  lemma NamespaceKeys(metrics: seq<string>, s0: Snapshot, s1: Snapshot, s2: Snapshot, k: ResourceKey)
    requires NoGroups(s0)
    requires Pass(NamespaceSpecs(metrics)[0], s0, s1) && Pass(NamespaceSpecs(metrics)[1], s1, s2)
    ensures k in s1 ==> (k.NamespaceKey? <==> IsType(s1[k], TYPE_NAMESPACE))
    ensures k in s2 ==> (k.NamespaceKey? <==> IsType(s2[k], TYPE_NAMESPACE)) && !k.ClusterKey?
    ensures !k.NamespaceKey? ==> (k in s0 <==> k in s1) && (k in s1 <==> k in s2) && (k in s0 ==> s2[k] == s1[k] == s0[k])
  {
    hide Pass, IsType;
    NamespacePass(NamespaceSpecs(metrics)[0], s0, s1, k);
    NamespacePass(NamespaceSpecs(metrics)[1], s1, s2, k);
    TypeByLabels(s1, s2, k);
  }

  /** After the node aggregator as well, the sets of type namespace are those at namespace keys. */
  lemma KeysAfterNodes(metrics: seq<string>, s0: Snapshot, s1: Snapshot, s2: Snapshot, t: Snapshot, k: ResourceKey)
    requires NoGroups(s0) && NodesOnly(s2, t)
    requires Pass(NamespaceSpecs(metrics)[0], s0, s1) && Pass(NamespaceSpecs(metrics)[1], s1, s2)
    ensures k in t ==> (k.NamespaceKey? <==> IsType(t[k], TYPE_NAMESPACE)) && !k.ClusterKey?
  {
    hide Pass, IsType;
    NamespaceKeys(metrics, s0, s1, s2, k);
    TypeByLabels(s2, t, k);
  }

  lemma TypeByLabels(s: Snapshot, t: Snapshot, k: ResourceKey)
    ensures k in s && k in t && s[k].labels == t[k].labels ==>
              (IsType(s[k], TYPE_NAMESPACE) <==> IsType(t[k], TYPE_NAMESPACE))
  {
  }

  lemma FirstContributions(metrics: seq<string>, s: Snapshot, n: string, m: string)
    ensures Contributions(NamespaceSpecs(metrics)[0], s, s.Keys, NamespaceKey(n), m) == NamespaceValues(s, n, m)
  {
    hide IsPartOfGroup;
  }

  /** Each namespace metric is the sum over the aggregatable pods of the namespace. */
  lemma NamespaceTotal(metrics: seq<string>, s0: Snapshot, s1: Snapshot, s2: Snapshot, n: string, m: string)
    requires NoGroups(s0) && Listed(metrics) && m in metrics
    requires Pass(NamespaceSpecs(metrics)[0], s0, s1) && Pass(NamespaceSpecs(metrics)[1], s1, s2)
    ensures IsTotal(None, NamespaceValues(s0, n, m), BaseOf(s2, NamespaceKey(n), m))
  {
    hide Pass, IsTotal, NamespaceValues, Contributions;
    SpecsWellFormed(metrics);
    MetricAfter(NamespaceSpecs(metrics)[0], s0, s1, NamespaceKey(n), m);
    MetricAfter(NamespaceSpecs(metrics)[1], s1, s2, NamespaceKey(n), m);
    FirstContributions(metrics, s0, n, m);
  }

  /** The count of a namespace adds up its members' counts; the two specs do not disturb each other. */
  lemma NamespaceCount(metrics: seq<string>, s0: Snapshot, s1: Snapshot, s2: Snapshot, i: nat, n: string)
    requires NoGroups(s0) && Listed(metrics) && i < 2
    requires Pass(NamespaceSpecs(metrics)[0], s0, s1) && Pass(NamespaceSpecs(metrics)[1], s1, s2)
    ensures var spec := NamespaceSpecs(metrics)[i];
            IsCount(None, NamespaceCounts(spec.part, s0, n, spec.count), BaseOf(s2, NamespaceKey(n), spec.count))
  {
    hide Pass, IsCount, CountsOf, NamespaceCounts;
    SpecsWellFormed(metrics);
    var g, spec := NamespaceKey(n), NamespaceSpecs(metrics)[i];
    MetricAfter(NamespaceSpecs(metrics)[0], s0, s1, g, spec.count);
    MetricAfter(NamespaceSpecs(metrics)[1], s1, s2, g, spec.count);
    if i == 0 {
      FirstCounts(spec, s0, n);
    } else {
      FirstCounts(spec, s1, n);
      SecondCounts(metrics, s0, s1, s2, n);
    }
  }

  lemma FirstCounts(spec: Spec, s: Snapshot, n: string)
    requires spec.grouping == ByNamespace
    ensures CountsOf(spec, s, s.Keys, NamespaceKey(n)) == NamespaceCounts(spec.part, s, n, spec.count)
  {
    hide IsPartOfGroup;
  }

  /** Namespace sets made by the first pass are no containers. */
  lemma SecondCounts(metrics: seq<string>, s0: Snapshot, s1: Snapshot, s2: Snapshot, n: string)
    requires NoGroups(s0)
    requires Pass(NamespaceSpecs(metrics)[0], s0, s1) && Pass(NamespaceSpecs(metrics)[1], s1, s2)
    ensures NamespaceCounts(AggregatablePodContainers, s1, n, METRIC_POD_CONTAINER_COUNT)
            == NamespaceCounts(AggregatablePodContainers, s0, n, METRIC_POD_CONTAINER_COUNT)
  {
    hide Pass, PodContainerTakesUpResources;
    forall k
      ensures InNamespace(AggregatablePodContainers, s1, k) <==> InNamespace(AggregatablePodContainers, s0, k)
      ensures InNamespace(AggregatablePodContainers, s0, k) ==> s1[k] == s0[k]
    {
      NamespaceKeys(metrics, s0, s1, s2, k);
    }
  }

  // ---- the cluster ----------------------------------------------------------------------------

  /** The namespace sets of s that have the metric. */
  function NamespaceSetsWith(s: Snapshot, m: string): map<ResourceKey, Value> {
    map k | k in s && k.NamespaceKey? && m in s[k].values :: s[k].values[m]
  }

  lemma ClusterContributions(spec: Spec, s: Snapshot, m: string)
    requires spec.part == Namespaces && spec.grouping == ByCluster
    requires forall k :: k in s ==> (k.NamespaceKey? <==> IsType(s[k], TYPE_NAMESPACE))
    ensures Contributions(spec, s, s.Keys, ClusterKey, m) == NamespaceSetsWith(s, m)
    ensures CountsOf(spec, s, s.Keys, ClusterKey) == map k | k in s && k.NamespaceKey? :: CountOf(s[k].values, spec.count)
  {
    forall k
      ensures GroupOf(spec, s, k) == if k in s && k.NamespaceKey? then Some(ClusterKey) else None
    {
    }
    hide GroupOf, IsType;
  }

  /** A cluster pass changes the cluster set only. */
  lemma ClusterPass(spec: Spec, s: Snapshot, t: Snapshot, k: ResourceKey)
    requires spec.part == Namespaces && spec.grouping == ByCluster && Pass(spec, s, t) && k != ClusterKey
    ensures (k in t <==> k in s) && (k in s ==> t[k] == s[k])
  {
    assert !IsGroup(spec, s, s.Keys, k);
  }

  /** The key of the namespace set a pod or container is counted in. */
  function NamespaceKeyOf(s: Snapshot): map<ResourceKey, ResourceKey> {
    map k | k in s :: NamespaceKey(NamespaceOf(s, k))
  }

  /** The namespace sets hold, namespace by namespace, all the pods' values. */
  ghost predicate NamespacesHold(s0: Snapshot, s2: Snapshot, m: string) {
    forall n :: IsTotal(None, NamespaceValues(s0, n, m), BaseOf(s2, NamespaceKey(n), m))
  }

  lemma NamespacePart(s0: Snapshot, n: string, m: string)
    ensures InGroup(Nums(AllValues(s0, m)), NamespaceKeyOf(s0), NamespaceKey(n)) == Nums(NamespaceValues(s0, n, m))
  {
    hide IsPartOfGroup, Num;
  }

  lemma PodHasNamespaceSet(s0: Snapshot, s2: Snapshot, m: string, k: ResourceKey)
    requires NamespacesHold(s0, s2, m) && k in AllValues(s0, m)
    ensures NamespaceKeyOf(s0)[k] in NamespaceSetsWith(s2, m)
    ensures NamespaceSetsWith(s2, m)[NamespaceKeyOf(s0)[k]].valueType == AllValues(s0, m)[k].valueType
  {
    hide IsPartOfGroup, Compatible;
    var n := NamespaceOf(s0, k);
    assert IsTotal(None, NamespaceValues(s0, n, m), BaseOf(s2, NamespaceKey(n), m));
    assert k in NamespaceValues(s0, n, m);
  }

  lemma NamespaceSetHasPod(s0: Snapshot, s2: Snapshot, m: string, g: ResourceKey)
    requires NamespacesHold(s0, s2, m) && g in NamespaceSetsWith(s2, m)
    ensures NamespaceValues(s0, g.namespace, m) != map[]
    ensures Num(NamespaceSetsWith(s2, m)[g]) == SumMap(Nums(NamespaceValues(s0, g.namespace, m)))
  {
    hide IsPartOfGroup, Compatible, NamespaceValues, SumMap, Nums, Num;
    assert IsTotal(None, NamespaceValues(s0, g.namespace, m), BaseOf(s2, NamespaceKey(g.namespace), m));
  }

  /** The sum over namespaces of the sums over their pods is the sum over all pods. */
  lemma SumOverNamespaces(s0: Snapshot, s2: Snapshot, m: string)
    requires NamespacesHold(s0, s2, m)
    ensures SumMap(Nums(NamespaceSetsWith(s2, m))) == SumMap(Nums(AllValues(s0, m)))
    ensures NamespaceSetsWith(s2, m) == map[] <==> AllValues(s0, m) == map[]
  {
    hide SumMap, NamespaceSetsWith, AllValues, NamespacesHold, NamespaceKeyOf, InGroup, NamespaceValues, Num;
    var sums, all := NamespaceSetsWith(s2, m), AllValues(s0, m);
    forall k | k in all
      ensures k in NamespaceKeyOf(s0) && NamespaceKeyOf(s0)[k] in sums
    {
      PodHasNamespaceSet(s0, s2, m, k);
      InDomain(s0, m, k);
    }
    forall g | g in sums
      ensures Nums(sums)[g] == SumMap(InGroup(Nums(all), NamespaceKeyOf(s0), g))
      ensures all != map[]
    {
      SetIsNamespace(s2, m, g);
      NamespaceSetHasPod(s0, s2, m, g);
      NamespacePart(s0, g.namespace, m);
      ValuesInAll(s0, g.namespace, m);
    }
    SumByGroup(Nums(all), NamespaceKeyOf(s0), Nums(sums));
  }

  lemma InDomain(s0: Snapshot, m: string, k: ResourceKey)
    ensures k in AllValues(s0, m) ==> k in NamespaceKeyOf(s0)
  {
  }

  lemma SetIsNamespace(s: Snapshot, m: string, g: ResourceKey)
    ensures g in NamespaceSetsWith(s, m) ==> g.NamespaceKey? && g == NamespaceKey(g.namespace)
  {
  }

  lemma ValuesInAll(s0: Snapshot, n: string, m: string)
    ensures NamespaceValues(s0, n, m) != map[] ==> AllValues(s0, m) != map[]
  {
    if k :| k in NamespaceValues(s0, n, m) {
      assert k in AllValues(s0, m);
    }
  }

  /** Pods whose namespace sets can be added up can be added up themselves. */
  lemma PodsCompatible(s0: Snapshot, s2: Snapshot, m: string)
    requires NamespacesHold(s0, s2, m) && Compatible(None, NamespaceSetsWith(s2, m))
    ensures Compatible(None, AllValues(s0, m))
  {
    hide NamespacesHold, NamespaceSetsWith, AllValues, NamespaceKeyOf;
    var sums, all := NamespaceSetsWith(s2, m), AllValues(s0, m);
    forall j, k | j in all && k in all && j != k
      ensures !Clash(all[j], all[k])
    {
      PodHasNamespaceSet(s0, s2, m, j);
      PodHasNamespaceSet(s0, s2, m, k);
      InDomain(s0, m, j);
      InDomain(s0, m, k);
      var g, h := NamespaceKeyOf(s0)[j], NamespaceKeyOf(s0)[k];
      if g == h {
        SameNamespace(s0, s2, m, j, k);
      } else {
        assert !Clash(sums[g], sums[h]);
      }
    }
  }

  lemma SameNamespace(s0: Snapshot, s2: Snapshot, m: string, j: ResourceKey, k: ResourceKey)
    requires NamespacesHold(s0, s2, m) && j != k && j in AllValues(s0, m) && k in AllValues(s0, m)
    requires j in NamespaceKeyOf(s0) && k in NamespaceKeyOf(s0) && NamespaceKeyOf(s0)[j] == NamespaceKeyOf(s0)[k]
    ensures !Clash(AllValues(s0, m)[j], AllValues(s0, m)[k])
  {
    hide IsPartOfGroup, Clash;
    var n := NamespaceOf(s0, j);
    var c := NamespaceValues(s0, n, m);
    assert IsTotal(None, c, BaseOf(s2, NamespaceKey(n), m));
    assert j in c && k in c;
  }

  /** The cluster metric is the sum over all aggregatable pods that have a namespace, in whatever order. */
  lemma ClusterTotal(metrics: seq<string>, s0: Snapshot, s1: Snapshot, s2: Snapshot, t: Snapshot, s3: Snapshot,
                     s4: Snapshot, m: string)
    requires Levels(metrics, s0, s1, s2, t, s3, s4) && m in metrics
    ensures IsTotal(None, AllValues(s0, m), BaseOf(s4, ClusterKey, m))
  {
    hide Pass, IsTotal, NamespaceSetsWith, AllValues, NamespacesHold, Contributions, CountsOf, BaseOf, IsType;
    hide NoGroups, IsCount, Compatible, SumMap, Nums, Listed, Spec.WellFormed, NodesOnly;
    SpecsWellFormed(metrics);
    var spec := ClusterSpecs(metrics)[0];
    NamespacesAdded(metrics, s0, s1, s2, m);
    HoldAfterNodes(s0, s2, t, m);
    forall k
      ensures k in t ==> (k.NamespaceKey? <==> IsType(t[k], TYPE_NAMESPACE)) && !k.ClusterKey?
    {
      KeysAfterNodes(metrics, s0, s1, s2, t, k);
    }
    MetricAfter(spec, t, s3, ClusterKey, m);
    MetricAfter(ClusterSpecs(metrics)[1], s3, s4, ClusterKey, m);
    ClusterContributions(spec, t, m);
    NoBase(t, m);
    NotACount(metrics, m);
    assert IsTotal(None, NamespaceSetsWith(t, m), BaseOf(s4, ClusterKey, m));
    SumOverNamespaces(s0, t, m);
    TotalIsCompatible(NamespaceSetsWith(t, m), BaseOf(s4, ClusterKey, m));
    PodsCompatible(s0, t, m);
    ClusterTypes(s0, t, m, BaseOf(s4, ClusterKey, m));
  }

  lemma HoldAfterNodes(s0: Snapshot, s2: Snapshot, t: Snapshot, m: string)
    requires NamespacesHold(s0, s2, m) && NodesOnly(s2, t)
    ensures NamespacesHold(s0, t, m)
  {
    hide IsTotal, NamespaceValues;
    forall n
      ensures IsTotal(None, NamespaceValues(s0, n, m), BaseOf(t, NamespaceKey(n), m))
    {
      assert BaseOf(t, NamespaceKey(n), m) == BaseOf(s2, NamespaceKey(n), m);
    }
  }

  lemma NoBase(s: Snapshot, m: string)
    requires forall k :: k in s ==> !k.ClusterKey?
    ensures BaseOf(s, ClusterKey, m) == None
  {
  }

  lemma NotACount(metrics: seq<string>, m: string)
    requires Listed(metrics) && m in metrics
    ensures m != METRIC_POD_COUNT && m != METRIC_POD_CONTAINER_COUNT
  {
  }

  lemma TotalIsCompatible(c: map<ResourceKey, Value>, now: Option<Value>)
    requires IsTotal(None, c, now)
    ensures Compatible(None, c)
  {
  }

  lemma NamespacesAdded(metrics: seq<string>, s0: Snapshot, s1: Snapshot, s2: Snapshot, m: string)
    requires NoGroups(s0) && Listed(metrics) && m in metrics
    requires Pass(NamespaceSpecs(metrics)[0], s0, s1) && Pass(NamespaceSpecs(metrics)[1], s1, s2)
    ensures NamespacesHold(s0, s2, m)
  {
    hide IsTotal, NamespaceValues, BaseOf, Pass, NoGroups, Listed, NamespaceSpecs;
    forall n
      ensures IsTotal(None, NamespaceValues(s0, n, m), BaseOf(s2, NamespaceKey(n), m))
    {
      NamespaceTotal(metrics, s0, s1, s2, n, m);
    }
  }

  lemma ClusterTypes(s0: Snapshot, s2: Snapshot, m: string, now: Option<Value>)
    requires NamespacesHold(s0, s2, m) && IsTotal(None, NamespaceSetsWith(s2, m), now)
    requires Compatible(None, AllValues(s0, m))
    requires SumMap(Nums(NamespaceSetsWith(s2, m))) == SumMap(Nums(AllValues(s0, m)))
    requires NamespaceSetsWith(s2, m) == map[] <==> AllValues(s0, m) == map[]
    ensures IsTotal(None, AllValues(s0, m), now)
  {
    hide NamespacesHold, NamespaceSetsWith, AllValues, Compatible, SumMap, Nums, Num;
    forall k | k in AllValues(s0, m) && now.Some?
      ensures AllValues(s0, m)[k].valueType == now.value.valueType
    {
      PodHasNamespaceSet(s0, s2, m, k);
    }
  }

  // ---- counts over two levels -----------------------------------------------------------------

  function NamespaceSets(s: Snapshot): set<ResourceKey> {
    set k | k in s && k.NamespaceKey?
  }

  /** The namespace sets without the count, each of which counts as one for the cluster. */
  function Uncounted(s: Snapshot, count: string): set<ResourceKey> {
    set k | k in s && k.NamespaceKey? && count !in s[k].values
  }

  function SetCounts(s: Snapshot, count: string): map<ResourceKey, int> {
    map k | k in s && k.NamespaceKey? :: CountOf(s[k].values, count)
  }

  ghost predicate CountsHold(part: Part, s0: Snapshot, s2: Snapshot, count: string) {
    (forall n :: IsCount(None, NamespaceCounts(part, s0, n, count), BaseOf(s2, NamespaceKey(n), count)))
    && forall k :: InNamespace(part, s0, k) ==> NamespaceKey(NamespaceOf(s0, k)) in s2
  }

  ghost function MemberSums(part: Part, s0: Snapshot, s2: Snapshot, count: string): map<ResourceKey, real> {
    map k | k in NamespaceSets(s2) :: SumMap(Reals(NamespaceCounts(part, s0, k.namespace, count)))
  }

  lemma SetCountIsSum(part: Part, s0: Snapshot, s2: Snapshot, count: string, k: ResourceKey)
    requires CountsHold(part, s0, s2, count) && k in NamespaceSets(s2)
    ensures k in Uncounted(s2, count) <==> NamespaceCounts(part, s0, k.namespace, count) == map[]
    ensures SetCounts(s2, count)[k] as real
            == MemberSums(part, s0, s2, count)[k] + if k in Uncounted(s2, count) then 1.0 else 0.0
  {
    hide SumMap, InNamespace, NamespaceCounts;
    var c := NamespaceCounts(part, s0, k.namespace, count);
    assert IsCount(None, c, BaseOf(s2, NamespaceKey(k.namespace), count));
    if c == map[] {
      SumOfNone(Reals(c));
    }
  }

  lemma CountPart(part: Part, s0: Snapshot, n: string, count: string)
    ensures InGroup(Reals(AllCounts(part, s0, count)), NamespaceKeyOf(s0), NamespaceKey(n))
            == Reals(NamespaceCounts(part, s0, n, count))
  {
    hide IsPartOfGroup, CountOf;
  }

  lemma MemberHasSet(part: Part, s0: Snapshot, s2: Snapshot, count: string, k: ResourceKey)
    requires CountsHold(part, s0, s2, count) && k in AllCounts(part, s0, count)
    ensures k in NamespaceKeyOf(s0) && NamespaceKeyOf(s0)[k] in NamespaceSets(s2)
  {
    hide IsPartOfGroup, IsCount;
  }

  /** Counting by namespace counts every member once, and every namespace set without a count once more. */
  lemma CountOverNamespaces(part: Part, s0: Snapshot, s2: Snapshot, count: string)
    requires CountsHold(part, s0, s2, count)
    ensures SumMap(Reals(SetCounts(s2, count)))
            == SumMap(Reals(AllCounts(part, s0, count))) + |Uncounted(s2, count)| as real
  {
    hide SumMap, AllCounts, MemberSums, SetCounts, NamespaceKeyOf, InGroup, NamespaceCounts, Uncounted, CountsHold, NamespaceSets;
    var all, sums := AllCounts(part, s0, count), MemberSums(part, s0, s2, count);
    SetsHaveSums(part, s0, s2, count);
    forall k | k in all
      ensures k in NamespaceKeyOf(s0) && NamespaceKeyOf(s0)[k] in sums
    {
      MemberHasSet(part, s0, s2, count, k);
    }
    forall g | g in sums
      ensures sums[g] == SumMap(InGroup(Reals(all), NamespaceKeyOf(s0), g))
    {
      MemberSumAt(part, s0, s2, count, g);
      CountPart(part, s0, g.namespace, count);
    }
    SumByGroup(Reals(all), NamespaceKeyOf(s0), sums);
    SumOfBonus(sums, Uncounted(s2, count));
    assert Reals(SetCounts(s2, count)) == Bonus(sums, Uncounted(s2, count)) by {
      forall k | k in sums
        ensures SetCounts(s2, count)[k] as real == Bonus(sums, Uncounted(s2, count))[k]
      {
        SetCountIsSum(part, s0, s2, count, k);
      }
    }
  }

  lemma SetsHaveSums(part: Part, s0: Snapshot, s2: Snapshot, count: string)
    ensures MemberSums(part, s0, s2, count).Keys == NamespaceSets(s2) == SetCounts(s2, count).Keys
    ensures Uncounted(s2, count) <= NamespaceSets(s2)
  {
  }

  lemma MemberSumAt(part: Part, s0: Snapshot, s2: Snapshot, count: string, g: ResourceKey)
    requires g in MemberSums(part, s0, s2, count)
    ensures g.NamespaceKey? && g == NamespaceKey(g.namespace)
    ensures MemberSums(part, s0, s2, count)[g] == SumMap(Reals(NamespaceCounts(part, s0, g.namespace, count)))
  {
  }

  /** What a pass of the cluster aggregator makes of the counts of the namespace sets. */
  lemma ClusterCounted(metrics: seq<string>, s0: Snapshot, s1: Snapshot, s2: Snapshot, t: Snapshot, s3: Snapshot, s4: Snapshot, i: nat)
    requires Levels(metrics, s0, s1, s2, t, s3, s4) && i < 2
    ensures var count := NamespaceSpecs(metrics)[i].count;
            IsCount(None, SetCounts(s2, count), BaseOf(s4, ClusterKey, count))
  {
    hide Pass, IsCount, CountsOf, Contributions, BaseOf, IsType, NoGroups, IsTotal, Spec.WellFormed, CountOf, NodesOnly;
    SpecsWellFormed(metrics);
    var count := NamespaceSpecs(metrics)[i].count;
    forall k
      ensures k in t ==> (k.NamespaceKey? <==> IsType(t[k], TYPE_NAMESPACE)) && !k.ClusterKey?
      ensures k != ClusterKey ==> (k in s3 <==> k in t) && (k in t ==> s3[k] == t[k])
    {
      KeysAfterNodes(metrics, s0, s1, s2, t, k);
      if k != ClusterKey {
        ClusterPass(ClusterSpecs(metrics)[0], t, s3, k);
      }
    }
    CountsDiffer();
    NoBase(t, count);
    SetCountsAfterNodes(s2, t, count);
    MetricAfter(ClusterSpecs(metrics)[0], t, s3, ClusterKey, count);
    MetricAfter(ClusterSpecs(metrics)[1], s3, s4, ClusterKey, count);
    if i == 0 {
      ClusterContributions(ClusterSpecs(metrics)[0], t, count);
    } else {
      ClusterSetIsNoNamespace(metrics, t, s3);
      ClusterContributions(ClusterSpecs(metrics)[1], s3, count);
      SameSetCounts(t, s3, count);
    }
  }

  lemma SetCountsAfterNodes(s2: Snapshot, t: Snapshot, count: string)
    requires NodesOnly(s2, t)
    ensures SetCounts(t, count) == SetCounts(s2, count)
  {
    hide CountOf;
  }

  lemma CountsDiffer()
    ensures METRIC_POD_COUNT != METRIC_POD_CONTAINER_COUNT
  {
    assert METRIC_POD_COUNT[3] == '/' && METRIC_POD_CONTAINER_COUNT[3] == '_';
  }

  lemma SameSetCounts(s: Snapshot, t: Snapshot, count: string)
    requires forall k :: k != ClusterKey ==> (k in t <==> k in s) && (k in s ==> t[k] == s[k])
    ensures SetCounts(t, count) == SetCounts(s, count)
  {
  }

  lemma ClusterSetIsNoNamespace(metrics: seq<string>, s2: Snapshot, s3: Snapshot)
    requires Pass(ClusterSpecs(metrics)[0], s2, s3) && ClusterKey !in s2
    ensures ClusterKey in s3 ==> !IsType(s3[ClusterKey], TYPE_NAMESPACE)
  {
    hide MetricGains, IsPartOfGroup;
    var spec := ClusterSpecs(metrics)[0];
    if ClusterKey in s3 {
      assert LabelsGain(spec, s2, s2.Keys, ClusterKey, s3[ClusterKey]);
    }
  }

  lemma NamespacesCounted(metrics: seq<string>, s0: Snapshot, s1: Snapshot, s2: Snapshot, i: nat)
    requires NoGroups(s0) && Listed(metrics) && i < 2
    requires Pass(NamespaceSpecs(metrics)[0], s0, s1) && Pass(NamespaceSpecs(metrics)[1], s1, s2)
    ensures CountsHold(NamespaceSpecs(metrics)[i].part, s0, s2, NamespaceSpecs(metrics)[i].count)
  {
    hide IsCount, NamespaceCounts, BaseOf, Pass, NoGroups, Listed, InNamespace, NamespaceOf;
    var spec := NamespaceSpecs(metrics)[i];
    forall n
      ensures IsCount(None, NamespaceCounts(spec.part, s0, n, spec.count), BaseOf(s2, NamespaceKey(n), spec.count))
    {
      NamespaceCount(metrics, s0, s1, s2, i, n);
    }
    forall k | InNamespace(spec.part, s0, k)
      ensures NamespaceKey(NamespaceOf(s0, k)) in s2
    {
      CountedIsThere(spec.part, s0, s2, spec.count, k);
    }
  }

  lemma CountedIsThere(part: Part, s0: Snapshot, s2: Snapshot, count: string, k: ResourceKey)
    requires InNamespace(part, s0, k)
    requires IsCount(None, NamespaceCounts(part, s0, NamespaceOf(s0, k), count),
                     BaseOf(s2, NamespaceKey(NamespaceOf(s0, k)), count))
    ensures NamespaceKey(NamespaceOf(s0, k)) in s2
  {
    hide SumMap, IsPartOfGroup;
    assert k in NamespaceCounts(part, s0, NamespaceOf(s0, k), count);
  }

  /**
   The cluster's count of pods or containers is the sum over its namespaced members, plus one for each
   namespace set that carries no count. It is exact if and only if every namespace set carries it.
   */
  lemma ClusterCount(metrics: seq<string>, s0: Snapshot, s1: Snapshot, s2: Snapshot, t: Snapshot, s3: Snapshot, s4: Snapshot, i: nat)
    requires Levels(metrics, s0, s1, s2, t, s3, s4) && i < 2
    ensures var spec := NamespaceSpecs(metrics)[i];
            var now := BaseOf(s4, ClusterKey, spec.count);
            if NamespaceSets(s2) == {} then now == None
            else now.Some?
                 && now.value.intValue as real
                    == SumMap(Reals(AllCounts(spec.part, s0, spec.count))) + |Uncounted(s2, spec.count)| as real
                 && (now.value.intValue as real == SumMap(Reals(AllCounts(spec.part, s0, spec.count)))
                     <==> Uncounted(s2, spec.count) == {})
  {
    hide Pass, SumMap, AllCounts, SetCounts, Uncounted, NamespaceSets, BaseOf, CountsHold, NoGroups, Listed, Reals, MemberSums;
    var spec := NamespaceSpecs(metrics)[i];
    NamespacesCounted(metrics, s0, s1, s2, i);
    CountOverNamespaces(spec.part, s0, s2, spec.count);
    ClusterCounted(metrics, s0, s1, s2, t, s3, s4, i);
    SetsHaveSums(spec.part, s0, s2, spec.count);
  }

  // ---- nodes ----------------------------------------------------------------------------------

  function NodeValues(s: Snapshot, n: string, m: string): map<ResourceKey, Value> {
    map k | k in s && IsPartOfGroup(AggregatablePods, s[k]) && Lookup(s[k].labels, LABEL_NODENAME, "") == n
            && m in s[k].values
      :: s[k].values[m]
  }

  lemma NodeContributions(metrics: seq<string>, s: Snapshot, n: string, m: string)
    requires n != "" && NodeKey(n) in s
    ensures Contributions(NodeSpecs(metrics)[0], s, s.Keys, NodeKey(n), m) == NodeValues(s, n, m)
  {
    hide IsPartOfGroup;
  }

  /** A node set that is there gains exactly what the pods naming the node have; no node set is made. */
  lemma NodeTotal(metrics: seq<string>, s0: Snapshot, s1: Snapshot, s2: Snapshot, n: string, m: string)
    requires Listed(metrics) && m in metrics && n != ""
    requires Pass(NodeSpecs(metrics)[0], s0, s1) && Pass(NodeSpecs(metrics)[1], s1, s2)
    ensures s2.Keys == s0.Keys
    ensures NodeKey(n) in s0 ==> IsTotal(BaseOf(s0, NodeKey(n), m), NodeValues(s0, n, m), BaseOf(s2, NodeKey(n), m))
  {
    hide Pass, IsTotal, NodeValues, BaseOf, Contributions, IsCount, CountsOf, Spec.WellFormed;
    SpecsWellFormed(metrics);
    NodePassKeys(NodeSpecs(metrics)[0], s0, s1);
    NodePassKeys(NodeSpecs(metrics)[1], s1, s2);
    MetricAfter(NodeSpecs(metrics)[0], s0, s1, NodeKey(n), m);
    MetricAfter(NodeSpecs(metrics)[1], s1, s2, NodeKey(n), m);
    if NodeKey(n) in s0 {
      NodeContributions(metrics, s0, n, m);
    }
  }

  lemma NodePassKeys(spec: Spec, s: Snapshot, t: Snapshot)
    requires spec.grouping == ByNode && Pass(spec, s, t)
    ensures t.Keys == s.Keys
  {
    hide GroupGains, IsPartOfGroup;
    forall k | k in t
      ensures k in s
    {
      if IsGroup(spec, s, s.Keys, k) {
        var j :| j in MembersOf(spec, s, s.Keys, k);
      }
    }
  }

  /** A node pass leaves everything but the values of node sets as it is. */
  lemma NodePassOnly(spec: Spec, s: Snapshot, t: Snapshot)
    requires spec.grouping == ByNode && Pass(spec, s, t)
    ensures NodesOnly(s, t)
  {
    hide MetricGains, IsPartOfGroup;
    NodePassKeys(spec, s, t);
    forall k | k in s
      ensures t[k].labels == s[k].labels && (!k.NodeKey? ==> t[k] == s[k])
    {
      if IsGroup(spec, s, s.Keys, k) {
        assert LabelsGain(spec, s, s.Keys, k, t[k]);
        var j :| j in MembersOf(spec, s, s.Keys, k);
      }
    }
  }
}
