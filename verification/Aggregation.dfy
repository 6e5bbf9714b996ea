/**
 Sums and counts of metrics over groups of sets: pods and containers by namespace or node, namespaces
 by cluster (collector/plugins/processors/sum_count_aggregator.go, helper.go and the aggregators).

 The sets are visited in an arbitrary order, and sets inserted on the way may or may not be visited.
 */
module Aggregation {
  import opened BatchSets
  import opened Metrics
  import opened Sums
  import opened Wrappers

  // ---- values ---------------------------------------------------------------------------------

  function Num(v: Value): real {
    match v.valueType
    case ValueInt64 => v.intValue as real
    case ValueFloat => v.floatValue
    case OtherType(_) => 0.0
  }

  /** The two values cannot be added. */
  predicate Clash(a: Value, b: Value) {
    a.valueType != b.valueType || a.valueType.OtherType?
  }

  function Plus(a: Value, b: Value): Value
    requires !Clash(a, b)
  {
    if a.valueType == ValueInt64 then a.(intValue := a.intValue + b.intValue)
    else a.(floatValue := a.floatValue + b.floatValue)
  }

  function Added(now: Option<Value>, v: Value): Value
    requires now.None? || !Clash(now.value, v)
  {
    if now.None? then v else Plus(now.value, v)
  }

  // ---- what a group's metric is after some of its members -------------------------------------

  function Nums<K>(c: map<K, Value>): map<K, real> {
    map k | k in c :: Num(c[k])
  }

  function NumOr0(v: Option<Value>): real {
    if v.Some? then Num(v.value) else 0.0
  }

  /** The members' values can be added to the base and to each other. */
  ghost predicate Compatible<K>(base: Option<Value>, c: map<K, Value>) {
    (forall j, k :: j in c && k in c && j != k ==> !Clash(c[j], c[k]))
    && (base.Some? ==> forall k :: k in c ==> !Clash(base.value, c[k]))
  }

  /** now is the base plus the members' values. */
  ghost predicate IsTotal<K>(base: Option<Value>, c: map<K, Value>, now: Option<Value>) {
    Compatible(base, c)
    && (now.None? <==> base.None? && c == map[])
    && (now.Some? ==>
          Num(now.value) == NumOr0(base) + SumMap(Nums(c))
          && (base.Some? ==> base.value.valueType == now.value.valueType)
          && forall k :: k in c ==> c[k].valueType == now.value.valueType)
  }

  lemma TotalOfNone<K>(base: Option<Value>, c: map<K, Value>)
    requires c == map[]
    ensures IsTotal(base, c, base)
  {
    assert Nums(c) == map[];
  }

  lemma NumsPut<K>(c: map<K, Value>, k: K, v: Value)
    requires k !in c
    ensures SumMap(Nums(c[k := v])) == SumMap(Nums(c)) + Num(v)
  {
    SumMapPut(Nums(c), k, Num(v));
    assert Nums(c[k := v]) == Nums(c)[k := Num(v)];
    assert Nums(c) - {k} == Nums(c);
  }

  lemma NothingAddsUp<K>(c: map<K, Value>)
    requires c == map[]
    ensures SumMap(Nums(c)) == 0.0
  {
    assert Nums(c) == map[];
  }

  lemma TotalStep<K>(base: Option<Value>, c: map<K, Value>, now: Option<Value>, k: K, v: Value)
    requires IsTotal(base, c, now) && k !in c
    ensures Compatible(base, c[k := v]) <==> now.None? || !Clash(now.value, v)
    ensures Compatible(base, c[k := v]) ==> IsTotal(base, c[k := v], Some(Added(now, v)))
  {
    NumsPut(c, k, v);
    hide SumMap, Nums;
    var d := c[k := v];
    if now.None? {
      assert c == map[];
      if base.None? {
        NothingAddsUp(c);
      }
    } else {
      if Compatible(base, d) {
        if base.Some? {
          assert !Clash(base.value, d[k]);
        } else {
          var j :| j in c;
          assert !Clash(d[j], d[k]);
        }
      }
    }
  }

  lemma CompatiblePart<K>(base: Option<Value>, c: map<K, Value>, d: map<K, Value>)
    requires Compatible(base, d) && c.Keys <= d.Keys && forall k :: k in c ==> c[k] == d[k]
    ensures Compatible(base, c)
  {
  }

  function Reals<K>(c: map<K, int>): map<K, real> {
    map k | k in c :: c[k] as real
  }

  /** now is the base count plus the members' counts. */
  ghost predicate IsCount<K>(base: Option<Value>, c: map<K, int>, now: Option<Value>) {
    if c == map[] then now == base
    else
      now.Some?
      && now.value.intValue as real == (if base.Some? then base.value.intValue as real else 0.0) + SumMap(Reals(c))
      && now.value.(intValue := 0) == if base.Some? then base.value.(intValue := 0) else Value(0, 0.0, ValueInt64)
  }

  function Counted(now: Option<Value>, n: int): Value {
    if now.Some? then now.value.(intValue := now.value.intValue + n) else Value(n, 0.0, ValueInt64)
  }

  lemma CountStep<K>(base: Option<Value>, c: map<K, int>, now: Option<Value>, k: K, n: int)
    requires IsCount(base, c, now) && k !in c
    ensures IsCount(base, c[k := n], Some(Counted(now, n)))
  {
    SumMapPut(Reals(c), k, n as real);
    assert Reals(c[k := n]) == Reals(c)[k := n as real];
    assert Reals(c) - {k} == Reals(c);
    assert c == map[] ==> Reals(c) == map[];
  }

  // ---- sets and specs -------------------------------------------------------------------------

  const METRIC_POD_PHASE := "status/phase"
  const METRIC_CONTAINER_STATUS := "status"
  const METRIC_POD_COUNT := "pod/count"
  const METRIC_POD_CONTAINER_COUNT := "pod_container/count"

  /** Set.FindLabels; where a label occurs twice the one of the set counts. */
  function FindLabels(s: SetView, name: string): map<string, string> {
    if name in s.values then s.labels else FindLabeled(s.labeled, name, s.labels)
  }

  function FindLabeled(l: seq<LabeledValue>, name: string, labels: map<string, string>): map<string, string> {
    if l == [] then map[]
    else if l[0].name == name then l[0].labels + labels
    else FindLabeled(l[1..], name, labels)
  }

  datatype Part = AggregatablePods | AggregatablePodContainers | Namespaces {

    function Type(): string {
      match this
      case AggregatablePods => TYPE_POD
      case AggregatablePodContainers => TYPE_POD_CONTAINER
      case Namespaces => TYPE_NAMESPACE
    }
  }

  predicate IsType(s: SetView, matchType: string) {
    Lookup(s.labels, LABEL_TYPE, "") == matchType
  }

  predicate PodTakesUpResources(s: SetView) {
    var phase := Lookup(FindLabels(s, METRIC_POD_PHASE), "phase", "");
    phase != "Succeeded" && phase != "Failed"
  }

  predicate PodContainerTakesUpResources(s: SetView) {
    Lookup(FindLabels(s, METRIC_CONTAINER_STATUS), "state", "") != "terminated"
  }

  predicate IsPartOfGroup(part: Part, s: SetView) {
    IsType(s, part.Type())
    && match part
       case AggregatablePods => PodTakesUpResources(s)
       case AggregatablePodContainers => PodContainerTakesUpResources(s)
       case Namespaces => true
  }

  datatype Grouping = ByNamespace | ByNode | ByCluster

  /** The key of the group a set belongs to; nodes are only grouped where the batch has a set for them. */
  function GroupKey(g: Grouping, keys: set<ResourceKey>, s: SetView): Option<ResourceKey> {
    match g
    case ByNamespace =>
      if LABEL_NAMESPACE_NAME in s.labels then Some(NamespaceKey(s.labels[LABEL_NAMESPACE_NAME])) else None
    case ByNode =>
      var node := Lookup(s.labels, LABEL_NODENAME, "");
      if node != "" && NodeKey(node) in keys then Some(NodeKey(node)) else None
    case ByCluster => Some(ClusterKey)
  }

  /** The labels of a group set made for its first member. */
  function GroupLabels(g: Grouping, s: SetView): map<string, string> {
    match g
    case ByNamespace =>
      map[LABEL_TYPE := TYPE_NAMESPACE,
          LABEL_NAMESPACE_NAME := Lookup(s.labels, LABEL_NAMESPACE_NAME, ""),
          LABEL_NAMESPACE_UID := Lookup(s.labels, LABEL_NAMESPACE_UID, "")]
    case ByNode => map[]
    case ByCluster => map[LABEL_TYPE := TYPE_CLUSTER]
  }

  datatype Spec = Spec(metrics: seq<string>, count: string, part: Part, grouping: Grouping) {

    /** A metric is listed once, and the count is not listed. */
    ghost predicate WellFormed() {
      (forall i, j :: 0 <= i < j < |metrics| ==> metrics[i] != metrics[j]) && count !in metrics
      && (grouping == ByCluster <==> part == Namespaces)
    }
  }

  function NamespaceSpecs(metrics: seq<string>): seq<Spec> {
    [Spec(metrics, METRIC_POD_COUNT, AggregatablePods, ByNamespace),
     Spec([], METRIC_POD_CONTAINER_COUNT, AggregatablePodContainers, ByNamespace)]
  }

  function NodeSpecs(metrics: seq<string>): seq<Spec> {
    [Spec(metrics, METRIC_POD_COUNT, AggregatablePods, ByNode),
     Spec([], METRIC_POD_CONTAINER_COUNT, AggregatablePodContainers, ByNode)]
  }

  function ClusterSpecs(metrics: seq<string>): seq<Spec> {
    [Spec(metrics, METRIC_POD_COUNT, Namespaces, ByCluster),
     Spec([], METRIC_POD_CONTAINER_COUNT, Namespaces, ByCluster)]
  }

  /** Sets at the keys of groups are of no type that is put into those groups. */
  ghost predicate WellKeyed(s: Snapshot) {
    forall k :: k in s ==>
      (k.NamespaceKey? || k.NodeKey? || k.ClusterKey? ==>
         !IsType(s[k], TYPE_POD) && !IsType(s[k], TYPE_POD_CONTAINER))
      && (k.ClusterKey? ==> !IsType(s[k], TYPE_NAMESPACE))
  }

  // ---- one visit ------------------------------------------------------------------------------

  function CountOf(src: map<string, Value>, name: string): int {
    if name in src then src[name].intValue else 1
  }

  function AggregateCountValues(src: map<string, Value>, dst: map<string, Value>, name: string): map<string, Value> {
    dst[name := Counted(Get(dst, name), CountOf(src, name))]
  }

  /** None where the source returns an error. */
  function AggregateValues(src: map<string, Value>, dst: map<string, Value>, metrics: seq<string>)
    : Option<map<string, Value>>
    decreases |metrics|
  {
    if metrics == [] then Some(dst)
    else if metrics[0] !in src then AggregateValues(src, dst, metrics[1..])
    else
      var now, v := Get(dst, metrics[0]), src[metrics[0]];
      if now.Some? && Clash(now.value, v) then None
      else AggregateValues(src, dst[metrics[0] := Added(now, v)], metrics[1..])
  }

  function Visit(spec: Spec, t: Snapshot, k: ResourceKey): Option<Snapshot>
    requires k in t
  {
    var g := GroupKey(spec.grouping, t.Keys, t[k]);
    if !IsPartOfGroup(spec.part, t[k]) || g.None? then Some(t)
    else
      var dst := if g.value in t then t[g.value] else SetView(map[], GroupLabels(spec.grouping, t[k]), []);
      var v := AggregateValues(t[k].values, AggregateCountValues(t[k].values, dst.values, spec.count), spec.metrics);
      if v.None? then None else Some(t[g.value := dst.(values := v.value)])
  }

  predicate ClashIn(src: map<string, Value>, dst: map<string, Value>, m: string) {
    m in src && m in dst && Clash(dst[m], src[m])
  }

  lemma {:induction false} AggregatesEach(src: map<string, Value>, dst: map<string, Value>, metrics: seq<string>)
    requires forall i, j :: 0 <= i < j < |metrics| ==> metrics[i] != metrics[j]
    ensures var r := AggregateValues(src, dst, metrics);
            (r.None? <==> exists m :: m in metrics && ClashIn(src, dst, m))
            && (r.Some? ==> forall m ::
                  Get(r.value, m) == if m in metrics && m in src && !ClashIn(src, dst, m)
                                     then Some(Added(Get(dst, m), src[m])) else Get(dst, m))
    decreases |metrics|
  {
    hide Clash, Plus;
    if metrics != [] {
      var m, rest := metrics[0], metrics[1..];
      assert forall x :: x in metrics <==> x == m || x in rest;
      assert m !in rest;
      if m !in src {
        AggregatesEach(src, dst, rest);
      } else if !ClashIn(src, dst, m) {
        var next := dst[m := Added(Get(dst, m), src[m])];
        AggregatesEach(src, next, rest);
        assert forall x :: x in rest ==> (ClashIn(src, next, x) <==> ClashIn(src, dst, x));
      }
    }
  }

  // ---- what the groups have gained after some visits ------------------------------------------

  /** The group set k is added to, as the batch stands at the start of the pass. */
  function GroupOf(spec: Spec, s: Snapshot, k: ResourceKey): Option<ResourceKey> {
    if k in s && IsPartOfGroup(spec.part, s[k]) then GroupKey(spec.grouping, s.Keys, s[k]) else None
  }

  function MembersOf(spec: Spec, s: Snapshot, done: set<ResourceKey>, g: ResourceKey): (r: set<ResourceKey>)
    ensures forall k :: k in r <==> k in done && GroupOf(spec, s, k) == Some(g)
  {
    set k | k in done && GroupOf(spec, s, k) == Some(g)
  }

  /** The values that the members of g visited so far have for a metric. */
  function Contributions(spec: Spec, s: Snapshot, done: set<ResourceKey>, g: ResourceKey, m: string)
    : map<ResourceKey, Value>
  {
    map k | k in MembersOf(spec, s, done, g) && m in s[k].values :: s[k].values[m]
  }

  function CountsOf(spec: Spec, s: Snapshot, done: set<ResourceKey>, g: ResourceKey): map<ResourceKey, int> {
    map k | k in MembersOf(spec, s, done, g) :: CountOf(s[k].values, spec.count)
  }

  function BaseOf(s: Snapshot, g: ResourceKey, m: string): Option<Value> {
    if g in s then Get(s[g].values, m) else None
  }

  ghost predicate MetricGains(spec: Spec, s: Snapshot, done: set<ResourceKey>, g: ResourceKey, t: SetView, m: string) {
    if m == spec.count then IsCount(BaseOf(s, g, m), CountsOf(spec, s, done, g), Get(t.values, m))
    else if m in spec.metrics then IsTotal(BaseOf(s, g, m), Contributions(spec, s, done, g, m), Get(t.values, m))
    else Get(t.values, m) == BaseOf(s, g, m)
  }

  ghost predicate LabelsGain(spec: Spec, s: Snapshot, done: set<ResourceKey>, g: ResourceKey, t: SetView) {
    if g in s then t.labels == s[g].labels && t.labeled == s[g].labeled
    else t.labeled == []
         && exists k :: k in MembersOf(spec, s, done, g) && t.labels == GroupLabels(spec.grouping, s[k])
  }

  ghost predicate GroupGains(spec: Spec, s: Snapshot, done: set<ResourceKey>, g: ResourceKey, t: SetView) {
    LabelsGain(spec, s, done, g, t) && forall m :: MetricGains(spec, s, done, g, t, m)
  }

  predicate IsGroup(spec: Spec, s: Snapshot, done: set<ResourceKey>, g: ResourceKey) {
    MembersOf(spec, s, done, g) != {}
  }

  /** t is s after the sets in done have been visited. */
  ghost predicate Gains(spec: Spec, s: Snapshot, t: Snapshot, done: set<ResourceKey>) {
    (forall k :: k in t <==> k in s || IsGroup(spec, s, done, k))
    && forall k :: k in t ==>
         if IsGroup(spec, s, done, k) then GroupGains(spec, s, done, k, t[k]) else k in s && t[k] == s[k]
  }

  ghost predicate GroupCompatible(spec: Spec, s: Snapshot, done: set<ResourceKey>, g: ResourceKey) {
    forall m :: m in spec.metrics ==> Compatible(BaseOf(s, g, m), Contributions(spec, s, done, g, m))
  }

  /** No group is asked to add values of different or unknown types. */
  ghost predicate Consistent(spec: Spec, s: Snapshot) {
    forall g :: GroupCompatible(spec, s, s.Keys, g)
  }

  lemma GainsNone(spec: Spec, s: Snapshot)
    ensures Gains(spec, s, s, {})
  {
    forall k
      ensures !IsGroup(spec, s, {}, k)
    {
      assert MembersOf(spec, s, {}, k) == {};
    }
  }

  lemma MembersStep(spec: Spec, s: Snapshot, done: set<ResourceKey>, k: ResourceKey, g: ResourceKey)
    ensures MembersOf(spec, s, done + {k}, g)
            == MembersOf(spec, s, done, g) + if GroupOf(spec, s, k) == Some(g) then {k} else {}
  {
  }

  lemma ContributionsStep(spec: Spec, s: Snapshot, done: set<ResourceKey>, k: ResourceKey, g: ResourceKey, m: string)
    ensures Contributions(spec, s, done + {k}, g, m)
            == if GroupOf(spec, s, k) == Some(g) && m in s[k].values
               then Contributions(spec, s, done, g, m)[k := s[k].values[m]] else Contributions(spec, s, done, g, m)
  {
    MembersStep(spec, s, done, k, g);
  }

  lemma CountsStep(spec: Spec, s: Snapshot, done: set<ResourceKey>, k: ResourceKey, g: ResourceKey)
    ensures CountsOf(spec, s, done + {k}, g)
            == if GroupOf(spec, s, k) == Some(g) then CountsOf(spec, s, done, g)[k := CountOf(s[k].values, spec.count)]
               else CountsOf(spec, s, done, g)
  {
    MembersStep(spec, s, done, k, g);
  }

  /** Where no member joins, nothing changes. */
  lemma OtherGroupsStay(spec: Spec, s: Snapshot, done: set<ResourceKey>, k: ResourceKey, g: ResourceKey, t: SetView)
    requires GroupOf(spec, s, k) != Some(g)
    ensures IsGroup(spec, s, done + {k}, g) <==> IsGroup(spec, s, done, g)
    ensures GroupGains(spec, s, done + {k}, g, t) <==> GroupGains(spec, s, done, g, t)
  {
    MembersStep(spec, s, done, k, g);
    assert MembersOf(spec, s, done + {k}, g) == MembersOf(spec, s, done, g);
    forall m
      ensures MetricGains(spec, s, done + {k}, g, t, m) <==> MetricGains(spec, s, done, g, t, m)
    {
      ContributionsStep(spec, s, done, k, g, m);
      CountsStep(spec, s, done, k, g);
    }
  }

  /** The values of a group set when member k joins. */
  function Joined(spec: Spec, src: map<string, Value>, dst: map<string, Value>): Option<map<string, Value>> {
    AggregateValues(src, AggregateCountValues(src, dst, spec.count), spec.metrics)
  }

  /** What a set that is not yet there or has no members yet counts as. */
  ghost predicate ValuesGain(spec: Spec, s: Snapshot, done: set<ResourceKey>, g: ResourceKey, values: map<string, Value>) {
    forall m :: MetricGains(spec, s, done, g, SetView(values, map[], []), m)
  }

  lemma JoinStep(spec: Spec, s: Snapshot, done: set<ResourceKey>, k: ResourceKey, g: ResourceKey,
                 values: map<string, Value>)
    requires spec.WellFormed() && k !in done && GroupOf(spec, s, k) == Some(g)
    requires ValuesGain(spec, s, done, g, values)
    ensures Joined(spec, s[k].values, values).Some? <==> GroupCompatible(spec, s, done + {k}, g)
    ensures Joined(spec, s[k].values, values).Some? ==>
              ValuesGain(spec, s, done + {k}, g, Joined(spec, s[k].values, values).value)
  {
    hide MetricGains, ClashIn, Compatible, Contributions, BaseOf, MembersOf, AggregateValues, AggregateCountValues, Clash;
    var src := s[k].values;
    hide GroupOf;
    var counted := AggregateCountValues(src, values, spec.count);
    AggregatesEach(src, counted, spec.metrics);
    forall m | m in spec.metrics
      ensures Compatible(BaseOf(s, g, m), Contributions(spec, s, done + {k}, g, m)) <==> !ClashIn(src, counted, m)
    {
      MetricCompatible(spec, s, done, k, g, values, m);
    }
    var r := Joined(spec, src, values);
    if r.Some? {
      forall m
        ensures MetricGains(spec, s, done + {k}, g, SetView(r.value, map[], []), m)
      {
        MetricJoin(spec, s, done, k, g, values, r.value, m);
      }
    }
  }

  lemma CountedGet(src: map<string, Value>, values: map<string, Value>, name: string, m: string)
    ensures Get(AggregateCountValues(src, values, name), m)
            == if m == name then Some(Counted(Get(values, m), CountOf(src, name))) else Get(values, m)
  {
  }

  lemma MetricCompatible(spec: Spec, s: Snapshot, done: set<ResourceKey>, k: ResourceKey, g: ResourceKey,
                         values: map<string, Value>, m: string)
    requires spec.WellFormed() && k !in done && GroupOf(spec, s, k) == Some(g)
    requires ValuesGain(spec, s, done, g, values) && m in spec.metrics
    ensures Compatible(BaseOf(s, g, m), Contributions(spec, s, done + {k}, g, m))
            <==> !ClashIn(s[k].values, AggregateCountValues(s[k].values, values, spec.count), m)
    ensures Compatible(BaseOf(s, g, m), Contributions(spec, s, done + {k}, g, m)) && m in s[k].values ==>
              (m in values ==> !Clash(values[m], s[k].values[m]))
              && IsTotal(BaseOf(s, g, m), Contributions(spec, s, done + {k}, g, m),
                         Some(Added(Get(values, m), s[k].values[m])))
  {
    var src, c := s[k].values, Contributions(spec, s, done, g, m);
    assert k !in c;
    assert IsTotal(BaseOf(s, g, m), c, Get(values, m)) ==> Compatible(BaseOf(s, g, m), c);
    hide IsTotal, Compatible, Contributions, Added, Counted, CountOf;
    assert MetricGains(spec, s, done, g, SetView(values, map[], []), m);
    assert IsTotal(BaseOf(s, g, m), c, Get(values, m));
    CountedGet(src, values, spec.count, m);
    ContributionsStep(spec, s, done, k, g, m);
    if m in src {
      TotalStep(BaseOf(s, g, m), c, Get(values, m), k, src[m]);
    }
  }

  lemma MetricJoin(spec: Spec, s: Snapshot, done: set<ResourceKey>, k: ResourceKey, g: ResourceKey,
                   values: map<string, Value>, r: map<string, Value>, m: string)
    requires spec.WellFormed() && k !in done && GroupOf(spec, s, k) == Some(g)
    requires ValuesGain(spec, s, done, g, values) && Joined(spec, s[k].values, values) == Some(r)
    ensures MetricGains(spec, s, done + {k}, g, SetView(r, map[], []), m)
  {
    assert k !in CountsOf(spec, s, done, g);
    hide IsTotal, IsCount, Compatible, Contributions, CountsOf, Added, Counted, CountOf, AggregateValues, Clash;
    var src := s[k].values;
    AggregatesEach(src, AggregateCountValues(src, values, spec.count), spec.metrics);
    assert MetricGains(spec, s, done, g, SetView(values, map[], []), m);
    CountedGet(src, values, spec.count, m);
    ContributionsStep(spec, s, done, k, g, m);
    CountsStep(spec, s, done, k, g);
    if m == spec.count {
      CountStep(BaseOf(s, g, m), CountsOf(spec, s, done, g), Get(values, m), k, CountOf(src, spec.count));
    } else if m in spec.metrics {
      MetricCompatible(spec, s, done, k, g, values, m);
    }
  }

  // ---- one visit keeps the account ------------------------------------------------------------

  /** Where a visited set goes does not depend on what the groups have gained so far. */
  lemma GroupIsStable(spec: Spec, s: Snapshot, t: Snapshot, done: set<ResourceKey>, k: ResourceKey)
    requires spec.WellFormed() && WellKeyed(s) && Gains(spec, s, t, done) && k in s
    ensures k in t
    ensures (if IsPartOfGroup(spec.part, t[k]) then GroupKey(spec.grouping, t.Keys, t[k]) else None)
            == GroupOf(spec, s, k)
    ensures GroupOf(spec, s, k).Some? ==> t[k] == s[k] && !IsGroup(spec, s, done, k)
  {
    assert k in t && (IsGroup(spec, s, done, k) ==> LabelsGain(spec, s, done, k, t[k]));
    hide GroupGains, PodTakesUpResources, PodContainerTakesUpResources;
    if IsGroup(spec, s, done, k) {
      var j :| j in MembersOf(spec, s, done, k);
    } else {
      forall n
        ensures spec.grouping == ByNode ==> (NodeKey(n) in t.Keys <==> NodeKey(n) in s.Keys)
      {
        if IsGroup(spec, s, done, NodeKey(n)) {
          var j :| j in MembersOf(spec, s, done, NodeKey(n));
        }
      }
    }
  }

  /** The group set a member is added to: the one there, or a new one. */
  function GroupSet(spec: Spec, t: Snapshot, k: ResourceKey, g: ResourceKey): SetView
    requires k in t
  {
    if g in t then t[g] else SetView(map[], GroupLabels(spec.grouping, t[k]), [])
  }

  lemma NoMembersGain(spec: Spec, s: Snapshot, done: set<ResourceKey>, g: ResourceKey, values: map<string, Value>)
    requires !IsGroup(spec, s, done, g) && values == if g in s then s[g].values else map[]
    ensures ValuesGain(spec, s, done, g, values)
  {
    hide IsTotal;
    forall m
      ensures MetricGains(spec, s, done, g, SetView(values, map[], []), m)
    {
      assert CountsOf(spec, s, done, g) == map[];
      var c := Contributions(spec, s, done, g, m);
      assert c == map[];
      TotalOfNone(BaseOf(s, g, m), c);
    }
  }

  lemma GroupSetGains(spec: Spec, s: Snapshot, t: Snapshot, done: set<ResourceKey>, k: ResourceKey, g: ResourceKey)
    requires Gains(spec, s, t, done) && k in t
    ensures ValuesGain(spec, s, done, g, GroupSet(spec, t, k, g).values)
  {
    hide IsTotal, IsCount, Contributions, CountsOf, IsGroup, LabelsGain;
    if IsGroup(spec, s, done, g) {
      assert GroupGains(spec, s, done, g, t[g]);
      forall m
        ensures MetricGains(spec, s, done, g, SetView(t[g].values, map[], []), m)
      {
        assert MetricGains(spec, s, done, g, t[g], m);
      }
    } else {
      NoMembersGain(spec, s, done, g, GroupSet(spec, t, k, g).values);
    }
  }

  lemma GroupSetLabels(spec: Spec, s: Snapshot, t: Snapshot, done: set<ResourceKey>, k: ResourceKey, g: ResourceKey)
    requires Gains(spec, s, t, done) && k in t && k in s && t[k] == s[k] && GroupOf(spec, s, k) == Some(g)
    ensures IsGroup(spec, s, done + {k}, g)
    ensures LabelsGain(spec, s, done + {k}, g, GroupSet(spec, t, k, g))
  {
    hide MetricGains;
    assert k in MembersOf(spec, s, done + {k}, g);
    if IsGroup(spec, s, done, g) && g !in s {
      assert LabelsGain(spec, s, done, g, t[g]);
      var j :| j in MembersOf(spec, s, done, g) && t[g].labels == GroupLabels(spec.grouping, s[j]);
      assert j in MembersOf(spec, s, done + {k}, g);
    }
  }

  lemma VisitIsJoin(spec: Spec, t: Snapshot, k: ResourceKey, g: ResourceKey)
    requires k in t && IsPartOfGroup(spec.part, t[k]) && GroupKey(spec.grouping, t.Keys, t[k]) == Some(g)
    ensures var dst := GroupSet(spec, t, k, g);
            var v := Joined(spec, t[k].values, dst.values);
            Visit(spec, t, k) == if v.None? then None else Some(t[g := dst.(values := v.value)])
  {
  }

  lemma VisitSkips(spec: Spec, t: Snapshot, k: ResourceKey)
    requires k in t && (IsPartOfGroup(spec.part, t[k]) ==> GroupKey(spec.grouping, t.Keys, t[k]).None?)
    ensures Visit(spec, t, k) == Some(t)
  {
  }

  /** Values and labels together make the group set. */
  lemma GroupGainsOf(spec: Spec, s: Snapshot, done: set<ResourceKey>, g: ResourceKey, dst: SetView,
                     values: map<string, Value>)
    requires LabelsGain(spec, s, done, g, dst) && ValuesGain(spec, s, done, g, values)
    ensures GroupGains(spec, s, done, g, dst.(values := values))
  {
    hide IsTotal, IsCount, Contributions, CountsOf;
    forall m
      ensures MetricGains(spec, s, done, g, dst.(values := values), m)
    {
      assert MetricGains(spec, s, done, g, SetView(values, map[], []), m);
    }
  }

  lemma GainsPut(spec: Spec, s: Snapshot, t: Snapshot, done: set<ResourceKey>, k: ResourceKey, g: ResourceKey,
                 v: SetView)
    requires Gains(spec, s, t, done) && GroupOf(spec, s, k) == Some(g)
    requires IsGroup(spec, s, done + {k}, g) && GroupGains(spec, s, done + {k}, g, v)
    ensures Gains(spec, s, t[g := v], done + {k})
  {
    hide GroupGains, IsGroup, GroupOf;
    forall h | h != g
      ensures IsGroup(spec, s, done + {k}, h) <==> IsGroup(spec, s, done, h)
      ensures h in t ==> (GroupGains(spec, s, done + {k}, h, t[h]) <==> GroupGains(spec, s, done, h, t[h]))
    {
      if h in t {
        OtherGroupsStay(spec, s, done, k, h, t[h]);
      } else {
        OtherGroupsStay(spec, s, done, k, h, v);
      }
    }
  }

  lemma GainsSkip(spec: Spec, s: Snapshot, t: Snapshot, done: set<ResourceKey>, k: ResourceKey)
    requires Gains(spec, s, t, done) && GroupOf(spec, s, k).None?
    ensures Gains(spec, s, t, done + {k})
  {
    hide GroupGains, IsGroup, GroupOf;
    forall h
      ensures IsGroup(spec, s, done + {k}, h) <==> IsGroup(spec, s, done, h)
      ensures h in t ==> (GroupGains(spec, s, done + {k}, h, t[h]) <==> GroupGains(spec, s, done, h, t[h]))
    {
      OtherGroupsStay(spec, s, done, k, h, if h in t then t[h] else SetView(map[], map[], []));
    }
  }

  /** A visit brings one more set into the account, or fails exactly where its group would have to mix types. */
  lemma VisitStep(spec: Spec, s: Snapshot, t: Snapshot, done: set<ResourceKey>, k: ResourceKey)
    requires spec.WellFormed() && WellKeyed(s) && Gains(spec, s, t, done) && k in s && k !in done
    ensures k in t
    ensures Visit(spec, t, k).Some?
            <==> GroupOf(spec, s, k).None? || GroupCompatible(spec, s, done + {k}, GroupOf(spec, s, k).value)
    ensures Visit(spec, t, k).Some? ==> Gains(spec, s, Visit(spec, t, k).value, done + {k})
  {
    hide *;
    GroupIsStable(spec, s, t, done, k);
    var group := GroupOf(spec, s, k);
    if group.None? {
      VisitSkips(spec, t, k);
      GainsSkip(spec, s, t, done, k);
    } else {
      var g := group.value;
      var dst := GroupSet(spec, t, k, g);
      VisitIsJoin(spec, t, k, g);
      GroupSetGains(spec, s, t, done, k, g);
      JoinStep(spec, s, done, k, g, dst.values);
      GroupSetLabels(spec, s, t, done, k, g);
      var v := Joined(spec, t[k].values, dst.values);
      if v.Some? {
        GroupGainsOf(spec, s, done + {k}, g, dst, v.value);
        GainsPut(spec, s, t, done, k, g, dst.(values := v.value));
      }
    }
  }

  /** A set that was not there at the start, or has been visited, is left alone by a visit. */
  lemma NewSetsAreNoMembers(spec: Spec, s: Snapshot, t: Snapshot, done: set<ResourceKey>, k: ResourceKey)
    requires spec.WellFormed() && WellKeyed(s) && Gains(spec, s, t, done) && k in t && k !in s
    ensures Visit(spec, t, k) == Some(t)
  {
    hide MetricGains, PodTakesUpResources, PodContainerTakesUpResources;
    assert LabelsGain(spec, s, done, k, t[k]);
    var j :| j in MembersOf(spec, s, done, k) && t[k].labels == GroupLabels(spec.grouping, s[j]);
    VisitSkips(spec, t, k);
  }

  lemma CompatibleFromAll(spec: Spec, s: Snapshot, done: set<ResourceKey>, g: ResourceKey)
    requires done <= s.Keys && GroupCompatible(spec, s, s.Keys, g)
    ensures GroupCompatible(spec, s, done, g)
  {
    hide Compatible, GroupOf;
    forall m | m in spec.metrics
      ensures Compatible(BaseOf(s, g, m), Contributions(spec, s, done, g, m))
    {
      CompatiblePart(BaseOf(s, g, m), Contributions(spec, s, done, g, m), Contributions(spec, s, s.Keys, g, m));
    }
  }

  lemma GainsAreCompatible(spec: Spec, s: Snapshot, t: Snapshot)
    requires spec.WellFormed() && Gains(spec, s, t, s.Keys)
    ensures Consistent(spec, s)
  {
    forall g, m
      ensures !IsGroup(spec, s, s.Keys, g) ==> Contributions(spec, s, s.Keys, g, m) == map[]
    {
    }
    hide Contributions, IsCount;
    forall g, m | m in spec.metrics
      ensures Compatible(BaseOf(s, g, m), Contributions(spec, s, s.Keys, g, m))
    {
      if IsGroup(spec, s, s.Keys, g) {
        assert MetricGains(spec, s, s.Keys, g, t[g], m);
      }
    }
  }
}
