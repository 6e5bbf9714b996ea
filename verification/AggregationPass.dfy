/** The aggregating processor itself, which updates the sets of a batch in place. */
module AggregationPass {
  import opened Aggregation
  import opened BatchSets
  import opened Metrics
  import opened Wrappers

  method AggregateCount(src: MetricSet, dst: MetricSet, metricName: string)
    modifies dst`values
    ensures dst.values == AggregateCountValues(old(src.values), old(dst.values), metricName)
  {
    var srcCount := 0;
    if metricName in src.values {
      srcCount := srcCount + src.values[metricName].intValue;
    } else {
      srcCount := 1;
    }
    var dstCount: Value;
    if metricName in dst.values {
      dstCount := dst.values[metricName];
      dstCount := dstCount.(intValue := dstCount.intValue + srcCount);
    } else {
      dstCount := Value(srcCount, 0.0, ValueInt64);
    }
    dst.values := dst.values[metricName := dstCount];
  }

  method Aggregate(src: MetricSet, dst: MetricSet, metricsToAggregate: seq<string>) returns (err: bool)
    requires src != dst
    modifies dst`values
    ensures var r := AggregateValues(src.values, old(dst.values), metricsToAggregate);
            (err <==> r.None?) && (!err ==> dst.values == r.value)
  {
    for i := 0 to |metricsToAggregate|
      invariant AggregateValues(src.values, old(dst.values), metricsToAggregate)
                == AggregateValues(src.values, dst.values, metricsToAggregate[i..])
    {
      var metricName := metricsToAggregate[i];
      assert metricsToAggregate[i..][1..] == metricsToAggregate[i + 1..];
      if metricName !in src.values {
        continue;
      }
      var metricValue := src.values[metricName];
      var aggregatedValue: Value;
      if metricName in dst.values {
        aggregatedValue := dst.values[metricName];
        if aggregatedValue.valueType != metricValue.valueType {
          return true;
        }
        if aggregatedValue.valueType == ValueInt64 {
          aggregatedValue := aggregatedValue.(intValue := aggregatedValue.intValue + metricValue.intValue);
        } else if aggregatedValue.valueType == ValueFloat {
          aggregatedValue := aggregatedValue.(floatValue := aggregatedValue.floatValue + metricValue.floatValue);
        } else {
          return true;
        }
      } else {
        aggregatedValue := metricValue;
      }
      dst.values := dst.values[metricName := aggregatedValue];
    }
    return false;
  }

  /** namespaceGroup, nodeGroup and clusterGroup: the set for the group, made anew where the batch has none. */
  method Group(batch: Batch, grouping: Grouping, s: MetricSet) returns (key: ResourceKey, group: MetricSet?)
    ensures var g := GroupKey(grouping, batch.sets.Keys, ViewOf(s));
            (group == null <==> g.None?)
            && (g.Some? ==> key == g.value
                            && if key in batch.sets then group == batch.sets[key]
                               else fresh(group) && ViewOf(group) == SetView(map[], GroupLabels(grouping, ViewOf(s)), []))
  {
    match grouping {
      case ByNamespace =>
        if LABEL_NAMESPACE_NAME !in s.labels {
          return ClusterKey, null;
        }
        key := NamespaceKey(s.labels[LABEL_NAMESPACE_NAME]);
      case ByNode =>
        var nodeName := Lookup(s.labels, LABEL_NODENAME, "");
        if nodeName == "" || NodeKey(nodeName) !in batch.sets {
          return ClusterKey, null;
        }
        key := NodeKey(nodeName);
      case ByCluster =>
        key := ClusterKey;
    }
    if key in batch.sets {
      group := batch.sets[key];
    } else {
      group := new MetricSet(GroupLabels(grouping, ViewOf(s)));
    }
  }

  /** Adds the count and the metrics of a member to its group set. */
  method Accumulate(src: MetricSet, dst: MetricSet, spec: Spec) returns (err: bool)
    requires src != dst
    modifies dst`values
    ensures var r := Joined(spec, old(src.values), old(dst.values));
            (err <==> r.None?) && (!err ==> dst.values == r.value)
  {
    hide AggregateValues, AggregateCountValues;
    AggregateCount(src, dst, spec.count);
    err := Aggregate(src, dst, spec.metrics);
  }

  lemma GroupFound(batch: Batch, spec: Spec, k: ResourceKey, g: ResourceKey, group: MetricSet)
    requires k in batch.sets
    requires if g in batch.sets then group == batch.sets[g]
             else ViewOf(group) == SetView(map[], GroupLabels(spec.grouping, ViewOf(batch.sets[k])), [])
    ensures GroupSet(spec, SnapshotOf(batch), k, g) == ViewOf(group)
  {
    hide GroupLabels;
  }

  /** The body of the loop over the batch. */
  method VisitSet(batch: Batch, spec: Spec, k: ResourceKey) returns (ok: bool, ghost made: set<MetricSet>)
    requires Separate(batch.sets) && k in batch.sets
    requires IsPartOfGroup(spec.part, ViewOf(batch.sets[k])) ==>
               GroupKey(spec.grouping, batch.sets.Keys, ViewOf(batch.sets[k])) != Some(k)
    modifies batch`sets, batch.sets.Values
    ensures Separate(batch.sets) && Extends(old(batch.sets), batch.sets)
    ensures fresh(made) && Within(batch.sets, old(batch.sets), made)
    ensures ok <==> Visit(spec, old(SnapshotOf(batch)), k).Some?
    ensures ok ==> SnapshotOf(batch) == Visit(spec, old(SnapshotOf(batch)), k).value
  {
    hide *;
    made := {};
    ghost var before, sets := SnapshotOf(batch), batch.sets;
    var resourceSet := batch.sets[k];
    SnapshotEntries(batch);
    ExtendsSelf(batch.sets);
    WithinSelf(batch.sets);
    if !IsPartOfGroup(spec.part, ViewOf(resourceSet)) {
      VisitSkips(spec, before, k);
      return true, made;
    }
    var groupKey, groupSet := Group(batch, spec.grouping, resourceSet);
    if groupSet == null {
      VisitSkips(spec, before, k);
      return true, made;
    }
    GroupFound(batch, spec, k, groupKey, groupSet);
    ApartFrom(batch.sets, k, groupKey, groupSet);
    VisitIsJoin(spec, before, k, groupKey);
    ghost var src, dst := ViewOf(resourceSet), ViewOf(groupSet);
    ViewParts(resourceSet);
    ViewParts(groupSet);
    var err := Accumulate(resourceSet, groupSet, spec);
    if err {
      return false, made;
    }
    if groupKey !in batch.sets {
      made := {groupSet};
    }
    PutGroup(batch.sets, groupKey, groupSet);
    batch.sets := batch.sets[groupKey := groupSet];
    SnapshotChanged(batch, before, sets, groupKey, groupSet);
    ViewParts(groupSet);
    return true, made;
  }

  /** One turn of the loop, with s the batch at the start and done the sets visited so far. */
  method VisitNext(batch: Batch, spec: Spec, k: ResourceKey, ghost s: Snapshot, ghost done: set<ResourceKey>)
    returns (ok: bool, ghost made: set<MetricSet>)
    requires Separate(batch.sets) && spec.WellFormed() && WellKeyed(s)
    requires Gains(spec, s, SnapshotOf(batch), done) && k in batch.sets && k !in done && done <= s.Keys
    modifies batch`sets, batch.sets.Values
    ensures Separate(batch.sets) && Extends(old(batch.sets), batch.sets)
    ensures fresh(made) && Within(batch.sets, old(batch.sets), made)
    ensures !ok ==> !Consistent(spec, s)
    ensures ok ==> Gains(spec, s, SnapshotOf(batch), done + if k in s then {k} else {})
                   && (k !in s ==> batch.sets.Keys == old(batch.sets.Keys))
  {
    hide *;
    SnapshotAt(batch, k);
    PassStep(spec, s, SnapshotOf(batch), done, k);
    ok, made := VisitSet(batch, spec, k);
  }

  /** orig is what the loop starts with, done what it has visited of that; new keys may wait as well. */
  ghost predicate Worklist(keys: set<ResourceKey>, orig: set<ResourceKey>, done: set<ResourceKey>, todo: set<ResourceKey>) {
    done <= orig && orig - done <= todo <= keys && todo !! done
  }

  ghost function Left(orig: set<ResourceKey>, done: set<ResourceKey>): nat {
    |orig - done|
  }

  lemma WorkStart(keys: set<ResourceKey>)
    ensures Worklist(keys, keys, {}, keys)
  {
  }

  lemma WorkDone(keys: set<ResourceKey>, orig: set<ResourceKey>, done: set<ResourceKey>)
    requires Worklist(keys, orig, done, {})
    ensures done == orig
  {
    assert forall x :: x in orig ==> x in orig - done || x in done;
  }

  lemma WorkHas(keys: set<ResourceKey>, orig: set<ResourceKey>, done: set<ResourceKey>, todo: set<ResourceKey>,
                k: ResourceKey)
    requires Worklist(keys, orig, done, todo) && k in todo
    ensures k in keys && k !in done && done <= orig
  {
  }

  lemma WorkStep(keys: set<ResourceKey>, next: set<ResourceKey>, orig: set<ResourceKey>, done: set<ResourceKey>,
                 todo: set<ResourceKey>, k: ResourceKey)
    requires Worklist(keys, orig, done, todo) && k in todo && orig <= keys <= next
    requires k !in orig ==> next == keys
    ensures var after := done + if k in orig then {k} else {};
            Worklist(next, orig, after, todo - {k}) && Worklist(next, orig, after, todo - {k} + (next - keys))
            && (k in orig ==> Left(orig, after) < Left(orig, done))
            && (k !in orig ==> after == done && |todo - {k}| < |todo| && |todo - {k} + (next - keys)| < |todo|)
  {
    if k in orig {
      Smaller(orig - (done + {k}), orig - done);
    } else {
      Smaller(todo - {k}, todo);
      assert todo - {k} + (next - keys) == todo - {k};
    }
  }

  /** One spec over the whole batch. Go may or may not visit sets that are inserted during the loop. */
  method ProcessSpec(batch: Batch, spec: Spec) returns (ok: bool, ghost made: set<MetricSet>)
    requires Separate(batch.sets) && spec.WellFormed() && WellKeyed(SnapshotOf(batch))
    modifies batch`sets, batch.sets.Values
    ensures Separate(batch.sets) && Extends(old(batch.sets), batch.sets)
    ensures fresh(made) && Within(batch.sets, old(batch.sets), made)
    ensures ok <==> Consistent(spec, old(SnapshotOf(batch)))
    ensures ok ==> Gains(spec, old(SnapshotOf(batch)), SnapshotOf(batch), old(batch.sets.Keys))
  {
    hide *;
    ghost var was := batch.sets;
    ghost var s := SnapshotOf(batch);
    ghost var done: set<ResourceKey> := {};
    made := {};
    var todo := batch.sets.Keys;
    GainsNone(spec, s);
    WorkStart(todo);
    ExtendsSelf(was);
    WithinSelf(was);
    while todo != {}
      invariant Separate(batch.sets) && Extends(was, batch.sets)
      invariant s.Keys <= batch.sets.Keys
      invariant fresh(made) && Within(batch.sets, was, made)
      invariant Worklist(batch.sets.Keys, s.Keys, done, todo)
      invariant Gains(spec, s, SnapshotOf(batch), done)
      decreases Left(s.Keys, done), |todo|
    {
      var k :| k in todo;
      var keys := batch.sets.Keys;
      ghost var before := batch.sets;
      WorkHas(keys, s.Keys, done, todo, k);
      WithinAt(batch.sets, was, made);
      ghost var created: set<MetricSet>;
      ok, created := VisitNext(batch, spec, k, s, done);
      ExtendsTrans(was, before, batch.sets);
      ExtendsKeys(before, batch.sets);
      WithinStep(was, before, batch.sets, made, created);
      assert fresh(created);
      FreshUnion(made, created);
      made := made + created;
      if !ok {
        return false, made;
      }
      var inserted := batch.sets.Keys - keys;
      WorkStep(keys, batch.sets.Keys, s.Keys, done, todo, k);
      todo := todo - {k};
      if * {
        todo := todo + inserted;
      }
      done := done + if k in s then {k} else {};
    }
    WorkDone(batch.sets.Keys, s.Keys, done);
    GainsAreCompatible(spec, s, SnapshotOf(batch));
    return true, made;
  }

  /** What a visit does to the account, whether the set was there at the start or not. */
  lemma PassStep(spec: Spec, s: Snapshot, t: Snapshot, done: set<ResourceKey>, k: ResourceKey)
    requires spec.WellFormed() && WellKeyed(s) && Gains(spec, s, t, done)
    requires k in t && k !in done && done <= s.Keys
    ensures IsPartOfGroup(spec.part, t[k]) ==> GroupKey(spec.grouping, t.Keys, t[k]) != Some(k)
    ensures Visit(spec, t, k).None? ==> !Consistent(spec, s)
    ensures Visit(spec, t, k).Some? ==>
              Gains(spec, s, Visit(spec, t, k).value, done + if k in s then {k} else {})
              && (k !in s ==> Visit(spec, t, k).value.Keys == t.Keys)
  {
    hide *;
    NotItsOwnGroup(spec, s, t, done, k);
    if k in s {
      VisitStep(spec, s, t, done, k);
      if Visit(spec, t, k).None? {
        FailureIsInconsistent(spec, s, done + {k}, GroupOf(spec, s, k).value);
      }
    } else {
      NewSetsAreNoMembers(spec, s, t, done, k);
      assert done + {} == done;
    }
  }

  lemma Smaller<T>(a: set<T>, b: set<T>)
    requires a < b
    ensures |a| < |b|
  {
    assert b == a + (b - a);
    assert |b - a| > 0;
  }

  lemma NotItsOwnGroup(spec: Spec, s: Snapshot, t: Snapshot, done: set<ResourceKey>, k: ResourceKey)
    requires spec.WellFormed() && WellKeyed(s) && Gains(spec, s, t, done) && k in t
    ensures IsPartOfGroup(spec.part, t[k]) ==> GroupKey(spec.grouping, t.Keys, t[k]) != Some(k)
  {
    hide GroupGains, IsGroup, PodTakesUpResources, PodContainerTakesUpResources;
    if k in s {
      GroupIsStable(spec, s, t, done, k);
    } else {
      NewSetIsNoPart(spec, s, t, done, k);
    }
  }

  lemma NewSetIsNoPart(spec: Spec, s: Snapshot, t: Snapshot, done: set<ResourceKey>, k: ResourceKey)
    requires spec.WellFormed() && Gains(spec, s, t, done) && k in t && k !in s
    ensures !IsPartOfGroup(spec.part, t[k])
  {
    hide MetricGains, PodTakesUpResources, PodContainerTakesUpResources;
    assert LabelsGain(spec, s, done, k, t[k]);
    var j :| j in MembersOf(spec, s, done, k) && t[k].labels == GroupLabels(spec.grouping, s[j]);
  }

  lemma FailureIsInconsistent(spec: Spec, s: Snapshot, done: set<ResourceKey>, g: ResourceKey)
    requires done <= s.Keys && !GroupCompatible(spec, s, done, g)
    ensures !Consistent(spec, s)
  {
    hide GroupCompatible;
    if Consistent(spec, s) {
      CompatibleFromAll(spec, s, done, g);
    }
  }

  /** Group sets made on the way are keyed by what they are, so later specs can start from the result. */
  lemma WellKeyedKept(spec: Spec, s: Snapshot, t: Snapshot, done: set<ResourceKey>)
    requires spec.WellFormed() && WellKeyed(s) && Gains(spec, s, t, done)
    ensures WellKeyed(t)
  {
    hide MetricGains, PodTakesUpResources, PodContainerTakesUpResources;
    forall k | k in t
      ensures if k in s then t[k].labels == s[k].labels
              else IsGroup(spec, s, done, k)
                   && exists j :: j in MembersOf(spec, s, done, k) && t[k].labels == GroupLabels(spec.grouping, s[j])
    {
      assert IsGroup(spec, s, done, k) ==> LabelsGain(spec, s, done, k, t[k]);
    }
  }

  /** Each stage is the one before with one more spec applied. */
  ghost predicate Stages(specs: seq<Spec>, stages: seq<Snapshot>) {
    1 <= |stages| <= |specs| + 1
    && forall i :: 0 <= i < |stages| - 1 ==> Gains(specs[i], stages[i], stages[i + 1], stages[i].Keys)
  }

  class SumCountAggregator {
    const name: string
    const specs: seq<Spec>

    constructor (name: string, specs: seq<Spec>)
      ensures this.name == name && this.specs == specs
    {
      this.name, this.specs := name, specs;
    }

    /** On an error the batch is left as the failing spec found its groups, and is not returned. */
    method Process(batch: Batch) returns (ok: bool, ghost stages: seq<Snapshot>, ghost made: set<MetricSet>)
      requires Separate(batch.sets) && WellKeyed(SnapshotOf(batch))
      requires forall spec :: spec in specs ==> spec.WellFormed()
      modifies batch`sets, batch.sets.Values
      ensures Separate(batch.sets) && Extends(old(batch.sets), batch.sets)
      ensures fresh(made) && Within(batch.sets, old(batch.sets), made)
      ensures Stages(specs, stages) && stages[0] == old(SnapshotOf(batch))
      ensures ok ==> WellKeyed(SnapshotOf(batch))
      ensures if ok then |stages| == |specs| + 1 && stages[|specs|] == SnapshotOf(batch)
              else |stages| <= |specs| && !Consistent(specs[|stages| - 1], stages[|stages| - 1])
    {
      hide *;
      ghost var was := batch.sets;
      made := {};
      stages := [SnapshotOf(batch)];
      ExtendsSelf(was);
      WithinSelf(was);
      StagesStart(specs, stages[0]);
      for i := 0 to |specs|
        invariant Separate(batch.sets) && Extends(was, batch.sets)
        invariant fresh(made) && Within(batch.sets, was, made)
        invariant Stages(specs, stages) && |stages| == i + 1 && stages[0] == old(SnapshotOf(batch))
        invariant stages[i] == SnapshotOf(batch) && WellKeyed(stages[i])
      {
        ghost var before := batch.sets;
        WithinAt(before, was, made);
        ghost var created: set<MetricSet>;
        ok, created := ProcessSpec(batch, specs[i]);
        ExtendsTrans(was, before, batch.sets);
        WithinStep(was, before, batch.sets, made, created);
        assert fresh(created);
        FreshUnion(made, created);
        made := made + created;
        if !ok {
          return false, stages, made;
        }
        WellKeyedKept(specs[i], stages[i], SnapshotOf(batch), stages[i].Keys);
        StagesStep(specs, stages, SnapshotOf(batch));
        stages := stages + [SnapshotOf(batch)];
      }
      return true, stages, made;
    }
  }

  lemma StagesStart(specs: seq<Spec>, s: Snapshot)
    ensures Stages(specs, [s])
  {
  }

  lemma StagesStep(specs: seq<Spec>, stages: seq<Snapshot>, t: Snapshot)
    requires Stages(specs, stages) && |stages| <= |specs|
    requires Gains(specs[|stages| - 1], stages[|stages| - 1], t, stages[|stages| - 1].Keys)
    ensures Stages(specs, stages + [t])
  {
    hide Gains;
  }

}
