/** The sets of a batch as values, and how they come to be shared or new while a processor runs. */
module BatchSets {
  import opened Metrics

  datatype SetView = SetView(values: map<string, Value>, labels: map<string, string>, labeled: seq<LabeledValue>)

  type Snapshot = map<ResourceKey, SetView>

  function ViewOf(s: MetricSet): SetView
    reads s
  {
    SetView(s.values, s.labels, s.labeledValues)
  }

  function SnapshotOf(batch: Batch): (r: Snapshot)
    reads batch, batch.sets.Values
    ensures r.Keys == batch.sets.Keys
  {
    map k | k in batch.sets :: ViewOf(batch.sets[k])
  }

  function ViewsOf(sets: map<ResourceKey, MetricSet>): (r: Snapshot)
    reads sets.Values
    ensures r.Keys == sets.Keys
  {
    map k | k in sets :: ViewOf(sets[k])
  }

  lemma SnapshotIsViews(batch: Batch)
    ensures SnapshotOf(batch) == ViewsOf(batch.sets)
  {
  }

  lemma ViewsEntries(sets: map<ResourceKey, MetricSet>)
    ensures forall k :: k in sets ==> ViewsOf(sets)[k] == ViewOf(sets[k])
  {
  }

  lemma ViewsChanged(before: Snapshot, sets: map<ResourceKey, MetricSet>, g: ResourceKey, group: MetricSet)
    requires before.Keys == sets.Keys && forall k :: k in sets && k != g ==> ViewOf(sets[k]) == before[k]
    ensures ViewsOf(sets[g := group]) == before[g := ViewOf(group)]
  {
    hide ViewOf;
  }

  lemma ViewParts(s: MetricSet)
    ensures ViewOf(s) == SetView(s.values, s.labels, s.labeledValues)
  {
  }

  lemma SnapshotAt(batch: Batch, k: ResourceKey)
    requires k in batch.sets
    ensures SnapshotOf(batch)[k] == ViewOf(batch.sets[k])
  {
  }

  lemma SnapshotEntries(batch: Batch)
    ensures forall k :: k in batch.sets ==> SnapshotOf(batch)[k] == ViewOf(batch.sets[k])
  {
  }

  lemma SnapshotChanged(batch: Batch, before: Snapshot, sets: map<ResourceKey, MetricSet>, g: ResourceKey,
                        group: MetricSet)
    requires batch.sets == sets[g := group] && before.Keys == sets.Keys
    requires forall k :: k in sets && k != g ==> ViewOf(sets[k]) == before[k]
    ensures SnapshotOf(batch) == before[g := ViewOf(group)]
  {
    hide ViewOf;
  }

  /** No set is in the batch under two keys. */
  ghost predicate Separate(sets: map<ResourceKey, MetricSet>) {
    forall j, k :: j in sets && k in sets && j != k ==> sets[j] != sets[k]
  }

  lemma ApartFrom(sets: map<ResourceKey, MetricSet>, k: ResourceKey, g: ResourceKey, group: MetricSet)
    requires Separate(sets) && k in sets && g != k
    requires if g in sets then group == sets[g] else group !in sets.Values
    ensures forall j :: j in sets && j != g ==> sets[j] != group
    ensures sets[k] != group
  {
  }

  /** The entries that were there are still the same objects. */
  ghost predicate Extends(was: map<ResourceKey, MetricSet>, sets: map<ResourceKey, MetricSet>) {
    was.Keys <= sets.Keys && forall k :: k in was ==> sets[k] == was[k]
  }

  lemma ExtendsSelf(a: map<ResourceKey, MetricSet>)
    ensures Extends(a, a)
  {
  }

  lemma ExtendsTrans(a: map<ResourceKey, MetricSet>, b: map<ResourceKey, MetricSet>, c: map<ResourceKey, MetricSet>)
    requires Extends(a, b) && Extends(b, c)
    ensures Extends(a, c)
  {
  }

  lemma ExtendsKeys(a: map<ResourceKey, MetricSet>, b: map<ResourceKey, MetricSet>)
    requires Extends(a, b)
    ensures a.Keys <= b.Keys
  {
  }

  /** Every set is one that was there or one of those made. */
  ghost predicate Within(sets: map<ResourceKey, MetricSet>, was: map<ResourceKey, MetricSet>, made: set<MetricSet>) {
    sets.Values <= was.Values + made
  }

  lemma WithinSelf(was: map<ResourceKey, MetricSet>)
    ensures Within(was, was, {})
  {
  }

  lemma WithinStep(was: map<ResourceKey, MetricSet>, before: map<ResourceKey, MetricSet>,
                   now: map<ResourceKey, MetricSet>, made: set<MetricSet>, created: set<MetricSet>)
    requires Within(before, was, made) && Within(now, before, created)
    ensures Within(now, was, made + created)
  {
  }

  lemma WithinAt(sets: map<ResourceKey, MetricSet>, was: map<ResourceKey, MetricSet>, made: set<MetricSet>)
    requires Within(sets, was, made)
    ensures forall o :: o in sets.Values ==> o in was.Values || o in made
  {
  }

  lemma PutGroup(sets: map<ResourceKey, MetricSet>, g: ResourceKey, group: MetricSet)
    requires Separate(sets) && if g in sets then group == sets[g] else group !in sets.Values
    ensures Separate(sets[g := group]) && Extends(sets, sets[g := group])
    ensures Within(sets[g := group], sets, if g in sets then {} else {group})
  {
  }

  twostate lemma FreshUnion(new a: set<MetricSet>, new b: set<MetricSet>)
    requires fresh(a) && fresh(b)
    ensures fresh(a + b)
  {
  }
}
