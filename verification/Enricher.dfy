/**
 The pod-based enricher (collector/plugins/processors/pod_based_enricher.go): it drops the sets of
 unknown pods, and makes a set for every pod of a container and every container of a running pod.

 The pod lister is a partial function that stays the same during a call, and a pod is found under its
 own namespace and name. Keys are built from labels.
 */
module Enricher {
  import opened BatchSets
  import opened ContainerInfo
  import opened Metrics
  import opened Wrappers

  /** What the enricher reads of a pod; copied is what the label copier writes for the pod's labels. */
  datatype Pod = Pod(namespace: string, name: string, uid: string, phase: string, startTime: int,
                     owned: bool, workloadName: string, workloadKind: string,
                     copied: map<string, string>, containers: seq<Container>, statuses: seq<ContainerStatus>)

  datatype PodId = PodId(namespace: string, name: string)

  type Lister = map<PodId, Pod>

  /** Pods are listed under their own names, and the copier leaves the identifying labels alone. */
  ghost predicate Proper(lister: Lister) {
    forall id :: id in lister ==>
      lister[id].namespace == id.namespace && lister[id].name == id.name
      && LABEL_TYPE !in lister[id].copied && LABEL_NAMESPACE_NAME !in lister[id].copied
      && LABEL_POD_NAME !in lister[id].copied
  }

  const RUNNING := "Running"
  const POD_PHASE_RUNNING := 2
  const LABEL_CONTAINER_NAME := "container_name"
  const LABEL_CONTAINER_BASE_IMAGE := "container_base_image"
  const LABEL_WORKLOAD_NAME := "workload_name"
  const LABEL_WORKLOAD_KIND := "workload_kind"
  const LABEL_AVAILABLE := "available"
  const LABEL_DESIRED := "desired"
  const LABEL_REASON := "reason"
  const LABEL_MESSAGE := "message"
  const METRIC_POD_PHASE := "status/phase"
  const METRIC_WORKLOAD_STATUS := "workload/status"

  /** The labels that say what a set is about. */
  datatype Identity = Identity(kind: string, namespace: string, pod: string)

  function IdentityOf(labels: map<string, string>): Identity {
    Identity(Lookup(labels, LABEL_TYPE, ""), Lookup(labels, LABEL_NAMESPACE_NAME, ""), Lookup(labels, LABEL_POD_NAME, ""))
  }

  /** The key of a pod or container set is the one built from its labels. */
  predicate Fits(k: ResourceKey, id: Identity) {
    (id.kind == TYPE_POD <==> k.PodKey?) && (id.kind == TYPE_POD_CONTAINER <==> k.PodContainerKey?)
    && (k.PodKey? || k.PodContainerKey? ==> k.namespace == id.namespace && k.pod == id.pod)
  }

  ghost predicate AllFit(sets: map<ResourceKey, MetricSet>)
    reads sets.Values
  {
    forall k :: k in sets ==> Fits(k, IdentityOf(sets[k].labels))
  }

  // ---- which sets there are -------------------------------------------------------------------

  predicate OfPod(k: ResourceKey) {
    k.PodKey? || k.PodContainerKey?
  }

  function PodIdOf(k: ResourceKey): PodId
    requires OfPod(k)
  {
    PodId(k.namespace, k.pod)
  }

  predicate Running(lister: Lister, id: PodId) {
    id in lister && lister[id].phase == RUNNING
  }

  predicate HasContainer(pod: Pod, name: string) {
    exists i :: 0 <= i < |pod.containers| && pod.containers[i].name == name
  }

  /** A set of the pod, or of a container whose pod has no set in the batch, has been visited. */
  ghost predicate Informed(keys: set<ResourceKey>, visited: set<ResourceKey>, id: PodId) {
    var podKey := PodKey(id.namespace, id.name);
    podKey in visited
    || (podKey !in keys && exists c :: PodContainerKey(id.namespace, id.name, c) in visited)
  }

  /** The sets made after some of the sets at the given keys have been visited. */
  ghost predicate Made(lister: Lister, keys: set<ResourceKey>, visited: set<ResourceKey>, k: ResourceKey) {
    match k
    case PodKey(ns, n) => PodId(ns, n) in lister && k !in keys && Informed(keys, visited, PodId(ns, n))
    case PodContainerKey(ns, n, c) =>
      k !in keys && Running(lister, PodId(ns, n)) && HasContainer(lister[PodId(ns, n)], c)
      && Informed(keys, visited, PodId(ns, n))
    case WorkloadStatusPodKey(ns, n) =>
      Running(lister, PodId(ns, n)) && !lister[PodId(ns, n)].owned && Informed(keys, visited, PodId(ns, n))
    case _ => false
  }

  /** The sets of the batch that are left after some have been visited: those of unknown pods go. */
  predicate Kept(lister: Lister, visited: set<ResourceKey>, k: ResourceKey) {
    k in visited && OfPod(k) ==> PodIdOf(k) in lister
  }

  /** The keys of the result, whatever the order of the visits. */
  ghost predicate InResult(lister: Lister, keys: set<ResourceKey>, k: ResourceKey) {
    (k in keys && Kept(lister, keys, k)) || Made(lister, keys, keys, k)
  }

  /** Every container set left has its pod's set, of a known pod. */
  lemma ContainersHavePods(lister: Lister, keys: set<ResourceKey>, k: ResourceKey)
    requires InResult(lister, keys, k) && k.PodContainerKey?
    ensures PodIdOf(k) in lister && InResult(lister, keys, PodKey(k.namespace, k.pod))
  {
    var podKey := PodKey(k.namespace, k.pod);
    if podKey !in keys && k in keys {
      assert PodContainerKey(k.namespace, k.pod, k.container) in keys;
    }
  }

  /** Every pod set left is of a known pod, and where that runs every container of its spec has a set. */
  lemma PodsHaveContainers(lister: Lister, keys: set<ResourceKey>, k: ResourceKey, c: string)
    requires InResult(lister, keys, k) && k.PodKey?
    ensures PodIdOf(k) in lister
    ensures Running(lister, PodIdOf(k)) && HasContainer(lister[PodIdOf(k)], c) ==>
              InResult(lister, keys, PodContainerKey(k.namespace, k.pod, c))
  {
  }

  /** Nothing else is made: a set that is not in the batch belongs to a known pod that some set in the batch names. */
  lemma MadeForVisitedPods(lister: Lister, keys: set<ResourceKey>, k: ResourceKey)
    requires Made(lister, keys, keys, k)
    ensures k.PodKey? || k.PodContainerKey? || k.WorkloadStatusPodKey?
    ensures var id := PodId(k.namespace, k.pod);
            id in lister && exists j :: j in keys && OfPod(j) && PodIdOf(j) == id
  {
    var id := PodId(k.namespace, k.pod);
    if PodKey(k.namespace, k.pod) in keys {
    } else {
      var c :| PodContainerKey(id.namespace, id.name, c) in keys;
      assert PodIdOf(PodContainerKey(id.namespace, id.name, c)) == id;
    }
  }

  // ---- what one visit adds --------------------------------------------------------------------

  /** A set that addPodInfo makes for a pod, given the keys that are already taken. */
  predicate StubFor(pod: Pod, present: set<ResourceKey>, k: ResourceKey) {
    pod.phase == RUNNING
    && match k
       case PodContainerKey(ns, n, c) => ns == pod.namespace && n == pod.name && HasContainer(pod, c) && k !in present
       case WorkloadStatusPodKey(ns, n) => ns == pod.namespace && n == pod.name && !pod.owned
       case _ => false
  }

  lemma UnknownAddsNothing(lister: Lister, keys: set<ResourceKey>, visited: set<ResourceKey>, k: ResourceKey, j: ResourceKey)
    requires !OfPod(k) || PodIdOf(k) !in lister
    ensures Made(lister, keys, visited + {k}, j) <==> Made(lister, keys, visited, j)
  {
    if j.PodKey? || j.PodContainerKey? || j.WorkloadStatusPodKey? {
      var id := PodId(j.namespace, j.pod);
      if id in lister {
        InformedStep(keys, visited, k, id);
      }
    }
  }

  /** Whether a visit informs a pod. */
  lemma InformedStep(keys: set<ResourceKey>, visited: set<ResourceKey>, k: ResourceKey, id: PodId)
    ensures Informed(keys, visited + {k}, id) <==>
              Informed(keys, visited, id)
              || k == PodKey(id.namespace, id.name)
              || (k.PodContainerKey? && PodIdOf(k) == id && PodKey(id.namespace, id.name) !in keys)
  {
    if k.PodContainerKey? && PodIdOf(k) == id {
      assert PodContainerKey(id.namespace, id.name, k.container) in visited + {k};
    }
    if c :| PodContainerKey(id.namespace, id.name, c) in visited {
      assert PodContainerKey(id.namespace, id.name, c) in visited + {k};
    }
  }

  lemma PodAdds(lister: Lister, keys: set<ResourceKey>, visited: set<ResourceKey>, k: ResourceKey, j: ResourceKey)
    requires Proper(lister) && k.PodKey? && k in keys && PodIdOf(k) in lister
    ensures Made(lister, keys, visited + {k}, j) <==> Made(lister, keys, visited, j) || StubFor(lister[PodIdOf(k)], keys, j)
  {
    if j.PodKey? || j.PodContainerKey? || j.WorkloadStatusPodKey? {
      InformedStep(keys, visited, k, PodId(j.namespace, j.pod));
    }
  }

  lemma ContainerAdds(lister: Lister, keys: set<ResourceKey>, visited: set<ResourceKey>, k: ResourceKey, j: ResourceKey)
    requires Proper(lister) && k.PodContainerKey? && PodIdOf(k) in lister
    ensures var podKey := PodKey(k.namespace, k.pod);
            Made(lister, keys, visited + {k}, j) <==>
              Made(lister, keys, visited, j)
              || (podKey !in keys && (j == podKey || StubFor(lister[PodIdOf(k)], keys, j)))
  {
    if j.PodKey? || j.PodContainerKey? || j.WorkloadStatusPodKey? {
      InformedStep(keys, visited, k, PodId(j.namespace, j.pod));
    }
  }

  /** A pod that was made has had its sets made with it. */
  lemma MadeTogether(lister: Lister, keys: set<ResourceKey>, visited: set<ResourceKey>, id: PodId, j: ResourceKey)
    requires Proper(lister) && Made(lister, keys, visited, PodKey(id.namespace, id.name))
    requires StubFor(lister[id], keys, j)
    ensures Made(lister, keys, visited, j)
  {
  }

  // ---- labels and values ----------------------------------------------------------------------

  /** The labels that addPodInfo leaves on the set of a running pod. */
  function PodInfoLabels(labels: map<string, string>, pod: Pod): map<string, string> {
    (labels[LABEL_POD_ID := pod.uid] + pod.copied)[LABEL_WORKLOAD_NAME := pod.workloadName][LABEL_WORKLOAD_KIND := pod.workloadKind]
  }

  function PhaseValue(pod: Pod): LabeledValue {
    LabeledValue(METRIC_POD_PHASE, map["phase" := pod.phase], Value(POD_PHASE_RUNNING, 0.0, ValueInt64))
  }

  function WithImage(labels: map<string, string>, pod: Pod, name: string): map<string, string> {
    var spec := FindContainer(pod.containers, name);
    if LABEL_CONTAINER_BASE_IMAGE in labels || spec.None? then labels
    else labels[LABEL_CONTAINER_BASE_IMAGE := spec.value.image]
  }

  /** The values of a container set with the resources of its spec. */
  function WithResources(values: map<string, Value>, pod: Pod, name: string): map<string, Value> {
    var spec := FindContainer(pod.containers, name);
    if spec.None? then values else values + ResourceValues(spec.value)
  }

  /** The values of a container set with the restarts of its status. */
  function WithRestarts(values: map<string, Value>, pod: Pod, name: string): map<string, Value> {
    var status := FindStatus(pod.statuses, name);
    if status.None? then values else values[METRIC_RESTART_COUNT := IntValue(status.value.restartCount)]
  }

  /** The labeled values of a container set with its state; since is the time of the last collection. */
  function WithStatus(labeled: seq<LabeledValue>, pod: Pod, since: int, name: string): seq<LabeledValue> {
    var status := FindStatus(pod.statuses, name);
    if status.None? then labeled else labeled + [StatusValue(since, status.value)]
  }

  /** What addContainerInfo makes of a container set. */
  function ContainerInfoOf(v: SetView, pod: Pod, since: int, name: string): SetView {
    SetView(WithRestarts(WithResources(v.values, pod, name), pod, name), ContainerInfoLabels(v.labels, pod, name),
            WithStatus(v.labeled, pod, since, name))
  }

  /** What addPodInfo makes of the set of a running pod. */
  function PodInfoOf(v: SetView, pod: Pod): SetView {
    SetView(v.values, PodInfoLabels(v.labels, pod), v.labeled + [PhaseValue(pod)])
  }

  /** The labels that addContainerInfo leaves on a container set. */
  function ContainerInfoLabels(labels: map<string, string>, pod: Pod, name: string): map<string, string> {
    WithImage(labels, pod, name)[LABEL_WORKLOAD_NAME := pod.workloadName][LABEL_WORKLOAD_KIND := pod.workloadKind]
      [LABEL_POD_ID := pod.uid] + pod.copied
  }

  /** What a visit makes of a set of a known pod. */
  function Enriched(pod: Pod, since: int, k: ResourceKey, v: SetView): SetView {
    match k
    case PodKey(_, _) => if pod.phase == RUNNING then PodInfoOf(v, pod) else v
    case PodContainerKey(_, _, c) => ContainerInfoOf(v, pod, since, c)
    case _ => v
  }

  lemma LabelsDiffer()
    ensures LABEL_POD_ID !in {LABEL_TYPE, LABEL_NAMESPACE_NAME, LABEL_POD_NAME}
    ensures LABEL_WORKLOAD_NAME !in {LABEL_TYPE, LABEL_NAMESPACE_NAME, LABEL_POD_NAME}
    ensures LABEL_WORKLOAD_KIND !in {LABEL_TYPE, LABEL_NAMESPACE_NAME, LABEL_POD_NAME}
    ensures LABEL_CONTAINER_BASE_IMAGE !in {LABEL_TYPE, LABEL_NAMESPACE_NAME, LABEL_POD_NAME}
  {
    assert LABEL_POD_ID[4] == 'i' && LABEL_POD_NAME[4] == 'n';
    assert |LABEL_TYPE| == 4 && |LABEL_NAMESPACE_NAME| == 14;
  }

  ghost predicate SparesIdentity(pod: Pod) {
    LABEL_TYPE !in pod.copied && LABEL_NAMESPACE_NAME !in pod.copied && LABEL_POD_NAME !in pod.copied
  }

  lemma IdentityKept(labels: map<string, string>, pod: Pod, name: string)
    requires SparesIdentity(pod)
    ensures IdentityOf(PodInfoLabels(labels, pod)) == IdentityOf(labels)
    ensures IdentityOf(ContainerInfoLabels(labels, pod, name)) == IdentityOf(labels)
  {
    LabelsDiffer();
    hide FindContainer;
  }

  // ---- the processor --------------------------------------------------------------------------

  function ContainerStubLabels(pod: Pod, c: Container, labels: map<string, string>): map<string, string> {
    map[LABEL_TYPE := TYPE_POD_CONTAINER, LABEL_NAMESPACE_NAME := pod.namespace, LABEL_POD_NAME := pod.name,
        LABEL_CONTAINER_NAME := c.name, LABEL_CONTAINER_BASE_IMAGE := c.image, LABEL_POD_ID := pod.uid,
        LABEL_NODENAME := Lookup(labels, LABEL_NODENAME, ""), LABEL_HOSTNAME := Lookup(labels, LABEL_HOSTNAME, ""),
        LABEL_HOST_ID := Lookup(labels, LABEL_HOST_ID, ""),
        LABEL_WORKLOAD_NAME := Lookup(labels, LABEL_WORKLOAD_NAME, ""),
        LABEL_WORKLOAD_KIND := Lookup(labels, LABEL_WORKLOAD_KIND, "")] + pod.copied
  }

  function PodStubLabels(namespace: string, podName: string, labels: map<string, string>): map<string, string> {
    map[LABEL_TYPE := TYPE_POD, LABEL_NAMESPACE_NAME := namespace, LABEL_POD_NAME := podName,
        LABEL_NODENAME := Lookup(labels, LABEL_NODENAME, ""), LABEL_HOSTNAME := Lookup(labels, LABEL_HOSTNAME, ""),
        LABEL_HOST_ID := Lookup(labels, LABEL_HOST_ID, "")]
  }

  /** A pod without owner is available unless one of its containers has a fault. */
  function WorkloadLabels(pod: Pod, labels: map<string, string>): map<string, string> {
    map[LABEL_NAMESPACE_NAME := pod.namespace,
        LABEL_WORKLOAD_NAME := Lookup(labels, LABEL_WORKLOAD_NAME, ""),
        LABEL_WORKLOAD_KIND := Lookup(labels, LABEL_WORKLOAD_KIND, "")]
    + FaultLabels(FirstFault(pod.statuses))
    + map[LABEL_AVAILABLE := if FirstFault(pod.statuses).Some? then "0" else "1", LABEL_DESIRED := "1"]
  }

  /** The labels that a workload set starts with. */
  function WorkloadStart(pod: Pod, labels: map<string, string>): map<string, string> {
    map[LABEL_NAMESPACE_NAME := pod.namespace,
        LABEL_WORKLOAD_NAME := Lookup(labels, LABEL_WORKLOAD_NAME, ""),
        LABEL_WORKLOAD_KIND := Lookup(labels, LABEL_WORKLOAD_KIND, ""),
        LABEL_AVAILABLE := Lookup(labels, LABEL_AVAILABLE, ""),
        LABEL_DESIRED := Lookup(labels, LABEL_DESIRED, "")]
  }

  lemma WorkloadLabelsAre(pod: Pod, labels: map<string, string>)
    ensures var start, fault := WorkloadStart(pod, labels), FirstFault(pod.statuses);
            WorkloadLabels(pod, labels)
            == (if fault.Some? then start[LABEL_REASON := fault.value.reason][LABEL_MESSAGE := fault.value.message] else start)
               [LABEL_AVAILABLE := Decimal(if fault.Some? then 0 else 1)][LABEL_DESIRED := "1"]
  {
    hide FirstFault, Lookup;
    assert Decimal(0) == "0" && Decimal(1) == "1";
  }

  function FaultLabels(fault: Option<Fault>): map<string, string> {
    match fault
    case None => map[]
    case Some(f) => map[LABEL_REASON := f.reason, LABEL_MESSAGE := f.message]
  }

  function WorkloadStatusValue(pod: Pod): LabeledValue {
    LabeledValue(METRIC_WORKLOAD_STATUS, map[], IntValue(if FirstFault(pod.statuses).Some? then 0 else 1))
  }

  // ---- what is new ----------------------------------------------------------------------------

  /** A container set that was made, with the first n statuses of its pod. */
  ghost predicate ContainerView(pod: Pod, since: int, n: nat, name: string, v: SetView)
    requires n <= |pod.statuses|
  {
    var spec := FindContainer(pod.containers, name);
    spec.Some? && v.values == ResourceValues(spec.value) && v.labeled == StatusValues(since, pod.statuses[..n], name)
    && exists labels :: v.labels == ContainerStubLabels(pod, spec.value, labels)
  }

  /** A pod set that was made, with the pod's information if it runs. */
  ghost predicate PodView(pod: Pod, v: SetView) {
    exists labels :: v == NewPodView(pod, labels)
  }

  function NewPodView(pod: Pod, labels: map<string, string>): SetView {
    var v := SetView(map[], PodStubLabels(pod.namespace, pod.name, labels), []);
    if pod.phase == RUNNING then PodInfoOf(v, pod) else v
  }

  function NewWorkloadView(pod: Pod, labels: map<string, string>): SetView {
    SetView(map[], WorkloadLabels(pod, labels), [WorkloadStatusValue(pod)])
  }

  ghost predicate WorkloadView(pod: Pod, v: SetView) {
    exists labels :: v == NewWorkloadView(pod, labels)
  }

  /** A set that was made for the pod holds exactly what the pod says, the labels of its node aside. */
  ghost predicate NewView(pod: Pod, since: int, k: ResourceKey, v: SetView) {
    match k
    case PodContainerKey(_, _, c) => ContainerView(pod, since, |pod.statuses|, c, v)
    case PodKey(_, _) => PodView(pod, v)
    case WorkloadStatusPodKey(_, _) => WorkloadView(pod, v)
    case _ => false
  }

  predicate OfAnyPod(k: ResourceKey) {
    k.PodKey? || k.PodContainerKey? || k.WorkloadStatusPodKey?
  }

  ghost predicate NewSet(lister: Lister, since: int, k: ResourceKey, v: SetView) {
    OfAnyPod(k) && PodId(k.namespace, k.pod) in lister && NewView(lister[PodId(k.namespace, k.pod)], since, k, v)
  }

  ghost predicate AllNew(lister: Lister, since: int, views: Snapshot) {
    forall k :: k in views ==> NewSet(lister, since, k, views[k])
  }

  ghost predicate NoContainers(namespace: string, pod: string, made: set<ResourceKey>) {
    forall c :: PodContainerKey(namespace, pod, c) !in made
  }

  /** No set made so far is of a container or the workload of the pod. */
  ghost predicate NoneYet(namespace: string, pod: string, made: set<ResourceKey>) {
    WorkloadStatusPodKey(namespace, pod) !in made && NoContainers(namespace, pod, made)
  }

  /** The sets that are new are different ones, all among those created, which the sets before are not. */
  ghost predicate Apart(before: map<ResourceKey, MetricSet>, made: map<ResourceKey, MetricSet>, created: set<MetricSet>) {
    (forall k :: k in made ==> (made[k] in created <==> k !in before))
    && forall j, k :: j in made && k in made && j !in before && k !in before && j != k ==> made[j] != made[k]
  }

  lemma ApartAt(before: map<ResourceKey, MetricSet>, made: map<ResourceKey, MetricSet>, created: set<MetricSet>, k: ResourceKey)
    requires Apart(before, made, created) && k !in before && k in made
    ensures made[k] in created && forall j :: j in made && j != k ==> made[j] != made[k]
  {
  }

  lemma StubsStart(pod: Pod, since: int, newMs: map<ResourceKey, MetricSet>)
    ensures StubsWith(pod, since, 0, newMs.Keys, ViewsOf(newMs)) && Apart(newMs, newMs, {})
  {
  }

  lemma OneMoreStub(pod: Pod, since: int, newMs: map<ResourceKey, MetricSet>, made: map<ResourceKey, MetricSet>,
                    created: set<MetricSet>, name: string, containerMs: MetricSet)
    requires StubsWith(pod, since, 0, newMs.Keys, ViewsOf(made)) && Apart(newMs, made, created)
    requires ContainerView(pod, since, 0, name, ViewOf(containerMs)) && containerMs !in made.Values
    requires newMs.Keys <= made.Keys && PodContainerKey(pod.namespace, pod.name, name) !in made
    ensures var k := PodContainerKey(pod.namespace, pod.name, name);
            StubsWith(pod, since, 0, newMs.Keys, ViewsOf(made[k := containerMs]))
            && Apart(newMs, made[k := containerMs], created + {containerMs})
  {
    hide ViewOf, ViewsOf, ContainerView;
    var k := PodContainerKey(pod.namespace, pod.name, name);
    assert forall j :: j in made ==> made[j] in made.Values;
    ViewsEntries(made);
    ViewsChanged(ViewsOf(made), made, k, containerMs);
  }

  lemma StubView(pod: Pod, since: int, spec: Container, labels: map<string, string>)
    requires FindContainer(pod.containers, spec.name) == Some(spec)
    ensures ContainerView(pod, since, 0, spec.name, SetView(ResourceValues(spec), ContainerStubLabels(pod, spec, labels), []))
  {
    hide ContainerStubLabels, ResourceValues;
    assert StatusValues(since, pod.statuses[..0], spec.name) == [];
  }

  lemma FirstOfName(pod: Pod, i: nat, present: set<ResourceKey>)
    requires i < |pod.containers|
    requires var k := PodContainerKey(pod.namespace, pod.name, pod.containers[i].name);
             k !in present && !ContainerStub(pod, i, present, k)
    ensures FindContainer(pod.containers, pod.containers[i].name) == Some(pod.containers[i])
  {
    FindContainerIs(pod.containers, pod.containers[i].name, i);
  }

  lemma NothingNew(pod: Pod, since: int, newMs: map<ResourceKey, MetricSet>)
    ensures Extends(newMs, newMs) && NewFor(pod, since, newMs.Keys, ViewsOf(newMs))
  {
  }

  lemma WorkloadIsNew(pod: Pod, since: int, newMs: map<ResourceKey, MetricSet>, workloadMs: MetricSet)
    requires WorkloadView(pod, ViewOf(workloadMs)) && NoneYet(pod.namespace, pod.name, newMs.Keys)
    ensures var made := newMs[WorkloadStatusPodKey(pod.namespace, pod.name) := workloadMs];
            Extends(newMs, made) && NewFor(pod, since, newMs.Keys, ViewsOf(made))
  {
    hide ViewOf, ViewsOf, WorkloadView;
    ViewsEntries(newMs[WorkloadStatusPodKey(pod.namespace, pod.name) := workloadMs]);
  }

  lemma NewForTrans(pod: Pod, since: int, before: set<ResourceKey>, views: Snapshot, after: Snapshot)
    requires NewFor(pod, since, before, views) && NewFor(pod, since, views.Keys, after)
    requires forall k :: k in views ==> k in after && after[k] == views[k]
    ensures NewFor(pod, since, before, after)
  {
    hide NewView;
  }

  lemma NothingAdds<K, V>(m: map<K, V>)
    ensures map[] + m == m
  {
  }

  lemma NoContainersWith(namespace: string, pod: string, made: set<ResourceKey>, more: set<ResourceKey>)
    requires NoneYet(namespace, pod, made) && more <= made + {WorkloadStatusPodKey(namespace, pod)}
    ensures NoContainers(namespace, pod, more)
  {
  }

  lemma NoneYetWithPod(pod: Pod, made: set<ResourceKey>)
    requires NoneYet(pod.namespace, pod.name, made)
    ensures NoneYet(pod.namespace, pod.name, made + {PodKey(pod.namespace, pod.name)})
  {
  }

  lemma GrownExtends(before: map<ResourceKey, MetricSet>, made: map<ResourceKey, MetricSet>, created: set<MetricSet>)
    requires Grown(before, made, created) && Apart(before, made, created)
    ensures Extends(before, made)
  {
  }

  lemma InfoLabels(v: SetView, pod: Pod, since: int, name: string)
    ensures ContainerInfoOf(v, pod, since, name).labels == ContainerInfoLabels(v.labels, pod, name)
  {
  }

  /** A pod set made for a container, and what was made with it. */
  lemma NewPodIsNew(pod: Pod, since: int, newMs: map<ResourceKey, MetricSet>, podMs: MetricSet,
                    labels: map<string, string>, made: map<ResourceKey, MetricSet>)
    requires var before := newMs[PodKey(pod.namespace, pod.name) := podMs];
             Extends(before, made) && NewFor(pod, since, before.Keys, ViewsOf(made))
    requires PodKey(pod.namespace, pod.name) !in newMs
    requires var v := SetView(map[], PodStubLabels(pod.namespace, pod.name, labels), []);
             ViewOf(podMs) == if pod.phase == RUNNING then PodInfoOf(v, pod) else v
    ensures Extends(newMs, made) && NewFor(pod, since, newMs.Keys, ViewsOf(made))
  {
    var podKey := PodKey(pod.namespace, pod.name);
    assert ViewOf(podMs) == NewPodView(pod, labels);
    hide NewPodView, NewFor, ViewOf, PodInfoOf, PodStubLabels;
    ViewsEntries(made);
    assert made[podKey] == podMs;
    assert newMs[podKey := podMs].Keys == newMs.Keys + {podKey};
    hide ViewsOf;
    NewPodKey(pod, since, newMs.Keys, ViewsOf(made), labels);
  }

  lemma NewPodKey(pod: Pod, since: int, before: set<ResourceKey>, views: Snapshot, labels: map<string, string>)
    requires var podKey := PodKey(pod.namespace, pod.name);
             NewFor(pod, since, before + {podKey}, views) && podKey in views && views[podKey] == NewPodView(pod, labels)
    ensures NewFor(pod, since, before, views)
  {
    PodViewIsNew(pod, since, labels);
    hide NewPodView, NewView;
  }

  lemma PodViewIsNew(pod: Pod, since: int, labels: map<string, string>)
    ensures NewView(pod, since, PodKey(pod.namespace, pod.name), NewPodView(pod, labels))
  {
    hide NewPodView;
  }

  /** A visit that informs a pod is the first to do so. */
  ghost predicate Uninformed(present: set<ResourceKey>, made: set<ResourceKey>, k: ResourceKey) {
    OfPod(k) && (k.PodKey? || (PodKey(k.namespace, k.pod) !in present && PodKey(k.namespace, k.pod) !in made))
    ==> NoneYet(k.namespace, k.pod, made)
  }

  lemma UninformedIs(present: set<ResourceKey>, made: set<ResourceKey>, k: ResourceKey)
    requires Uninformed(present, made, k) && OfPod(k)
    ensures k.PodKey? || (PodKey(k.namespace, k.pod) !in present && PodKey(k.namespace, k.pod) !in made)
            ==> NoneYet(k.namespace, k.pod, made)
  {
  }

  lemma ExtendedViews(a: map<ResourceKey, MetricSet>, b: map<ResourceKey, MetricSet>)
    requires Extends(a, b)
    ensures forall k :: k in ViewsOf(a) ==> k in ViewsOf(b) && ViewsOf(b)[k] == ViewsOf(a)[k]
  {
    hide ViewOf;
  }

  /** before is still there, and what is new in the views is what its pod says. */
  ghost predicate NewFor(pod: Pod, since: int, before: set<ResourceKey>, views: Snapshot) {
    forall k :: k in views && k !in before ==>
      OfAnyPod(k) && k.namespace == pod.namespace && k.pod == pod.name && NewView(pod, since, k, views[k])
  }

  /** The containers that are new have the first n statuses. */
  ghost predicate StubsWith(pod: Pod, since: int, n: nat, before: set<ResourceKey>, views: Snapshot)
    requires n <= |pod.statuses|
  {
    forall k :: k in views && k !in before ==>
      k.PodContainerKey? && k.namespace == pod.namespace && k.pod == pod.name
      && ContainerView(pod, since, n, k.container, views[k])
  }

  lemma StatusStep(pod: Pod, since: int, i: nat, before: set<ResourceKey>, views: Snapshot, after: Snapshot)
    requires i < |pod.statuses| && NoContainers(pod.namespace, pod.name, before)
    requires StubsWith(pod, since, i, before, views) && after.Keys == views.Keys
    requires var key := PodContainerKey(pod.namespace, pod.name, pod.statuses[i].name);
             && (forall k :: k in views && k != key ==> after[k] == views[k])
             && (key in views ==> after[key] == views[key].(labeled := views[key].labeled + [StatusValue(since, pod.statuses[i])]))
    ensures StubsWith(pod, since, i + 1, before, after)
  {
    var key := PodContainerKey(pod.namespace, pod.name, pod.statuses[i].name);
    hide StatusValue, StatusValues, ResourceValues, ContainerStubLabels, FindContainer;
    forall k | k in after && k !in before
      ensures k.PodContainerKey? && k.namespace == pod.namespace && k.pod == pod.name
              && ContainerView(pod, since, i + 1, k.container, after[k])
    {
      assert ContainerView(pod, since, i, k.container, views[k]);
      StatusValuesNext(since, pod.statuses, i, k.container);
      assert k.container == pod.statuses[i].name <==> k == key;
    }
  }

  lemma StubsDone(pod: Pod, since: int, before: set<ResourceKey>, views: Snapshot)
    requires StubsWith(pod, since, |pod.statuses|, before, views)
    ensures NewFor(pod, since, before, views)
  {
    hide ContainerView;
  }

  lemma ContainerStubIdentity(pod: Pod, c: Container, labels: map<string, string>)
    requires SparesIdentity(pod)
    ensures IdentityOf(ContainerStubLabels(pod, c, labels)) == Identity(TYPE_POD_CONTAINER, pod.namespace, pod.name)
  {
    assert LABEL_NAMESPACE_NAME[3] == 'e' && LABEL_POD_NAME[4] == 'n' && LABEL_POD_ID[4] == 'i';
    assert LABEL_NODENAME[1] == 'o' && LABEL_NAMESPACE_NAME[1] == 'a' && LABEL_POD_NAME[0] == 'p';
  }

  lemma PodStubIdentity(namespace: string, podName: string, labels: map<string, string>)
    ensures IdentityOf(PodStubLabels(namespace, podName, labels)) == Identity(TYPE_POD, namespace, podName)
  {
    assert LABEL_NODENAME[1] == 'o' && LABEL_NAMESPACE_NAME[1] == 'a' && LABEL_POD_NAME[0] == 'p';
  }

  lemma WorkloadIdentity(pod: Pod, labels: map<string, string>)
    ensures IdentityOf(WorkloadLabels(pod, labels)).kind == ""
  {
  }

  /** made extends newMs, and what is new is at the keys of stubs and fits them. */
  ghost predicate Grown(newMs: map<ResourceKey, MetricSet>, made: map<ResourceKey, MetricSet>, created: set<MetricSet>) {
    (forall k :: k in newMs ==> k in made)
    && forall k :: k in made ==> made[k] in created || (k in newMs && made[k] == newMs[k])
  }

  lemma GrownTrans(a: map<ResourceKey, MetricSet>, b: map<ResourceKey, MetricSet>, c: map<ResourceKey, MetricSet>,
                   s: set<MetricSet>, t: set<MetricSet>)
    requires Grown(a, b, s) && Grown(b, c, t)
    ensures Grown(a, c, s + t)
  {
  }

  lemma GrownSelf(a: map<ResourceKey, MetricSet>)
    ensures Grown(a, a, {})
  {
  }

  lemma GrownPut(a: map<ResourceKey, MetricSet>, k: ResourceKey, s: MetricSet)
    ensures Grown(a, a[k := s], {s})
  {
  }

  lemma FitsAfter(newMs: map<ResourceKey, MetricSet>, k: ResourceKey, s: MetricSet)
    requires AllFit(newMs) && Fits(k, IdentityOf(s.labels))
    ensures AllFit(newMs[k := s])
  {
  }

  /** The keys of the container stubs for the first i containers. */
  ghost predicate ContainerStub(pod: Pod, i: nat, present: set<ResourceKey>, k: ResourceKey)
    requires i <= |pod.containers|
  {
    k.PodContainerKey? && k.namespace == pod.namespace && k.pod == pod.name && k !in present
    && exists j :: 0 <= j < i && pod.containers[j].name == k.container
  }

  lemma ContainerStubStep(pod: Pod, i: nat, present: set<ResourceKey>, k: ResourceKey)
    requires i < |pod.containers|
    ensures ContainerStub(pod, i + 1, present, k) <==>
              ContainerStub(pod, i, present, k)
              || (k == PodContainerKey(pod.namespace, pod.name, pod.containers[i].name) && k !in present)
  {
  }

  /** All stubs of a running pod: its containers, and its workload status if nothing owns it. */
  lemma StubsAre(pod: Pod, present: set<ResourceKey>, k: ResourceKey)
    requires pod.phase == RUNNING
    ensures StubFor(pod, present, k) <==>
              ContainerStub(pod, |pod.containers|, present, k)
              || (k == WorkloadStatusPodKey(pod.namespace, pod.name) && !pod.owned)
  {
  }

  class PodBasedEnricher {
    const podLister: Lister
    const collectionInterval: int

    constructor (podLister: Lister, collectionInterval: int)
      ensures this.podLister == podLister && this.collectionInterval == collectionInterval
    {
      this.podLister, this.collectionInterval := podLister, collectionInterval;
    }

    /** The time of the last collection, as the source reckons it. */
    function Since(batch: Batch): int
      reads batch`timestamp
    {
      batch.timestamp - collectionInterval
    }

    /** Sets for the containers of the pod that have none yet. */
    method AddContainerStubs(podMs: MetricSet, pod: Pod, batch: Batch, newMs: map<ResourceKey, MetricSet>)
      returns (made: map<ResourceKey, MetricSet>, ghost created: set<MetricSet>)
      requires SparesIdentity(pod) && AllFit(newMs)
      ensures fresh(created) && Grown(newMs, made, created) && AllFit(made)
      ensures forall k :: k in made <==> k in newMs || ContainerStub(pod, |pod.containers|, batch.sets.Keys, k)
      ensures StubsWith(pod, Since(batch), 0, newMs.Keys, ViewsOf(made)) && Apart(newMs, made, created)
    {
      hide *;
      made, created := newMs, {};
      GrownSelf(newMs);
      NoStubsYet(pod, batch.sets.Keys);
      StubsStart(pod, Since(batch), newMs);
      for i := 0 to |pod.containers|
        invariant fresh(created) && Grown(newMs, made, created) && AllFit(made)
        invariant forall k :: k in made <==> k in newMs || ContainerStub(pod, i, batch.sets.Keys, k)
        invariant StubsWith(pod, Since(batch), 0, newMs.Keys, ViewsOf(made)) && Apart(newMs, made, created)
      {
        var container := pod.containers[i];
        var containerKey := PodContainerKey(pod.namespace, pod.name, container.name);
        forall k
          ensures ContainerStub(pod, i + 1, batch.sets.Keys, k) <==>
                    ContainerStub(pod, i, batch.sets.Keys, k) || (k == containerKey && k !in batch.sets.Keys)
        {
          ContainerStubStep(pod, i, batch.sets.Keys, k);
        }
        if containerKey in batch.sets {
          continue;
        }
        if containerKey in made {
          continue;
        }
        FirstOfName(pod, i, batch.sets.Keys);
        var containerMs := NewContainerStub(podMs, pod, container, Since(batch));
        FitsAfter(made, containerKey, containerMs);
        GrownPut(made, containerKey, containerMs);
        GrownTrans(newMs, made, made[containerKey := containerMs], created, {containerMs});
        OneMoreStub(pod, Since(batch), newMs, made, created, container.name, containerMs);
        made := made[containerKey := containerMs];
        created := created + {containerMs};
      }
    }

    method NewContainerStub(podMs: MetricSet, pod: Pod, container: Container, ghost since: int)
      returns (containerMs: MetricSet)
      requires SparesIdentity(pod) && FindContainer(pod.containers, container.name) == Some(container)
      ensures fresh(containerMs) && Fits(PodContainerKey(pod.namespace, pod.name, container.name), IdentityOf(containerMs.labels))
      ensures ContainerView(pod, since, 0, container.name, ViewOf(containerMs))
    {
      hide *;
      ContainerStubIdentity(pod, container, podMs.labels);
      FitsStub(pod.namespace, pod.name, container.name);
      containerMs := new MetricSet(ContainerStubLabels(pod, container, podMs.labels));
      containerMs.entityCreateTime := podMs.collectionStartTime;
      UpdateContainerResources(containerMs, container);
      NothingAdds(ResourceValues(container));
      ViewParts(containerMs);
      StubView(pod, since, container, podMs.labels);
    }

    method AddWorkloadStatusMetric(podMs: MetricSet, pod: Pod, newMs: map<ResourceKey, MetricSet>)
      returns (made: map<ResourceKey, MetricSet>, ghost workloadMs: MetricSet)
      requires SparesIdentity(pod) && AllFit(newMs)
      ensures fresh(workloadMs) && AllFit(made)
      ensures made == newMs[WorkloadStatusPodKey(pod.namespace, pod.name) := workloadMs]
      ensures WorkloadView(pod, ViewOf(workloadMs))
    {
      hide AllFit, Fits, IdentityOf, FirstFault, SparesIdentity, WorkloadLabels;
      var ms := new MetricSet(WorkloadStart(pod, podMs.labels));
      var fault := FindFault(pod);
      var workloadStatus := 1;
      if fault.Some? {
        workloadStatus := 0;
        ms.labels := ms.labels[LABEL_REASON := fault.value.reason][LABEL_MESSAGE := fault.value.message];
      }
      ms.labels := ms.labels[LABEL_AVAILABLE := Decimal(workloadStatus)][LABEL_DESIRED := "1"];
      WorkloadLabelsAre(pod, podMs.labels);
      AddLabeled(ms, LabeledValue(METRIC_WORKLOAD_STATUS, map[], IntValue(workloadStatus)));
      assert ViewOf(ms) == NewWorkloadView(pod, podMs.labels);
      WorkloadIdentity(pod, podMs.labels);
      FitsWorkload(pod.namespace, pod.name, IdentityOf(ms.labels));
      FitsAfter(newMs, WorkloadStatusPodKey(pod.namespace, pod.name), ms);
      made := newMs[WorkloadStatusPodKey(pod.namespace, pod.name) := ms];
      workloadMs := ms;
    }

    /** The first container with a fault ends the search. */
    method FindFault(pod: Pod) returns (fault: Option<Fault>)
      ensures fault == FirstFault(pod.statuses)
    {
      hide FaultOf;
      var i := 0;
      while i < |pod.statuses| && FaultOf(pod.statuses[i]).None?
        invariant 0 <= i <= |pod.statuses| && forall j :: 0 <= j < i ==> FaultOf(pod.statuses[j]).None?
      {
        i := i + 1;
      }
      FirstFaultIs(pod.statuses, i);
      fault := if i < |pod.statuses| then FaultOf(pod.statuses[i]) else None;
    }

    method AddLabeled(ms: MetricSet, value: LabeledValue)
      modifies ms`labeledValues
      ensures ms.labeledValues == old(ms.labeledValues) + [value]
    {
      ms.labeledValues := ms.labeledValues + [value];
    }

    /** Each status goes to the set of its container, if that is among those made. */
    method UpdateContainerStatus(made: map<ResourceKey, MetricSet>, pod: Pod, since: int,
                                 ghost before: map<ResourceKey, MetricSet>, ghost created: set<MetricSet>)
      requires NoContainers(pod.namespace, pod.name, before.Keys) && Apart(before, made, created)
      requires StubsWith(pod, since, 0, before.Keys, ViewsOf(made)) && AllFit(made)
      modifies created
      ensures StubsWith(pod, since, |pod.statuses|, before.Keys, ViewsOf(made)) && AllFit(made)
    {
      hide StubsWith, Apart, StatusValue, Fits, IdentityOf, ViewOf, ViewsOf;
      for i := 0 to |pod.statuses|
        invariant StubsWith(pod, since, i, before.Keys, ViewsOf(made))
        invariant forall o :: o in created ==> o.labels == old(o.labels)
      {
        ghost var views := ViewsOf(made);
        ViewsEntries(made);
        var status := pod.statuses[i];
        var containerKey := PodContainerKey(pod.namespace, pod.name, status.name);
        if containerKey in made {
          ApartAt(before, made, created, containerKey);
          ViewParts(made[containerKey]);
          AddLabeled(made[containerKey], StatusValue(since, status));
          ViewParts(made[containerKey]);
        }
        ViewsEntries(made);
        StatusStep(pod, since, i, before.Keys, views, ViewsOf(made));
      }
    }

    /** Only pods that run are informed about, and get sets for what they are made of. */
    method AddPodInfo(podMs: MetricSet, pod: Pod, batch: Batch, newMs: map<ResourceKey, MetricSet>)
      returns (made: map<ResourceKey, MetricSet>, ghost created: set<MetricSet>)
      requires SparesIdentity(pod) && AllFit(newMs) && NoneYet(pod.namespace, pod.name, newMs.Keys)
      modifies podMs
      ensures fresh(created) && Grown(newMs, made, created) && AllFit(made)
      ensures forall k :: k in made <==> k in newMs || StubFor(pod, batch.sets.Keys, k)
      ensures ViewOf(podMs) == if pod.phase == RUNNING then PodInfoOf(old(ViewOf(podMs)), pod) else old(ViewOf(podMs))
      ensures podMs.entityCreateTime
              == if pod.phase == RUNNING && pod.startTime != 0 then pod.startTime else old(podMs.entityCreateTime)
      ensures Extends(newMs, made) && NewFor(pod, Since(batch), newMs.Keys, ViewsOf(made))
    {
      hide *;
      ViewParts(podMs);
      if pod.phase != RUNNING {
        GrownSelf(newMs);
        NothingNew(pod, Since(batch), newMs);
        NotRunningNoStubs(pod, batch.sets.Keys);
        return newMs, {};
      }
      SetPodInfo(podMs, pod, newMs);
      made, created := AddRunningSets(podMs, pod, batch, newMs);
      forall k
        ensures StubFor(pod, batch.sets.Keys, k) <==>
                  ContainerStub(pod, |pod.containers|, batch.sets.Keys, k)
                  || (k == WorkloadStatusPodKey(pod.namespace, pod.name) && !pod.owned)
      {
        StubsAre(pod, batch.sets.Keys, k);
      }
    }

    /** The workload status of a running pod that nothing owns, and the sets of its containers. */
    method AddRunningSets(podMs: MetricSet, pod: Pod, batch: Batch, newMs: map<ResourceKey, MetricSet>)
      returns (made: map<ResourceKey, MetricSet>, ghost created: set<MetricSet>)
      requires SparesIdentity(pod) && AllFit(newMs) && NoneYet(pod.namespace, pod.name, newMs.Keys)
      ensures fresh(created) && Grown(newMs, made, created) && AllFit(made)
      ensures forall k :: k in made <==>
                k in newMs || ContainerStub(pod, |pod.containers|, batch.sets.Keys, k)
                || (k == WorkloadStatusPodKey(pod.namespace, pod.name) && !pod.owned)
      ensures Extends(newMs, made) && NewFor(pod, Since(batch), newMs.Keys, ViewsOf(made))
    {
      hide *;
      made, created := newMs, {};
      GrownSelf(newMs);
      NothingNew(pod, Since(batch), newMs);
      if !pod.owned {
        ghost var workloadMs: MetricSet;
        made, workloadMs := AddWorkloadStatusMetric(podMs, pod, newMs);
        created := {workloadMs};
        WorkloadIsNew(pod, Since(batch), newMs, workloadMs);
        GrownPut(newMs, WorkloadStatusPodKey(pod.namespace, pod.name), workloadMs);
      }
      ghost var before, more := made, {};
      ghost var views := ViewsOf(before);
      made, more := AddContainerStubs(podMs, pod, batch, made);
      assert fresh(more);
      NoContainersWith(pod.namespace, pod.name, newMs.Keys, before.Keys);
      UpdateContainerStatus(made, pod, Since(batch), before, more);
      StubsDone(pod, Since(batch), before.Keys, ViewsOf(made));
      GrownExtends(before, made, more);
      assert ViewsOf(before) == views;
      ExtendedViews(before, made);
      NewForTrans(pod, Since(batch), newMs.Keys, views, ViewsOf(made));
      ExtendsTrans(newMs, before, made);
      GrownTrans(newMs, before, made, created, more);
      FreshUnion(created, more);
      created := created + more;
    }

    method SetPodInfo(podMs: MetricSet, pod: Pod, ghost newMs: map<ResourceKey, MetricSet>)
      requires SparesIdentity(pod) && AllFit(newMs)
      modifies podMs
      ensures ViewOf(podMs) == PodInfoOf(old(ViewOf(podMs)), pod) && AllFit(newMs)
      ensures podMs.entityCreateTime == if pod.startTime != 0 then pod.startTime else old(podMs.entityCreateTime)
    {
      hide Fits, IdentityOf;
      ghost var was := podMs.labels;
      podMs.labels := podMs.labels[LABEL_POD_ID := pod.uid];
      if pod.startTime != 0 {
        podMs.entityCreateTime := pod.startTime;
      }
      podMs.labels := podMs.labels + pod.copied;
      podMs.labeledValues := podMs.labeledValues + [PhaseValue(pod)];
      podMs.labels := podMs.labels[LABEL_WORKLOAD_NAME := pod.workloadName];
      podMs.labels := podMs.labels[LABEL_WORKLOAD_KIND := pod.workloadKind];
      assert podMs.labels == PodInfoLabels(was, pod);
      IdentityKept(was, pod, "");
    }

    /** The resources and the image of the container's spec. */
    method SetSpec(key: ResourceKey, containerMs: MetricSet, pod: Pod)
      requires key.PodContainerKey? && key == PodContainerKey(pod.namespace, pod.name, key.container)
      modifies containerMs
      ensures ViewOf(containerMs) == SetView(WithResources(old(containerMs.values), pod, key.container),
                                             WithImage(old(containerMs.labels), pod, key.container), old(containerMs.labeledValues))
      ensures containerMs.entityCreateTime == old(containerMs.entityCreateTime)
    {
      hide ResourceValues;
      var i := 0;
      while i < |pod.containers| && key != PodContainerKey(pod.namespace, pod.name, pod.containers[i].name)
        invariant 0 <= i <= |pod.containers|
        invariant forall j :: 0 <= j < i ==> pod.containers[j].name != key.container
      {
        i := i + 1;
      }
      FindContainerIs(pod.containers, key.container, i);
      hide FindContainer;
      if i < |pod.containers| {
        UpdateContainerResources(containerMs, pod.containers[i]);
        if LABEL_CONTAINER_BASE_IMAGE !in containerMs.labels {
          containerMs.labels := containerMs.labels[LABEL_CONTAINER_BASE_IMAGE := pod.containers[i].image];
        }
      }
    }

    /** The restarts and the state of the container's status. */
    method SetStatus(key: ResourceKey, containerMs: MetricSet, pod: Pod, since: int)
      requires key.PodContainerKey? && key == PodContainerKey(pod.namespace, pod.name, key.container)
      modifies containerMs
      ensures ViewOf(containerMs) == SetView(WithRestarts(old(containerMs.values), pod, key.container), old(containerMs.labels),
                                             WithStatus(old(containerMs.labeledValues), pod, since, key.container))
      ensures containerMs.entityCreateTime == if FindStatus(pod.statuses, key.container).Some? && pod.startTime != 0
                then pod.startTime else old(containerMs.entityCreateTime)
    {
      hide StatusValue;
      var i := 0;
      while i < |pod.statuses| && key != PodContainerKey(pod.namespace, pod.name, pod.statuses[i].name)
        invariant 0 <= i <= |pod.statuses|
        invariant forall j :: 0 <= j < i ==> pod.statuses[j].name != key.container
      {
        i := i + 1;
      }
      FindStatusIs(pod.statuses, key.container, i);
      hide FindStatus;
      if i < |pod.statuses| {
        containerMs.values := containerMs.values[METRIC_RESTART_COUNT := IntValue(pod.statuses[i].restartCount)];
        if pod.startTime != 0 {
          containerMs.entityCreateTime := pod.startTime;
        }
        AddLabeled(containerMs, StatusValue(since, pod.statuses[i]));
      }
    }

    method SetContainerInfo(key: ResourceKey, containerMs: MetricSet, pod: Pod, since: int,
                            ghost newMs: map<ResourceKey, MetricSet>)
      requires SparesIdentity(pod) && AllFit(newMs)
      requires key.PodContainerKey? && key == PodContainerKey(pod.namespace, pod.name, key.container)
      modifies containerMs
      ensures ViewOf(containerMs) == ContainerInfoOf(old(ViewOf(containerMs)), pod, since, key.container)
      ensures containerMs.entityCreateTime == if FindStatus(pod.statuses, key.container).Some? && pod.startTime != 0
                then pod.startTime else old(containerMs.entityCreateTime)
      ensures AllFit(newMs)
    {
      hide Fits, IdentityOf, WithImage, WithResources, WithRestarts, WithStatus;
      ghost var was := containerMs.labels;
      SetSpec(key, containerMs, pod);
      SetStatus(key, containerMs, pod, since);
      containerMs.labels := containerMs.labels[LABEL_WORKLOAD_NAME := pod.workloadName];
      containerMs.labels := containerMs.labels[LABEL_WORKLOAD_KIND := pod.workloadKind];
      containerMs.labels := containerMs.labels[LABEL_POD_ID := pod.uid];
      containerMs.labels := containerMs.labels + pod.copied;
      IdentityKept(was, pod, key.container);
    }

    /** A container's pod gets a set, and with it sets for all its containers, unless it has one. */
    method AddContainerInfo(key: ResourceKey, containerMs: MetricSet, pod: Pod, batch: Batch,
                            newMs: map<ResourceKey, MetricSet>)
      returns (made: map<ResourceKey, MetricSet>, ghost created: set<MetricSet>)
      requires SparesIdentity(pod) && AllFit(newMs) && Uninformed(batch.sets.Keys, newMs.Keys, key)
      requires key.PodContainerKey? && key == PodContainerKey(pod.namespace, pod.name, key.container)
      requires Fits(key, IdentityOf(containerMs.labels))
      modifies containerMs
      ensures fresh(created) && Grown(newMs, made, created) && AllFit(made)
      ensures ViewOf(containerMs) == ContainerInfoOf(old(ViewOf(containerMs)), pod, Since(batch), key.container)
      ensures containerMs.entityCreateTime == if FindStatus(pod.statuses, key.container).Some? && pod.startTime != 0
                then pod.startTime else old(containerMs.entityCreateTime)
      ensures Extends(newMs, made) && NewFor(pod, Since(batch), newMs.Keys, ViewsOf(made))
      ensures var podKey := PodKey(pod.namespace, pod.name);
              forall k :: k in made <==>
                k in newMs || (podKey !in batch.sets && podKey !in newMs
                               && (k == podKey || StubFor(pod, batch.sets.Keys, k)))
    {
      hide *;
      made, created := newMs, {};
      GrownSelf(newMs);
      IdentityKept(containerMs.labels, pod, key.container);
      LabelsOfIdentity(key, containerMs.labels);
      ViewParts(containerMs);
      InfoLabels(ViewOf(containerMs), pod, Since(batch), key.container);
      SetContainerInfo(key, containerMs, pod, Since(batch), newMs);
      ViewParts(containerMs);
      var namespace := Lookup(containerMs.labels, LABEL_NAMESPACE_NAME, "");
      var podName := Lookup(containerMs.labels, LABEL_POD_NAME, "");
      LabelsOfIdentity(key, containerMs.labels);
      var podKey := PodKey(namespace, podName);
      UninformedIs(batch.sets.Keys, newMs.Keys, key);
      if podKey in batch.sets {
        NothingNew(pod, Since(batch), newMs);
        return;
      }
      if podKey in newMs {
        NothingNew(pod, Since(batch), newMs);
        return;
      }
      made, created := AddPodStub(containerMs, pod, batch, newMs);
    }

    /** The set of a pod that has none, and all that belongs to the pod. */
    method AddPodStub(containerMs: MetricSet, pod: Pod, batch: Batch, newMs: map<ResourceKey, MetricSet>)
      returns (made: map<ResourceKey, MetricSet>, ghost created: set<MetricSet>)
      requires SparesIdentity(pod) && AllFit(newMs) && NoneYet(pod.namespace, pod.name, newMs.Keys)
      requires PodKey(pod.namespace, pod.name) !in newMs
      ensures fresh(created) && Grown(newMs, made, created) && AllFit(made)
      ensures Extends(newMs, made) && NewFor(pod, Since(batch), newMs.Keys, ViewsOf(made))
      ensures forall k :: k in made <==>
                k in newMs || k == PodKey(pod.namespace, pod.name) || StubFor(pod, batch.sets.Keys, k)
    {
      hide *;
      var podKey := PodKey(pod.namespace, pod.name);
      var podMs := new MetricSet(PodStubLabels(pod.namespace, pod.name, containerMs.labels));
      if pod.startTime != 0 {
        podMs.entityCreateTime := pod.startTime;
      }
      PodStubIdentity(pod.namespace, pod.name, containerMs.labels);
      FitsStub(pod.namespace, pod.name, "");
      FitsAfter(newMs, podKey, podMs);
      GrownPut(newMs, podKey, podMs);
      ViewParts(podMs);
      ghost var more: set<MetricSet>;
      NoneYetWithPod(pod, newMs.Keys);
      assert newMs[podKey := podMs].Keys == newMs.Keys + {podKey};
      made, more := AddPodInfo(podMs, pod, batch, newMs[podKey := podMs]);
      NewPodIsNew(pod, Since(batch), newMs, podMs, containerMs.labels, made);
      GrownTrans(newMs, newMs[podKey := podMs], made, {podMs}, more);
      created := {podMs};
      assert fresh(more);
      FreshUnion(created, more);
      created := created + more;
    }

    /** The body of the loop over the batch. */
    method VisitSet(batch: Batch, k: ResourceKey, newMs: map<ResourceKey, MetricSet>)
      returns (made: map<ResourceKey, MetricSet>, ghost created: set<MetricSet>)
      requires Proper(podLister) && k in batch.sets && AllFit(newMs) && Fits(k, IdentityOf(batch.sets[k].labels))
      requires Uninformed(batch.sets.Keys, newMs.Keys, k)
      modifies batch`sets, batch.sets[k]
      ensures fresh(created) && Grown(newMs, made, created) && AllFit(made)
      ensures batch.sets == if OfPod(k) && PodIdOf(k) !in podLister then old(batch.sets) - {k} else old(batch.sets)
      ensures ViewOf(old(batch.sets[k])) == if OfPod(k) && PodIdOf(k) in podLister
                then Enriched(podLister[PodIdOf(k)], Since(batch), k, old(ViewOf(batch.sets[k]))) else old(ViewOf(batch.sets[k]))
      ensures Extends(newMs, made) && AllNewSince(podLister, Since(batch), newMs.Keys, ViewsOf(made))
      ensures forall j :: j in made <==> j in newMs || Adds(podLister, old(batch.sets.Keys), newMs.Keys, k, j)
    {
      hide AllFit, Fits, IdentityOf, Grown, StubFor, SparesIdentity, Enriched, Adds, ViewOf, ViewsOf, Lookup, Proper,
        Extends, AllNewSince, NewFor, Uninformed, NoneYet, PodInfoOf, ContainerInfoOf;
      made, created := newMs, {};
      GrownSelf(newMs);
      NoneNewSince(podLister, Since(batch), newMs);
      var metricSet := batch.sets[k];
      ViewParts(metricSet);
      LabelsOfIdentity(k, metricSet.labels);
      AddsCases(podLister, batch.sets.Keys, newMs.Keys, k);
      var kind := Lookup(metricSet.labels, LABEL_TYPE, "");
      if kind != TYPE_POD && kind != TYPE_POD_CONTAINER {
        return;
      }
      var id := PodId(Lookup(metricSet.labels, LABEL_NAMESPACE_NAME, ""), Lookup(metricSet.labels, LABEL_POD_NAME, ""));
      if id !in podLister {
        batch.sets := batch.sets - {k};
        return;
      }
      ListedPod(podLister, id);
      EnrichedIs(podLister[id], Since(batch), k, ViewOf(metricSet));
      UninformedIs(batch.sets.Keys, newMs.Keys, k);
      if kind == TYPE_POD {
        made, created := AddPodInfo(metricSet, podLister[id], batch, newMs);
      } else {
        made, created := AddContainerInfo(k, metricSet, podLister[id], batch, newMs);
      }
      NewForIs(podLister, id, Since(batch), newMs.Keys, ViewsOf(made));
    }

    /**
     The sets of unknown pods are gone, the sets that are missing are there and hold what their pods say,
     and the rest are the same objects as before, each enriched once, whatever the order of the visits.
     */
    method Process(batch: Batch) returns (ghost created: set<MetricSet>)
      requires Proper(podLister) && Separate(batch.sets) && AllFit(batch.sets)
      modifies batch`sets, batch.sets.Values
      ensures forall k :: k in batch.sets <==> InResult(podLister, old(batch.sets.Keys), k)
      ensures forall k :: k in batch.sets && k in old(batch.sets) && OfPod(k) ==> batch.sets[k] == old(batch.sets)[k]
      ensures fresh(created)
      ensures forall k :: k in batch.sets ==>
                batch.sets[k] in created || (k in old(batch.sets) && batch.sets[k] == old(batch.sets)[k])
      ensures AllFit(batch.sets)
      ensures forall k :: k in old(batch.sets) ==>
                ViewOf(old(batch.sets)[k]) == Visited(podLister, Since(batch), k, old(SnapshotOf(batch))[k])
      ensures forall k :: k in batch.sets && Made(podLister, old(batch.sets.Keys), old(batch.sets.Keys), k) ==>
                NewSet(podLister, Since(batch), k, ViewOf(batch.sets[k]))
    {
      hide *;
      ghost var was, s := batch.sets, SnapshotOf(batch);
      var newMs;
      newMs, created := VisitAll(batch);
      UnderwayParts(podLister, Since(batch), was, s, was.Keys, batch.sets, newMs);
      ViewsEntries(was);
      SurvivorsFit(podLister, Since(batch), was, s, ViewsOf(was), batch.sets);
      ViewsAtEnd(podLister, Since(batch), s, ViewsOf(was));
      ghost var left := batch.sets;
      AddNew(batch, newMs);
      ResultIs(podLister, was, left, newMs, batch.sets);
      GrownNew(newMs, created);
      NewAtEnd(podLister, Since(batch), was, left, newMs, batch.sets);
      FitTogether(left, newMs, batch.sets);
    }

    /** One turn of the loop, with was the batch at the start and visited the keys done so far. */
    method VisitNext(batch: Batch, k: ResourceKey, newMs: map<ResourceKey, MetricSet>,
                     ghost was: map<ResourceKey, MetricSet>, ghost s: Snapshot, ghost visited: set<ResourceKey>)
      returns (made: map<ResourceKey, MetricSet>, ghost created: set<MetricSet>)
      requires Proper(podLister) && Separate(was) && s.Keys == was.Keys && AllViewsFit(s)
      requires k in was && k !in visited
      requires Underway(podLister, Since(batch), was, s, visited, batch.sets, newMs)
      modifies batch`sets, was.Values
      ensures Underway(podLister, Since(batch), was, s, visited + {k}, batch.sets, made)
      ensures fresh(created) && Grown(newMs, made, created)
    {
      hide *;
      UnderwayParts(podLister, Since(batch), was, s, visited, batch.sets, newMs);
      UninformedAt(podLister, was, visited, batch.sets, newMs, k);
      ghost var sets, views := batch.sets, ViewsOf(was);
      ViewsEntries(was);
      AtVisit(podLister, Since(batch), was, s, visited, batch.sets, views, k);
      OnlyThis(was, k);
      ViewParts(was[k]);
      SetsStep(podLister, was, visited, batch.sets, k);
      SetOfKey(was, k);
      ghost var news := ViewsOf(newMs);
      made, created := VisitSet(batch, k, newMs);
      assert ViewsOf(newMs) == news;
      AllNewStep(podLister, Since(batch), newMs, made);
      ApartGrown(newMs, made, created, was);
      ViewsEntries(was);
      VisitedIs(podLister, Since(batch), k, s[k]);
      ViewsStep(podLister, Since(batch), s, visited, views, ViewsOf(was), k);
      NewMadeStep(podLister, was, visited, sets, newMs, made, k);
      UnderwayIs(podLister, Since(batch), was, s, visited + {k}, batch.sets, made);
    }

    /** The loop over the batch, in any order. */
    method VisitAll(batch: Batch) returns (newMs: map<ResourceKey, MetricSet>, ghost created: set<MetricSet>)
      requires Proper(podLister) && Separate(batch.sets) && AllFit(batch.sets)
      modifies batch`sets, batch.sets.Values
      ensures fresh(created) && Grown(map[], newMs, created) && AllViewsFit(old(SnapshotOf(batch)))
      ensures Underway(podLister, Since(batch), old(batch.sets), old(SnapshotOf(batch)), old(batch.sets.Keys),
                       batch.sets, newMs)
    {
      hide *;
      ghost var was, s := batch.sets, SnapshotOf(batch);
      newMs := map[];
      var todo := batch.sets.Keys;
      ghost var visited: set<ResourceKey> := {};
      created := {};
      SnapshotIsViews(batch);
      Start(podLister, Since(batch), was, s);
      SnapshotFits(batch);
      while todo != {}
        invariant visited + todo == was.Keys && visited !! todo
        invariant Underway(podLister, Since(batch), was, s, visited, batch.sets, newMs)
        invariant fresh(created) && Grown(map[], newMs, created)
        decreases |todo|
      {
        var k :| k in todo;
        ghost var before, more := newMs, {};
        newMs, more := VisitNext(batch, k, newMs, was, s, visited);
        GrownTrans(map[], before, newMs, created, more);
        assert fresh(more);
        FreshUnion(created, more);
        created := created + more;
        todo := todo - {k};
        visited := visited + {k};
      }
      assert visited == was.Keys;
    }

    /** Adds the new sets to the batch. */
    method AddNew(batch: Batch, newMs: map<ResourceKey, MetricSet>)
      modifies batch`sets
      ensures Overlaid(old(batch.sets), newMs, batch.sets)
    {
      var todo := newMs.Keys;
      while todo != {}
        invariant todo <= newMs.Keys
        invariant forall k :: k in batch.sets <==> k in old(batch.sets) || (k in newMs && k !in todo)
        invariant forall k :: k in batch.sets ==>
                    batch.sets[k] == if k in newMs && k !in todo then newMs[k] else old(batch.sets)[k]
        decreases |todo|
      {
        var k :| k in todo;
        batch.sets := batch.sets[k := newMs[k]];
        todo := todo - {k};
      }
    }
  }

  /** What the whole call makes of a set that is there at the start. */
  function Visited(lister: Lister, since: int, k: ResourceKey, v: SetView): SetView {
    if OfPod(k) && PodIdOf(k) in lister then Enriched(lister[PodIdOf(k)], since, k, v) else v
  }

  // ---- lemmas for the loop --------------------------------------------------------------------

  ghost predicate SetsLeft(lister: Lister, was: map<ResourceKey, MetricSet>, visited: set<ResourceKey>,
                           sets: map<ResourceKey, MetricSet>) {
    (forall k :: k in sets <==> k in was && Kept(lister, visited, k)) && forall k :: k in sets ==> sets[k] == was[k]
  }

  ghost predicate NewMade(lister: Lister, keys: set<ResourceKey>, visited: set<ResourceKey>,
                          newMs: map<ResourceKey, MetricSet>) {
    forall k :: k in newMs <==> Made(lister, keys, visited, k)
  }

  ghost predicate ViewsAre(lister: Lister, since: int, s: Snapshot, visited: set<ResourceKey>, views: Snapshot) {
    views.Keys == s.Keys && forall k :: k in s ==> views[k] == if k in visited then Visited(lister, since, k, s[k]) else s[k]
  }

  /** The sets that a visit adds to those already made. */
  predicate Adds(lister: Lister, present: set<ResourceKey>, made: set<ResourceKey>, k: ResourceKey, j: ResourceKey) {
    OfPod(k) && PodIdOf(k) in lister
    && var pod, podKey := lister[PodIdOf(k)], PodKey(k.namespace, k.pod);
       if k.PodKey? then StubFor(pod, present, j)
       else podKey !in present && podKey !in made && (j == podKey || StubFor(pod, present, j))
  }

  lemma AddsCases(lister: Lister, present: set<ResourceKey>, made: set<ResourceKey>, k: ResourceKey)
    requires Proper(lister)
    ensures forall j :: Adds(lister, present, made, k, j) ==> OfPod(k) && PodIdOf(k) in lister
    ensures OfPod(k) && PodIdOf(k) in lister ==>
              var pod, podKey := lister[PodIdOf(k)], PodKey(k.namespace, k.pod);
              podKey == PodKey(pod.namespace, pod.name)
              && (k.PodKey? ==> forall j :: Adds(lister, present, made, k, j) <==> StubFor(pod, present, j))
              && (!k.PodKey? ==> forall j :: Adds(lister, present, made, k, j) <==>
                    podKey !in present && podKey !in made && (j == podKey || StubFor(pod, present, j)))
  {
  }

  lemma ListedPod(lister: Lister, id: PodId)
    requires Proper(lister) && id in lister
    ensures SparesIdentity(lister[id]) && lister[id].namespace == id.namespace && lister[id].name == id.name
  {
  }

  lemma EnrichedIs(pod: Pod, since: int, k: ResourceKey, v: SetView)
    requires OfPod(k)
    ensures k.PodKey? ==> Enriched(pod, since, k, v) == if pod.phase == RUNNING then PodInfoOf(v, pod) else v
    ensures !k.PodKey? ==> k.PodContainerKey? && Enriched(pod, since, k, v) == ContainerInfoOf(v, pod, since, k.container)
  {
  }

  /** What a fitting key says about the labels. */
  lemma LabelsOfIdentity(k: ResourceKey, labels: map<string, string>)
    ensures Fits(k, IdentityOf(labels)) ==>
              (Lookup(labels, LABEL_TYPE, "") == TYPE_POD <==> k.PodKey?)
              && (Lookup(labels, LABEL_TYPE, "") == TYPE_POD_CONTAINER <==> k.PodContainerKey?)
              && (k.PodKey? || k.PodContainerKey? ==>
                    k.namespace == Lookup(labels, LABEL_NAMESPACE_NAME, "") && k.pod == Lookup(labels, LABEL_POD_NAME, ""))
  {
  }

  lemma NoStubsYet(pod: Pod, present: set<ResourceKey>)
    ensures forall k :: !ContainerStub(pod, 0, present, k)
  {
  }

  lemma NotRunningNoStubs(pod: Pod, present: set<ResourceKey>)
    requires pod.phase != RUNNING
    ensures forall k :: !StubFor(pod, present, k)
  {
  }

  lemma FitsStub(namespace: string, pod: string, container: string)
    ensures Fits(PodContainerKey(namespace, pod, container), Identity(TYPE_POD_CONTAINER, namespace, pod))
    ensures Fits(PodKey(namespace, pod), Identity(TYPE_POD, namespace, pod))
  {
  }

  lemma FitsWorkload(namespace: string, pod: string, id: Identity)
    requires id.kind == ""
    ensures Fits(WorkloadStatusPodKey(namespace, pod), id)
  {
  }

  /** How things stand when some of the batch has been visited. */
  ghost predicate Underway(lister: Lister, since: int, was: map<ResourceKey, MetricSet>, s: Snapshot,
                           visited: set<ResourceKey>, sets: map<ResourceKey, MetricSet>, newMs: map<ResourceKey, MetricSet>)
    reads was.Values, newMs.Values
  {
    visited <= was.Keys && SetsLeft(lister, was, visited, sets) && NewMade(lister, was.Keys, visited, newMs)
    && AllFit(newMs) && ViewsAre(lister, since, s, visited, ViewsOf(was))
    && AllNew(lister, since, ViewsOf(newMs)) && newMs.Values !! was.Values
  }

  lemma UnderwayParts(lister: Lister, since: int, was: map<ResourceKey, MetricSet>, s: Snapshot,
                      visited: set<ResourceKey>, sets: map<ResourceKey, MetricSet>, newMs: map<ResourceKey, MetricSet>)
    requires Underway(lister, since, was, s, visited, sets, newMs)
    ensures visited <= was.Keys && SetsLeft(lister, was, visited, sets) && NewMade(lister, was.Keys, visited, newMs)
    ensures AllFit(newMs) && ViewsAre(lister, since, s, visited, ViewsOf(was))
    ensures AllNew(lister, since, ViewsOf(newMs)) && newMs.Values !! was.Values
  {
  }

  lemma UnderwayIs(lister: Lister, since: int, was: map<ResourceKey, MetricSet>, s: Snapshot,
                   visited: set<ResourceKey>, sets: map<ResourceKey, MetricSet>, newMs: map<ResourceKey, MetricSet>)
    requires visited <= was.Keys && SetsLeft(lister, was, visited, sets) && NewMade(lister, was.Keys, visited, newMs)
    requires AllFit(newMs) && ViewsAre(lister, since, s, visited, ViewsOf(was))
    requires AllNew(lister, since, ViewsOf(newMs)) && newMs.Values !! was.Values
    ensures Underway(lister, since, was, s, visited, sets, newMs)
  {
  }

  lemma Start(lister: Lister, since: int, was: map<ResourceKey, MetricSet>, s: Snapshot)
    requires s == ViewsOf(was)
    ensures Underway(lister, since, was, s, {}, was, map[]) && Grown(map[], map[], {})
  {
  }

  lemma SetOfKey(was: map<ResourceKey, MetricSet>, k: ResourceKey)
    requires k in was
    ensures was[k] in was.Values
  {
  }

  /** What is new is what its pod says, whichever pod it is of. */
  ghost predicate AllNewSince(lister: Lister, since: int, before: set<ResourceKey>, views: Snapshot) {
    forall k :: k in views && k !in before ==> NewSet(lister, since, k, views[k])
  }

  lemma NoneNewSince(lister: Lister, since: int, newMs: map<ResourceKey, MetricSet>)
    ensures Extends(newMs, newMs) && AllNewSince(lister, since, newMs.Keys, ViewsOf(newMs))
  {
  }

  lemma NewForIs(lister: Lister, id: PodId, since: int, before: set<ResourceKey>, views: Snapshot)
    requires Proper(lister) && id in lister && NewFor(lister[id], since, before, views)
    ensures AllNewSince(lister, since, before, views)
  {
    hide NewView;
  }

  lemma AllNewStep(lister: Lister, since: int, newMs: map<ResourceKey, MetricSet>, made: map<ResourceKey, MetricSet>)
    requires AllNew(lister, since, ViewsOf(newMs)) && Extends(newMs, made)
    requires AllNewSince(lister, since, newMs.Keys, ViewsOf(made))
    ensures AllNew(lister, since, ViewsOf(made))
  {
    hide NewSet, ViewOf;
    ExtendedViews(newMs, made);
  }

  lemma ApartGrown(newMs: map<ResourceKey, MetricSet>, made: map<ResourceKey, MetricSet>, created: set<MetricSet>,
                   was: map<ResourceKey, MetricSet>)
    requires newMs.Values !! was.Values && Grown(newMs, made, created) && created !! was.Values
    ensures made.Values !! was.Values
  {
    forall o | o in made.Values
      ensures o !in was.Values
    {
      var k :| k in made && made[k] == o;
      assert k in newMs ==> newMs[k] in newMs.Values;
    }
  }

  /** No set has been made for a pod before a visit informs it. */
  lemma UninformedAt(lister: Lister, was: map<ResourceKey, MetricSet>, visited: set<ResourceKey>,
                     sets: map<ResourceKey, MetricSet>, newMs: map<ResourceKey, MetricSet>, k: ResourceKey)
    requires SetsLeft(lister, was, visited, sets) && NewMade(lister, was.Keys, visited, newMs)
    requires k in was && k !in visited && visited <= was.Keys
    ensures Uninformed(sets.Keys, newMs.Keys, k)
  {
    if OfPod(k) {
      var podKey := PodKey(k.namespace, k.pod);
      var id := PodIdOf(k);
      hide Informed, HasContainer;
      if k.PodKey? || (podKey !in sets && podKey !in newMs) {
        forall j | j == WorkloadStatusPodKey(k.namespace, k.pod) || (exists c :: j == PodContainerKey(k.namespace, k.pod, c))
          ensures j !in newMs
        {
          assert Made(lister, was.Keys, visited, j) ==> id in lister && Informed(was.Keys, visited, id);
          assert id in lister && Informed(was.Keys, visited, id) && podKey !in was ==> Made(lister, was.Keys, visited, podKey);
          NotInformed(was.Keys, visited, id);
        }
      }
    }
  }

  lemma NotInformed(keys: set<ResourceKey>, visited: set<ResourceKey>, id: PodId)
    ensures Informed(keys, visited, id) && PodKey(id.namespace, id.name) in keys ==> PodKey(id.namespace, id.name) in visited
  {
  }

  /** The set to be visited next is still as it was, and its key fits. */
  lemma AtVisit(lister: Lister, since: int, was: map<ResourceKey, MetricSet>, s: Snapshot, visited: set<ResourceKey>,
                sets: map<ResourceKey, MetricSet>, views: Snapshot, k: ResourceKey)
    requires SetsLeft(lister, was, visited, sets) && ViewsAre(lister, since, s, visited, views) && k in was && k !in visited
    requires k in s && AllViewsFit(s)
    ensures k in sets && sets[k] == was[k] && views[k] == s[k] && Fits(k, IdentityOf(s[k].labels))
  {
  }

  ghost predicate AllViewsFit(s: Snapshot) {
    forall k :: k in s ==> Fits(k, IdentityOf(s[k].labels))
  }

  lemma SnapshotFits(batch: Batch)
    requires AllFit(batch.sets)
    ensures AllViewsFit(SnapshotOf(batch))
  {
  }

  lemma VisitedIs(lister: Lister, since: int, k: ResourceKey, v: SetView)
    ensures Visited(lister, since, k, v) == if OfPod(k) && PodIdOf(k) in lister then Enriched(lister[PodIdOf(k)], since, k, v) else v
  {
  }

  lemma ViewsAtEnd(lister: Lister, since: int, s: Snapshot, views: Snapshot)
    requires ViewsAre(lister, since, s, s.Keys, views)
    ensures forall k :: k in s ==> views[k] == Visited(lister, since, k, s[k])
  {
    hide Visited;
  }

  lemma SetsStep(lister: Lister, was: map<ResourceKey, MetricSet>, visited: set<ResourceKey>,
                 sets: map<ResourceKey, MetricSet>, k: ResourceKey)
    requires SetsLeft(lister, was, visited, sets)
    ensures SetsLeft(lister, was, visited + {k}, if OfPod(k) && PodIdOf(k) !in lister then sets - {k} else sets)
  {
  }

  /** For a known pod the sets left are those that were there. */
  lemma StubsOfKnown(lister: Lister, was: map<ResourceKey, MetricSet>, visited: set<ResourceKey>,
                     sets: map<ResourceKey, MetricSet>, id: PodId, j: ResourceKey)
    requires Proper(lister) && SetsLeft(lister, was, visited, sets) && id in lister
    ensures StubFor(lister[id], sets.Keys, j) <==> StubFor(lister[id], was.Keys, j)
    ensures PodKey(id.namespace, id.name) in sets <==> PodKey(id.namespace, id.name) in was
  {
    hide HasContainer;
  }

  lemma NewMadeStep(lister: Lister, was: map<ResourceKey, MetricSet>, visited: set<ResourceKey>,
                    sets: map<ResourceKey, MetricSet>, before: map<ResourceKey, MetricSet>,
                    newMs: map<ResourceKey, MetricSet>, k: ResourceKey)
    requires Proper(lister) && SetsLeft(lister, was, visited, sets) && k in was
    requires NewMade(lister, was.Keys, visited, before)
    requires forall j :: j in newMs <==> j in before || Adds(lister, sets.Keys, before.Keys, k, j)
    ensures NewMade(lister, was.Keys, visited + {k}, newMs)
  {
    hide Proper, SetsLeft, Made, Adds;
    forall j
      ensures Made(lister, was.Keys, visited + {k}, j)
              <==> Made(lister, was.Keys, visited, j) || Adds(lister, sets.Keys, before.Keys, k, j)
    {
      AddsStep(lister, was, visited, sets, before, k, j);
    }
  }

  lemma AddsStep(lister: Lister, was: map<ResourceKey, MetricSet>, visited: set<ResourceKey>,
                 sets: map<ResourceKey, MetricSet>, before: map<ResourceKey, MetricSet>, k: ResourceKey, j: ResourceKey)
    requires Proper(lister) && SetsLeft(lister, was, visited, sets) && k in was
    requires NewMade(lister, was.Keys, visited, before)
    ensures Made(lister, was.Keys, visited + {k}, j)
            <==> Made(lister, was.Keys, visited, j) || Adds(lister, sets.Keys, before.Keys, k, j)
  {
    hide Made, StubFor, Kept;
    if !OfPod(k) || PodIdOf(k) !in lister {
      UnknownAddsNothing(lister, was.Keys, visited, k, j);
    } else {
      var id := PodIdOf(k);
      StubsOfKnown(lister, was, visited, sets, id, j);
      if k.PodKey? {
        PodAdds(lister, was.Keys, visited, k, j);
      } else {
        ContainerAdds(lister, was.Keys, visited, k, j);
        var podKey := PodKey(k.namespace, k.pod);
        assert podKey in before <==> Made(lister, was.Keys, visited, podKey);
        if podKey in before && StubFor(lister[id], was.Keys, j) {
          MadeTogether(lister, was.Keys, visited, id, j);
        }
      }
    }
  }

  /** The sets that were there still fit their keys. */
  lemma SurvivorsFit(lister: Lister, since: int, was: map<ResourceKey, MetricSet>, s: Snapshot, views: Snapshot,
                     sets: map<ResourceKey, MetricSet>)
    requires Proper(lister) && AllViewsFit(s) && SetsLeft(lister, was, was.Keys, sets) && s.Keys == was.Keys
    requires ViewsAre(lister, since, s, was.Keys, views) && forall k :: k in was ==> views[k] == ViewOf(was[k])
    ensures AllFit(sets)
  {
    hide Fits, IdentityOf, PodInfoLabels, ContainerInfoLabels;
    forall k | k in sets
      ensures Fits(k, IdentityOf(sets[k].labels))
    {
      assert views[k] == Visited(lister, since, k, s[k]);
      if OfPod(k) && PodIdOf(k) in lister {
        ListedPod(lister, PodIdOf(k));
        IdentityKept(s[k].labels, lister[PodIdOf(k)], if k.PodContainerKey? then k.container else "");
      }
    }
  }

  ghost predicate Overlaid(left: map<ResourceKey, MetricSet>, newMs: map<ResourceKey, MetricSet>,
                           sets: map<ResourceKey, MetricSet>) {
    (forall k :: k in sets <==> k in left || k in newMs)
    && forall k :: k in sets ==> sets[k] == if k in newMs then newMs[k] else left[k]
  }

  lemma ResultIs(lister: Lister, was: map<ResourceKey, MetricSet>, left: map<ResourceKey, MetricSet>,
                 newMs: map<ResourceKey, MetricSet>, sets: map<ResourceKey, MetricSet>)
    requires SetsLeft(lister, was, was.Keys, left) && NewMade(lister, was.Keys, was.Keys, newMs) && Overlaid(left, newMs, sets)
    ensures forall k :: k in sets <==> InResult(lister, was.Keys, k)
    ensures forall k :: k in sets && k in was && OfPod(k) ==> sets[k] == was[k]
    ensures forall k :: k in sets ==> (k in newMs && sets[k] == newMs[k]) || (k in was && sets[k] == was[k])
  {
    hide Informed;
  }

  lemma NewAtEnd(lister: Lister, since: int, was: map<ResourceKey, MetricSet>, left: map<ResourceKey, MetricSet>,
                 newMs: map<ResourceKey, MetricSet>, sets: map<ResourceKey, MetricSet>)
    requires NewMade(lister, was.Keys, was.Keys, newMs) && Overlaid(left, newMs, sets)
    requires AllNew(lister, since, ViewsOf(newMs))
    ensures forall k :: k in sets && Made(lister, was.Keys, was.Keys, k) ==> NewSet(lister, since, k, ViewOf(sets[k]))
  {
    hide NewSet, ViewOf, Made;
    ViewsEntries(newMs);
  }

  lemma GrownNew(newMs: map<ResourceKey, MetricSet>, created: set<MetricSet>)
    requires Grown(map[], newMs, created)
    ensures forall k :: k in newMs ==> newMs[k] in created
  {
  }

  lemma FitTogether(left: map<ResourceKey, MetricSet>, newMs: map<ResourceKey, MetricSet>, sets: map<ResourceKey, MetricSet>)
    requires AllFit(left) && AllFit(newMs) && Overlaid(left, newMs, sets)
    ensures AllFit(sets)
  {
  }

  lemma OnlyThis(was: map<ResourceKey, MetricSet>, k: ResourceKey)
    requires Separate(was) && k in was
    ensures forall j :: j in was && j != k ==> was[j] != was[k]
  {
  }

  lemma ViewsStep(lister: Lister, since: int, s: Snapshot, visited: set<ResourceKey>, views: Snapshot, after: Snapshot, k: ResourceKey)
    requires ViewsAre(lister, since, s, visited, views) && k in s && k !in visited && after.Keys == views.Keys
    requires forall j :: j in s && j != k ==> after[j] == views[j]
    requires after[k] == Visited(lister, since, k, views[k])
    ensures ViewsAre(lister, since, s, visited + {k}, after)
  {
    hide Visited;
  }
}
