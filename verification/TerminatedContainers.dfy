/**
 Which containers the aggregators count after the enricher has run. The aggregators leave out a container
 whose status has the label `state` with the value `terminated` (collector/plugins/processors/
 sum_count_aggregator.go); the enricher reports the state of a container under the label `status`
 (collector/internal/util/util.go).
 */
module TerminatedContainers {
  import Aggregation
  import opened BatchSets
  import opened ContainerInfo
  import opened Enricher
  import opened Metrics
  import opened Wrappers

  const STATE := "state"

  /** No value of the container's status has the label that the aggregators look for. */
  ghost predicate NoState(labeled: seq<LabeledValue>) {
    forall x :: x in labeled && x.name == METRIC_CONTAINER_STATUS ==> STATE !in x.labels
  }

  lemma ReportsNoState(since: int, status: ContainerStatus)
    ensures STATE !in StatusValue(since, status).labels
  {
    hide FindContainerState, Decimal;
    assert |STATE| == 5 && |"status"| == 6 && |"reason"| == 6 && |"exit_code"| == 9;
  }

  lemma {:induction false} StatusesHaveNoState(since: int, statuses: seq<ContainerStatus>, name: string)
    ensures NoState(StatusValues(since, statuses, name))
  {
    hide StatusValue;
    if statuses != [] {
      var k := |statuses| - 1;
      StatusesHaveNoState(since, statuses[..k], name);
      ReportsNoState(since, statuses[k]);
    }
  }

  lemma {:induction false} FoundState(l: seq<LabeledValue>, labels: map<string, string>)
    requires NoState(l)
    ensures Lookup(Aggregation.FindLabeled(l, METRIC_CONTAINER_STATUS, labels), STATE, "")
            == if exists i :: 0 <= i < |l| && l[i].name == METRIC_CONTAINER_STATUS then Lookup(labels, STATE, "") else ""
  {
    if l != [] && l[0].name != METRIC_CONTAINER_STATUS {
      FoundState(l[1..], labels);
      if i :| 0 <= i < |l| && l[i].name == METRIC_CONTAINER_STATUS {
        assert l[1..][i - 1].name == METRIC_CONTAINER_STATUS;
      }
    }
  }

  /** Where no status value has the label, only the set's own labels can take a container out of the count. */
  lemma TakesUpResourcesIff(v: SetView)
    requires NoState(v.labeled) && METRIC_CONTAINER_STATUS !in v.values
    ensures Aggregation.PodContainerTakesUpResources(v)
            <==> !(Lookup(v.labels, STATE, "") == "terminated"
                   && exists i :: 0 <= i < |v.labeled| && v.labeled[i].name == METRIC_CONTAINER_STATUS)
  {
    FoundState(v.labeled, v.labels);
  }

  ghost predicate SaysNoState(v: SetView) {
    NoState(v.labeled) && STATE !in v.labels && METRIC_CONTAINER_STATUS !in v.values
  }

  lemma Counted(v: SetView)
    requires SaysNoState(v) && Lookup(v.labels, LABEL_TYPE, "") == TYPE_POD_CONTAINER
    ensures Aggregation.IsPartOfGroup(Aggregation.AggregatablePodContainers, v)
  {
    hide Aggregation.PodContainerTakesUpResources, NoState, Aggregation.PodTakesUpResources;
    TakesUpResourcesIff(v);
  }

  lemma StateIsNoLabel()
    ensures STATE !in {LABEL_TYPE, LABEL_NAMESPACE_NAME, LABEL_POD_NAME, LABEL_POD_ID, LABEL_NODENAME, LABEL_HOSTNAME}
    ensures STATE !in {LABEL_HOST_ID, LABEL_WORKLOAD_NAME, LABEL_WORKLOAD_KIND, LABEL_CONTAINER_NAME, LABEL_CONTAINER_BASE_IMAGE}
  {
    assert |STATE| == 5 && |LABEL_TYPE| == 4;
  }

  lemma NoStatusRequest(c: Container)
    ensures METRIC_CONTAINER_STATUS !in RequestValues(c, {})
  {
    forall key
      ensures RequestName(key) != METRIC_CONTAINER_STATUS
    {
      assert |RequestName(key)| >= 8 && |METRIC_CONTAINER_STATUS| == 6;
    }
    NamesApart(c);
    hide RequestName;
  }

  lemma NoStatusMetric(c: Container)
    ensures METRIC_CONTAINER_STATUS !in ResourceValues(c)
  {
    NoStatusRequest(c);
    hide RequestValues, Given;
    assert |METRIC_CONTAINER_STATUS| == 6 && |METRIC_CPU_REQUEST| == 11 && |METRIC_CPU_LIMIT| == 9;
    assert |METRIC_MEMORY_REQUEST| == 14 && |METRIC_MEMORY_LIMIT| == 12;
    assert |METRIC_EPHEMERAL_STORAGE_REQUEST| == 25 && |METRIC_EPHEMERAL_STORAGE_LIMIT| == 23;
  }

  lemma LabelsSayNoState(labels: map<string, string>, pod: Pod, name: string)
    requires STATE !in labels && STATE !in pod.copied
    ensures STATE !in ContainerInfoLabels(labels, pod, name)
  {
    hide FindContainer;
    StateIsNoLabel();
    hide STATE;
  }

  lemma StubLabelsSayNoState(labels: map<string, string>, pod: Pod, c: Container)
    requires STATE !in pod.copied
    ensures STATE !in ContainerStubLabels(pod, c, labels)
  {
    hide Lookup;
    StateIsNoLabel();
    hide STATE;
  }

  lemma ValuesSayNoStatus(values: map<string, Value>, pod: Pod, name: string)
    requires METRIC_CONTAINER_STATUS !in values
    ensures METRIC_CONTAINER_STATUS !in WithRestarts(WithResources(values, pod, name), pod, name)
  {
    hide ResourceValues, FindContainer, FindStatus;
    var spec := FindContainer(pod.containers, name);
    if spec.Some? {
      NoStatusMetric(spec.value);
    }
    assert |METRIC_RESTART_COUNT| == 13 && |METRIC_CONTAINER_STATUS| == 6;
  }

  lemma StatusSaysNoState(labeled: seq<LabeledValue>, pod: Pod, since: int, name: string)
    requires NoState(labeled)
    ensures NoState(WithStatus(labeled, pod, since, name))
  {
    hide StatusValue, FindStatus;
    var status := FindStatus(pod.statuses, name);
    if status.Some? {
      ReportsNoState(since, status.value);
    }
  }

  /** A container set that came without the label still has none when it has been enriched. */
  lemma EnrichedSaysNoState(pod: Pod, since: int, name: string, v: SetView)
    requires SaysNoState(v) && STATE !in pod.copied && SparesIdentity(pod)
    ensures SaysNoState(ContainerInfoOf(v, pod, since, name))
    ensures Lookup(ContainerInfoOf(v, pod, since, name).labels, LABEL_TYPE, "") == Lookup(v.labels, LABEL_TYPE, "")
  {
    IdentityKept(v.labels, pod, name);
    assert IdentityOf(ContainerInfoLabels(v.labels, pod, name)).kind == IdentityOf(v.labels).kind;
    hide ContainerInfoLabels, WithRestarts, WithResources, WithStatus, NoState, Lookup;
    LabelsSayNoState(v.labels, pod, name);
    ValuesSayNoStatus(v.values, pod, name);
    StatusSaysNoState(v.labeled, pod, since, name);
  }

  /** Nor has one that the enricher has made. */
  lemma NewSaysNoState(pod: Pod, since: int, name: string, v: SetView)
    requires ContainerView(pod, since, |pod.statuses|, name, v) && STATE !in pod.copied && SparesIdentity(pod)
    ensures SaysNoState(v) && Lookup(v.labels, LABEL_TYPE, "") == TYPE_POD_CONTAINER
  {
    hide ContainerStubLabels, StatusValues, ResourceValues, NoState, FindContainer, Lookup;
    var spec := FindContainer(pod.containers, name).value;
    var labels :| v.labels == ContainerStubLabels(pod, spec, labels);
    assert pod.statuses[..|pod.statuses|] == pod.statuses;
    StatusesHaveNoState(since, pod.statuses, name);
    NoStatusMetric(spec);
    StubLabelsSayNoState(labels, pod, spec);
    ContainerStubIdentity(pod, spec, labels);
    assert IdentityOf(v.labels).kind == TYPE_POD_CONTAINER;
  }

  /**
   After the enricher, every container is counted, whatever its status says, unless a source or a pod's
   copied labels have brought the label `state` with them: a set that was visited, and one that was made.
   */
  lemma ContainersAreCounted(lister: Lister, since: int, k: ResourceKey, v: SetView)
    requires Proper(lister) && k.PodContainerKey? && PodIdOf(k) in lister && STATE !in lister[PodIdOf(k)].copied
    ensures SaysNoState(v) && Lookup(v.labels, LABEL_TYPE, "") == TYPE_POD_CONTAINER ==>
              Aggregation.IsPartOfGroup(Aggregation.AggregatablePodContainers, Visited(lister, since, k, v))
    ensures NewSet(lister, since, k, v) ==> Aggregation.IsPartOfGroup(Aggregation.AggregatablePodContainers, v)
  {
    var pod := lister[PodIdOf(k)];
    ListedPod(lister, PodIdOf(k));
    hide Proper, SaysNoState, ContainerView, ContainerInfoOf, SparesIdentity, Aggregation.IsPartOfGroup;
    if SaysNoState(v) && Lookup(v.labels, LABEL_TYPE, "") == TYPE_POD_CONTAINER {
      EnrichedSaysNoState(pod, since, k.container, v);
      Counted(ContainerInfoOf(v, pod, since, k.container));
    }
    if NewSet(lister, since, k, v) {
      NewSaysNoState(pod, since, k.container, v);
      Counted(v);
    }
  }

  /** A container that has terminated and stays so. */
  function Done(): ContainerStatus {
    var state := ContainerState(false, None, Some(Terminated("Completed", "", 0, 5)));
    ContainerStatus("c", 0, false, state, ContainerState(false, None, None))
  }

  /** The enricher reports it as terminated, and the aggregators count it. */
  lemma TerminatedIsCounted(since: int)
    ensures var v := SetView(map[], map[LABEL_TYPE := TYPE_POD_CONTAINER], [StatusValue(since, Done())]);
            && StatusValue(since, Done()).value == IntValue(STATE_TERMINATED)
            && "status" in StatusValue(since, Done()).labels && StatusValue(since, Done()).labels["status"] == "terminated"
            && Aggregation.IsPartOfGroup(Aggregation.AggregatablePodContainers, v)
  {
    var v := SetView(map[], map[LABEL_TYPE := TYPE_POD_CONTAINER], [StatusValue(since, Done())]);
    ReportsNoState(since, Done());
    StateIsNoLabel();
    assert FindContainerState(since, Done()) == StateInfo(STATE_TERMINATED, "terminated", "Completed", 0);
    hide Aggregation.IsPartOfGroup, Decimal;
    Counted(v);
  }
}
