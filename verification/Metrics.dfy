/** Metric sets and batches, as the sources fill them and the processors change them (internal/metrics). */
module Metrics {
  import opened Wrappers

  /** The value type is a small integer, so codes other than the two named ones can occur. */
  datatype ValueType = ValueInt64 | ValueFloat | OtherType(code: int)

  datatype Value = Value(intValue: int, floatValue: real, valueType: ValueType) {

    predicate IsZero() {
      match valueType
      case ValueInt64 => intValue == 0
      case ValueFloat => floatValue == 0.0
      case OtherType(_) => true
    }
  }

  datatype LabeledValue = LabeledValue(name: string, labels: map<string, string>, value: Value)

  /** Kubernetes names hold no colon or slash, so the key strings are one-to-one with these. */
  datatype ResourceKey =
    | PodContainerKey(namespace: string, pod: string, container: string)
    | PodKey(namespace: string, pod: string)
    | WorkloadStatusPodKey(namespace: string, pod: string)
    | NamespaceKey(namespace: string)
    | NodeKey(node: string)
    | NodeContainerKey(node: string, container: string)
    | ClusterKey
    | OtherKey(text: string)

  const LABEL_TYPE := "type"
  const LABEL_NAMESPACE_NAME := "namespace_name"
  const LABEL_POD_NAME := "pod_name"
  const LABEL_NODENAME := "nodename"
  const LABEL_NAMESPACE_UID := "namespace_id"
  const LABEL_POD_ID := "pod_id"
  const LABEL_HOSTNAME := "hostname"
  const LABEL_HOST_ID := "host_id"

  const TYPE_POD := "pod"
  const TYPE_POD_CONTAINER := "pod_container"
  const TYPE_NAMESPACE := "ns"
  const TYPE_CLUSTER := "cluster"

  /** A metric set; times are nanoseconds. */
  class MetricSet {
    var collectionStartTime: int
    var entityCreateTime: int
    var scrapeTime: int
    var values: map<string, Value>
    var labels: map<string, string>
    var labeledValues: seq<LabeledValue>

    constructor (labels: map<string, string>)
      ensures this.labels == labels && values == map[] && labeledValues == []
      ensures collectionStartTime == entityCreateTime == scrapeTime == 0
    {
      collectionStartTime, entityCreateTime, scrapeTime := 0, 0, 0;
      values, labeledValues := map[], [];
      this.labels := labels;
    }
  }

  datatype Point = Point(name: string, value: real, timestamp: int, source: string, tags: map<string, string>)

  class Batch {
    var timestamp: int
    var sets: map<ResourceKey, MetricSet>
    var points: seq<Point>

    constructor ()
      ensures timestamp == 0 && sets == map[] && points == []
    {
      timestamp, sets, points := 0, map[], [];
    }
  }

  function Get<K, V>(m: map<K, V>, k: K): Option<V> {
    if k in m then Some(m[k]) else None
  }

  function Lookup<K, V>(m: map<K, V>, k: K, default: V): V {
    if k in m then m[k] else default
  }
}
