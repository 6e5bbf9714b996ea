/**
 What the enricher reports of a container: its requests and limits, its restarts and its state
 (collector/plugins/processors/pod_based_enricher.go, internal/util/util.go).
 */
module ContainerInfo {
  import opened Metrics
  import opened Wrappers

  /** An amount of a resource, as the Kubernetes library rounds it to units and to thousandths. */
  datatype Quantity = Quantity(value: int, milliValue: int)

  datatype ContainerSpec = ContainerSpec(name: string, image: string,
                                         requests: map<string, Quantity>, limits: map<string, Quantity>)

  /** Kubernetes has no resource `ephemeral_storage`, which would share its metric with `ephemeral-storage`. */
  type Container = c: ContainerSpec | "ephemeral_storage" !in c.requests witness ContainerSpec("", "", map[], map[])

  datatype Waiting = Waiting(reason: string, message: string)

  datatype Terminated = Terminated(reason: string, message: string, exitCode: int, finishedAt: int)

  /** At most one part is set, but nothing depends on that. */
  datatype ContainerState = ContainerState(running: bool, waiting: Option<Waiting>, terminated: Option<Terminated>)

  datatype ContainerStatus = ContainerStatus(name: string, restartCount: int, ready: bool,
                                             state: ContainerState, lastTermination: ContainerState)

  const CPU := "cpu"
  const MEMORY := "memory"
  const EPHEMERAL_STORAGE := "ephemeral-storage"
  const METRIC_CPU_REQUEST := "cpu/request"
  const METRIC_MEMORY_REQUEST := "memory/request"
  const METRIC_EPHEMERAL_STORAGE_REQUEST := "ephemeral_storage/request"
  const METRIC_CPU_LIMIT := "cpu/limit"
  const METRIC_MEMORY_LIMIT := "memory/limit"
  const METRIC_EPHEMERAL_STORAGE_LIMIT := "ephemeral_storage/limit"
  const METRIC_RESTART_COUNT := "restart_count"
  const METRIC_CONTAINER_STATUS := "status"

  function IntValue(value: int): Value {
    Value(value, 0.0, ValueInt64)
  }

  // ---- requests and limits --------------------------------------------------------------------

  function RequestName(key: string): string {
    if key == EPHEMERAL_STORAGE then METRIC_EPHEMERAL_STORAGE_REQUEST else key + "/request"
  }

  /** The processor is counted in thousandths, everything else in units. */
  function Amount(key: string, q: Quantity): Value {
    IntValue(if key == CPU then q.milliValue else q.value)
  }

  /** No two resources requested share a metric name. */
  lemma NamesApart(c: Container)
    ensures forall j, k :: j in c.requests && k in c.requests && RequestName(j) == RequestName(k) ==> j == k
  {
    forall j, k | j in c.requests && k in c.requests && RequestName(j) == RequestName(k)
      ensures j == k
    {
      NameIsPlain(j);
      NameIsPlain(k);
    }
  }

  /** The name of a resource in the name of its metric. */
  function Plain(key: string): string {
    if key == EPHEMERAL_STORAGE then "ephemeral_storage" else key
  }

  lemma NameIsPlain(key: string)
    ensures |RequestName(key)| >= 8 && RequestName(key)[..|RequestName(key)| - 8] == Plain(key)
  {
    assert METRIC_EPHEMERAL_STORAGE_REQUEST == "ephemeral_storage" + "/request";
    assert (Plain(key) + "/request")[..|Plain(key)|] == Plain(key);
  }

  /** The metrics of the resources requested, but for those still to do. */
  function RequestValues(c: Container, todo: set<string>): map<string, Value>
  {
    NamesApart(c);
    map k | k in c.requests && k !in todo :: RequestName(k) := Amount(k, c.requests[k])
  }

  lemma RequestAgain(c: Container, todo: set<string>, key: string)
    requires key in c.requests && key in todo
    ensures RequestValues(c, todo - {key}) == RequestValues(c, todo)[RequestName(key) := Amount(key, c.requests[key])]
  {
    NamesApart(c);
    var v, w := RequestValues(c, todo), RequestValues(c, todo - {key});
    hide RequestName, Amount;
    assert forall k :: k in c.requests && k !in todo - {key} <==> (k in c.requests && k !in todo) || k == key;
    assert w.Keys == v.Keys + {RequestName(key)};
  }

  lemma NoRequests(c: Container)
    ensures RequestValues(c, c.requests.Keys) == map[]
  {
  }

  /** A standard resource that is not given counts as zero. */
  function Given(given: map<string, Quantity>, key: string): Value {
    if key in given then Amount(key, given[key]) else IntValue(0)
  }

  function StandardValues(c: Container): map<string, Value> {
    map[METRIC_CPU_REQUEST := Given(c.requests, CPU), METRIC_MEMORY_REQUEST := Given(c.requests, MEMORY),
        METRIC_EPHEMERAL_STORAGE_REQUEST := Given(c.requests, EPHEMERAL_STORAGE),
        METRIC_CPU_LIMIT := Given(c.limits, CPU), METRIC_MEMORY_LIMIT := Given(c.limits, MEMORY),
        METRIC_EPHEMERAL_STORAGE_LIMIT := Given(c.limits, EPHEMERAL_STORAGE)]
  }

  /** Every resource requested under its own name, and the standard requests and limits, given or not. */
  function ResourceValues(c: Container): map<string, Value>
  {
    RequestValues(c, {}) + StandardValues(c)
  }

  lemma AddPut<K, V>(a: map<K, V>, b: map<K, V>, k: K, v: V)
    ensures a + b[k := v] == (a + b)[k := v]
  {
  }

  lemma AddNothing<K, V>(a: map<K, V>)
    ensures a + map[] == a
  {
  }

  lemma AddBoth<K, V>(a: map<K, V>, b: map<K, V>, c: map<K, V>)
    ensures (a + b) + c == a + (b + c)
  {
  }

  lemma PutSame<K, V>(m: map<K, V>, k: K, v: V)
    requires k in m && m[k] == v
    ensures m[k := v] == m
  {
  }

  /** The resources are walked in any order. */
  method UpdateContainerResources(metricSet: MetricSet, c: Container)
    modifies metricSet`values
    ensures metricSet.values == old(metricSet.values) + ResourceValues(c)
  {
    ghost var before := metricSet.values;
    ghost var asked := RequestValues(c, {});
    AddBoth(before, asked, StandardValues(c));
    hide RequestName, Amount, RequestValues, StandardValues;
    var todo := c.requests.Keys;
    NoRequests(c);
    AddNothing(before);
    while todo != {}
      invariant todo <= c.requests.Keys
      invariant metricSet.values == before + RequestValues(c, todo)
      decreases |todo|
    {
      var key :| key in todo;
      RequestAgain(c, todo, key);
      AddPut(before, RequestValues(c, todo), RequestName(key), Amount(key, c.requests[key]));
      metricSet.values := metricSet.values[RequestName(key) := Amount(key, c.requests[key])];
      todo := todo - {key};
    }
    SetRequests(metricSet, c, before);
    SetLimits(metricSet, c);
    AddStandard(before + asked, c);
  }

  /** Requests that were given have their value from the loop; the others are set to zero. */
  method SetRequests(metricSet: MetricSet, c: Container, ghost before: map<string, Value>)
    requires metricSet.values == before + RequestValues(c, {})
    modifies metricSet`values
    ensures metricSet.values == WithRequests(old(metricSet.values), c)
  {
    RequestedAlready(c);
    hide RequestValues, Given;
    SetZero(metricSet, c, CPU, METRIC_CPU_REQUEST);
    SetZero(metricSet, c, MEMORY, METRIC_MEMORY_REQUEST);
    SetZero(metricSet, c, EPHEMERAL_STORAGE, METRIC_EPHEMERAL_STORAGE_REQUEST);
  }

  method SetZero(metricSet: MetricSet, c: Container, key: string, name: string)
    requires key in c.requests ==> name in metricSet.values && metricSet.values[name] == Given(c.requests, key)
    modifies metricSet`values
    ensures metricSet.values == old(metricSet.values)[name := Given(c.requests, key)]
  {
    if key !in c.requests {
      metricSet.values := metricSet.values[name := IntValue(0)];
    } else {
      PutSame(metricSet.values, name, Given(c.requests, key));
    }
  }

  method SetLimits(metricSet: MetricSet, c: Container)
    modifies metricSet`values
    ensures metricSet.values == WithLimits(old(metricSet.values), c)
  {
    hide Given;
    metricSet.values := metricSet.values[METRIC_CPU_LIMIT := Given(c.limits, CPU)];
    metricSet.values := metricSet.values[METRIC_MEMORY_LIMIT := Given(c.limits, MEMORY)];
    metricSet.values := metricSet.values[METRIC_EPHEMERAL_STORAGE_LIMIT := Given(c.limits, EPHEMERAL_STORAGE)];
  }

  function WithRequests(values: map<string, Value>, c: Container): map<string, Value> {
    values[METRIC_CPU_REQUEST := Given(c.requests, CPU)][METRIC_MEMORY_REQUEST := Given(c.requests, MEMORY)]
      [METRIC_EPHEMERAL_STORAGE_REQUEST := Given(c.requests, EPHEMERAL_STORAGE)]
  }

  function WithLimits(values: map<string, Value>, c: Container): map<string, Value> {
    values[METRIC_CPU_LIMIT := Given(c.limits, CPU)][METRIC_MEMORY_LIMIT := Given(c.limits, MEMORY)]
      [METRIC_EPHEMERAL_STORAGE_LIMIT := Given(c.limits, EPHEMERAL_STORAGE)]
  }

  lemma AddStandard(values: map<string, Value>, c: Container)
    ensures WithLimits(WithRequests(values, c), c) == values + StandardValues(c)
  {
    var none: map<string, Value> := map[];
    hide Given;
    AddNothing(values);
    AddPuts(values, none, METRIC_CPU_REQUEST, Given(c.requests, CPU), METRIC_MEMORY_REQUEST, Given(c.requests, MEMORY),
            METRIC_EPHEMERAL_STORAGE_REQUEST, Given(c.requests, EPHEMERAL_STORAGE));
    AddPuts(values, WithRequests(none, c), METRIC_CPU_LIMIT, Given(c.limits, CPU), METRIC_MEMORY_LIMIT,
            Given(c.limits, MEMORY), METRIC_EPHEMERAL_STORAGE_LIMIT, Given(c.limits, EPHEMERAL_STORAGE));
    assert StandardValues(c) == WithLimits(WithRequests(none, c), c);
  }

  lemma AddPuts<K, V>(a: map<K, V>, b: map<K, V>, j: K, u: V, k: K, v: V, l: K, w: V)
    ensures a + b[j := u][k := v][l := w] == (a + b)[j := u][k := v][l := w]
  {
    AddPut(a, b, j, u);
    AddPut(a, b[j := u], k, v);
    AddPut(a, b[j := u][k := v], l, w);
  }

  lemma RequestedAlready(c: Container)
    ensures Requested(c, CPU, METRIC_CPU_REQUEST) && Requested(c, MEMORY, METRIC_MEMORY_REQUEST)
    ensures Requested(c, EPHEMERAL_STORAGE, METRIC_EPHEMERAL_STORAGE_REQUEST)
  {
    assert RequestName(CPU) == METRIC_CPU_REQUEST && RequestName(MEMORY) == METRIC_MEMORY_REQUEST;
    assert RequestName(EPHEMERAL_STORAGE) == METRIC_EPHEMERAL_STORAGE_REQUEST;
    hide RequestName, RequestValues;
    RequestedAt(c, CPU);
    RequestedAt(c, MEMORY);
    RequestedAt(c, EPHEMERAL_STORAGE);
  }

  lemma RequestedAt(c: Container, key: string)
    ensures Requested(c, key, RequestName(key))
  {
    NamesApart(c);
    hide RequestName;
  }

  ghost predicate Requested(c: Container, key: string, name: string)
  {
    key in c.requests ==> name in RequestValues(c, {}) && RequestValues(c, {})[name] == Given(c.requests, key)
  }

  // ---- states ---------------------------------------------------------------------------------

  const STATE_RUNNING := 1
  const STATE_WAITING := 2
  const STATE_TERMINATED := 3

  datatype StateInfo = StateInfo(value: int, state: string, reason: string, exitCode: int)

  function InfoOf(state: ContainerState): StateInfo {
    if state.running then StateInfo(STATE_RUNNING, "running", "", 0)
    else if state.waiting.Some? then StateInfo(STATE_WAITING, "waiting", state.waiting.value.reason, 0)
    else if state.terminated.Some? then
      StateInfo(STATE_TERMINATED, "terminated", state.terminated.value.reason, state.terminated.value.exitCode)
    else StateInfo(0, "unknown", "", 0)
  }

  /** A termination since the last collection is reported before the present state is. */
  function FindContainerState(since: int, status: ContainerStatus): StateInfo {
    if status.lastTermination.terminated.None? || since > status.lastTermination.terminated.value.finishedAt
    then InfoOf(status.state)
    else InfoOf(status.lastTermination)
  }

  function DigitChar(d: int): char
    requires 0 <= d < 10
  {
    "0123456789"[d]
  }

  function Decimal(n: int): string
    decreases if n < 0 then 1 - n else n
  {
    if n < 0 then "-" + Decimal(-n) else if n < 10 then [DigitChar(n)] else Decimal(n / 10) + [DigitChar(n % 10)]
  }

  function MetricTags(info: StateInfo): map<string, string> {
    if info.value <= 0 then map[]
    else if info.reason == "" then map["status" := info.state]
    else map["status" := info.state, "reason" := info.reason, "exit_code" := Decimal(info.exitCode)]
  }

  function StatusValue(since: int, status: ContainerStatus): LabeledValue {
    var info := FindContainerState(since, status);
    LabeledValue(METRIC_CONTAINER_STATUS, MetricTags(info), IntValue(info.value))
  }

  /**
   A container that runs is reported as terminated if and only if it has terminated no earlier than the
   last collection, so that a restart between two collections is seen by the later one.
   */
  lemma RestartIsReported(since: int, status: ContainerStatus)
    requires status.state.running && !status.lastTermination.running && status.lastTermination.waiting.None?
    ensures FindContainerState(since, status).value == STATE_TERMINATED
            <==> status.lastTermination.terminated.Some? && since <= status.lastTermination.terminated.value.finishedAt
  {
  }

  // ---- by name --------------------------------------------------------------------------------

  /** The first container of the name. */
  function FindContainer(containers: seq<Container>, name: string): Option<Container> {
    if containers == [] then None
    else if containers[0].name == name then Some(containers[0]) else FindContainer(containers[1..], name)
  }

  /** The first status of the name. */
  function FindStatus(statuses: seq<ContainerStatus>, name: string): Option<ContainerStatus> {
    if statuses == [] then None
    else if statuses[0].name == name then Some(statuses[0]) else FindStatus(statuses[1..], name)
  }

  /** What all statuses of the name report, in order. */
  function StatusValues(since: int, statuses: seq<ContainerStatus>, name: string): seq<LabeledValue> {
    if statuses == [] then []
    else
      var k := |statuses| - 1;
      StatusValues(since, statuses[..k], name)
      + if statuses[k].name == name then [StatusValue(since, statuses[k])] else []
  }

  lemma StatusValuesNext(since: int, statuses: seq<ContainerStatus>, i: nat, name: string)
    requires i < |statuses|
    ensures StatusValues(since, statuses[..i + 1], name)
            == StatusValues(since, statuses[..i], name)
               + if statuses[i].name == name then [StatusValue(since, statuses[i])] else []
  {
    assert statuses[..i + 1][..i] == statuses[..i];
  }

  lemma {:induction false} FindContainerIs(containers: seq<Container>, name: string, i: nat)
    requires i <= |containers| && (forall j :: 0 <= j < i ==> containers[j].name != name)
    requires i < |containers| ==> containers[i].name == name
    ensures FindContainer(containers, name) == if i < |containers| then Some(containers[i]) else None
    decreases |containers|
  {
    if i > 0 {
      FindContainerIs(containers[1..], name, i - 1);
    }
  }

  lemma {:induction false} FindStatusIs(statuses: seq<ContainerStatus>, name: string, i: nat)
    requires i <= |statuses| && (forall j :: 0 <= j < i ==> statuses[j].name != name)
    requires i < |statuses| ==> statuses[i].name == name
    ensures FindStatus(statuses, name) == if i < |statuses| then Some(statuses[i]) else None
    decreases |statuses|
  {
    if i > 0 {
      FindStatusIs(statuses[1..], name, i - 1);
    }
  }

  /** Why a pod without owner is not available: a container that is not ready waits or has terminated. */
  datatype Fault = Fault(reason: string, message: string)

  function FaultOf(status: ContainerStatus): Option<Fault> {
    if status.ready then None
    else if status.state.waiting.Some? then Some(Fault(status.state.waiting.value.reason, status.state.waiting.value.message))
    else if status.state.terminated.Some? then
      Some(Fault(status.state.terminated.value.reason, status.state.terminated.value.message))
    else None
  }

  /** The fault of the first container that has one. */
  function FirstFault(statuses: seq<ContainerStatus>): Option<Fault> {
    if statuses == [] then None
    else if FaultOf(statuses[0]).Some? then FaultOf(statuses[0]) else FirstFault(statuses[1..])
  }

  lemma {:induction false} FirstFaultIs(statuses: seq<ContainerStatus>, i: nat)
    requires i <= |statuses| && (forall j :: 0 <= j < i ==> FaultOf(statuses[j]).None?)
    requires i < |statuses| ==> FaultOf(statuses[i]).Some?
    ensures FirstFault(statuses) == if i < |statuses| then FaultOf(statuses[i]) else None
    decreases |statuses|
  {
    hide FaultOf;
    if i > 0 {
      FirstFaultIs(statuses[1..], i - 1);
    }
  }
}
