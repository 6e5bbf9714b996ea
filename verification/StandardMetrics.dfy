/** The metrics that the Kubelet provides, and those of them that only ever grow (collector/internal/metrics/metrics.go). */
module StandardMetrics {
  import opened Metrics

  datatype MetricType = Cumulative | Gauge | Delta

  datatype Descriptor = Descriptor(name: string, metricType: MetricType, valueType: ValueType)

  const UPTIME := "uptime"
  const CPU_USAGE := "cpu/usage"
  const CPU_LOAD := "cpu/load"
  const EPHEMERAL_STORAGE_USAGE := "ephemeral_storage/usage"
  const MEMORY_USAGE := "memory/usage"
  const MEMORY_RSS := "memory/rss"
  const MEMORY_CACHE := "memory/cache"
  const MEMORY_WORKING_SET := "memory/working_set"
  const PAGE_FAULTS := "memory/page_faults"
  const MAJOR_PAGE_FAULTS := "memory/major_page_faults"
  const NETWORK_RX := "network/rx"
  const NETWORK_RX_ERRORS := "network/rx_errors"
  const NETWORK_TX := "network/tx"
  const NETWORK_TX_ERRORS := "network/tx_errors"
  const DISK_IO_READ := "disk/io_read_bytes"
  const DISK_IO_WRITE := "disk/io_write_bytes"

  const STANDARD_METRICS: seq<Descriptor> :=
    [Descriptor(UPTIME, Cumulative, ValueInt64),
     Descriptor(CPU_USAGE, Cumulative, ValueInt64),
     Descriptor(CPU_LOAD, Gauge, ValueInt64),
     Descriptor(EPHEMERAL_STORAGE_USAGE, Gauge, ValueInt64),
     Descriptor(MEMORY_USAGE, Gauge, ValueInt64),
     Descriptor(MEMORY_RSS, Gauge, ValueInt64),
     Descriptor(MEMORY_CACHE, Gauge, ValueInt64),
     Descriptor(MEMORY_WORKING_SET, Gauge, ValueInt64),
     Descriptor(PAGE_FAULTS, Cumulative, ValueInt64),
     Descriptor(MAJOR_PAGE_FAULTS, Cumulative, ValueInt64),
     Descriptor(NETWORK_RX, Cumulative, ValueInt64),
     Descriptor(NETWORK_RX_ERRORS, Cumulative, ValueInt64),
     Descriptor(NETWORK_TX, Cumulative, ValueInt64),
     Descriptor(NETWORK_TX_ERRORS, Cumulative, ValueInt64)]

  predicate Accumulates(d: Descriptor) {
    d.metricType == Cumulative || d.metricType == Delta
  }

  function Accumulating(metrics: seq<Descriptor>): (r: set<string>)
    ensures forall m :: m in r <==> exists d :: d in metrics && Accumulates(d) && d.name == m
  {
    set d | d in metrics && Accumulates(d) :: d.name
  }

  function Elements(names: seq<string>): set<string> {
    set m | m in names
  }

  lemma AccumulatingPush(metrics: seq<Descriptor>, d: Descriptor)
    ensures Accumulating(metrics + [d]) == Accumulating(metrics) + if Accumulates(d) then {d.name} else {}
  {
    hide Accumulates;
  }

  /** The rates that a metric has bear its name and this ending. */
  const RATE_SUFFIX := "_rate"

  function RateName(m: string): string {
    m + RATE_SUFFIX
  }

  /** The name is that of a rate, going by its ending. */
  predicate LooksLikeRate(m: string) {
    |m| >= 5 && m[|m| - 5] == '_'
  }

  lemma RateNamesLook(m: string)
    ensures LooksLikeRate(RateName(m))
  {
  }

  /** The standard metrics that only grow. */
  const GROWING: set<string> :=
    {UPTIME, CPU_USAGE, PAGE_FAULTS, MAJOR_PAGE_FAULTS, NETWORK_RX, NETWORK_RX_ERRORS, NETWORK_TX, NETWORK_TX_ERRORS}

  lemma AccumulatingAre()
    ensures Accumulating(STANDARD_METRICS) == GROWING
  {
    hide UPTIME, CPU_USAGE, CPU_LOAD, EPHEMERAL_STORAGE_USAGE, MEMORY_USAGE, MEMORY_RSS, MEMORY_CACHE, MEMORY_WORKING_SET,
      PAGE_FAULTS, MAJOR_PAGE_FAULTS, NETWORK_RX, NETWORK_RX_ERRORS, NETWORK_TX, NETWORK_TX_ERRORS, Accumulating;
    var s := STANDARD_METRICS;
    assert s[0].name == UPTIME && s[1].name == CPU_USAGE && s[8].name == PAGE_FAULTS && s[9].name == MAJOR_PAGE_FAULTS;
    assert s[10].name == NETWORK_RX && s[11].name == NETWORK_RX_ERRORS && s[12].name == NETWORK_TX
           && s[13].name == NETWORK_TX_ERRORS;
    forall m
      ensures m in Accumulating(s) <==> m in GROWING
    {
    }
  }

  /** No metric that only grows is a rate. */
  lemma GrowingAreNoRates()
    ensures forall m :: m in GROWING ==> !LooksLikeRate(m)
  {
    assert !LooksLikeRate(UPTIME) && !LooksLikeRate(CPU_USAGE) && !LooksLikeRate(PAGE_FAULTS);
    assert !LooksLikeRate(MAJOR_PAGE_FAULTS) && !LooksLikeRate(NETWORK_RX) && !LooksLikeRate(NETWORK_RX_ERRORS);
    assert !LooksLikeRate(NETWORK_TX) && !LooksLikeRate(NETWORK_TX_ERRORS);
    hide LooksLikeRate, UPTIME, CPU_USAGE, PAGE_FAULTS, MAJOR_PAGE_FAULTS, NETWORK_RX, NETWORK_RX_ERRORS, NETWORK_TX,
      NETWORK_TX_ERRORS;
  }
}
