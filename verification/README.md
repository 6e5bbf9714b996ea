# Verified model of the observability collector's metric path

This project models the path a metric takes through the Kubernetes observability collector, from the
scrape of a source to the hand-off to the sinks, and proves what each stage promises. Three stateful
pieces beside that path are modelled as well: the line parser of the test proxy, the registry of
discovered sources, and the per-minute store of the Pixie sizer.

Code that changes things in place is modelled by classes and methods with loops over mutable fields,
maps and arrays; each method is proved against a function or a relation on values, and the properties
of the system are lemmas about those. Where Go walks a map, the loop takes any remaining key, so that
what is proved holds for every order. The stages, file by file:

| file | part of the system |
|---|---|
| `MetricGrammar.dfy`, `MetricParser.dfy`, `MetricRoundTrip.dfy`, `UnquotedRoundTrip.dfy` | the backtracking parser for Wavefront lines |
| `MetricReader.dfy` | the chunking reader of Prometheus scrapes |
| `IntervalTimer.dfy` | the aligned scrape timer |
| `SourceManager.dfy`, `SourceCleanup.dfy`, `Discovery.dfy`, `DiscoveryCounts.dfy`, `Discoverer.dfy` | providers, endpoint handler and discoverer |
| `Flush.dfy` | the response queue and the combination of a flush |
| `RateCalculator.dfy`, `RateRuns.dfy`, `PodRates.dfy`, `SentRates.dfy` | rates of metric sets against a cache that the pod aggregator writes into, and the rates that are sent |
| `Histogram.dfy`, `HistogramConversion.dfy` | conversion of cumulative histograms |
| `DistributionRates.dfy`, `DistributionRuns.dfy` | histogram rates against a cache |
| `ContainerInfo.dfy`, `Enricher.dfy` | the pod-based enricher |
| `PodAggregation.dfy`, `PodAggregationPass.dfy` | pod metrics from container metrics |
| `Aggregation.dfy`, `AggregationPass.dfy`, `AggregationLevels.dfy`, `AggregationRun.dfy` | namespace, node and cluster aggregation |
| `TerminatedContainers.dfy` | what the aggregators count after the enricher |
| `Labels.dfy`, `TagBudget.dfy` | label text and the tag budget |
| `SinkManager.dfy`, `SinkStops.dfy` | the hand-off to the sinks |
| `NumberStore.dfy` | the ring of per-minute observations |
| `Metrics.dfy`, `StandardMetrics.dfy`, `BatchSets.dfy`, `Bags.dfy`, `Strings.dfy`, `StringMaps.dfy`, `Sums.dfy`, `Wrappers.dfy` | shared types and lemmas |

Some natural claims are false of the code; each is stated with the condition under which it holds:

- A printed metric is read back if and only if it is well formed: not the name `~`, no tag value that
  ends in a backslash, and so on (`MetricRoundTrip.RoundTrip`).
- Whole-number histograms keep their weight if and only if they are not a lone unbounded bucket that has
  counted something (`HistogramConversion.WholeWeightIsExact`).
- Labels come back if and only if no key holds `,` or `:` and no value holds `,` (`Labels.LabelRoundTrip`).
- The next wait of the timer lies in [t, interval + t) if and only if the interval exceeds 30 ns or the
  timer is not reset right on a mark (`IntervalTimer.WaitRange`).
- Containers add up to their pod in every order if and only if their values that are not zero agree in
  type (`PodAggregation.SumIffAgree`).
- The cluster's count of containers is exact if and only if no namespace has pods but no containers, and
  its count of pods if and only if none has containers but no pods; each such namespace counts one too
  many (`AggregationRun.ClusterCountOfInput`).
- A terminated container is left out of the counts if and only if a label `state` says so; the enricher
  writes the state under `status`, so it is counted (`TerminatedContainers.ContainersAreCounted`).
- The guarantee list keeps all its tags that are not empty if and only if none of them is on the exclude
  list (`TagBudget.GuaranteeKeepsIff`).
- A stop can reach its sink if and only if the sink's worker is idle, or its call returns no later than the
  stop's deadline; a worker that is gone can never be stopped (`SinkStops.StopArrivesIff`).
- A counter of registered targets agrees with the registry if and only if as many additions repeat a
  registered name as deletions find none (`DiscoveryCounts.CountAgreesIff`).
- After a resource's endpoints are replaced, the registry agrees with what is tracked if and only if the
  replacement takes no name away that is also registered elsewhere (`Discovery.ReplaceAgrees`).
- Chunks of a scrape put together are the scrape if and only if it is made of whole lines that end in a
  plain newline and none of them has 64 KB or more; the first that has takes all that follows away
  (`MetricReader.ReadAll`, `MetricReader.LongLineLosesRest`).
- With its names unquoted a metric is read back if and only if, besides, no tag name has a slash and the
  first tag name of a point without timestamp does not start with ten digits
  (`UnquotedRoundTrip.UnquotedRoundTrip`).
- The rates calculated for a resource always add up to the growth of what its source reported, since the pod
  aggregator skips every metric that has rates (`PodRates.RatesAddUp`). The rates sent for it do so if and only
  if no calculated rate of zero gives way to rates of its containers that do not add up to zero; a pod that
  stands still beside a container that does not is sent the container's rate (`SentRates.SentAddUpIff`,
  `SentRates.StandingPodSendsRates`).
- Deleting a provider takes away all that its sources registered if and only if the sources it answers with
  at that time unregister it. For sources that unregister what they register and share no name, this is so
  if and only if the answer holds every source ever scraped (`SourceCleanup.CleanedIffAnswered`); a provider
  that has lost the lead answers with none (`SourceCleanup.LostLeadLeavesAll`).
- A counter of registered targets is the number of tracked endpoints that build if and only if no endpoint
  that does not build was ever deleted (`DiscoveryCounts.CountOfTracked`).
- Marks of the timer are all missed or served if and only if no reset comes earlier after its mark than the
  one before (`IntervalTimer.AllMarksCountedIff`); each that does passes one mark more
  (`IntervalTimer.MarksAreAccounted`).

## Model

| member | source | states |
|---|---|---|
| MetricParser.Grammar.Restore | test-proxy/internal/testproxy/metricline/metric_grammar.peg.go:415-625 | a rule that fails puts cursor and token index back, and the tokens before that index are those the rule started with |
| MetricParser.Grammar.MatchTagValue | test-proxy/internal/testproxy/metricline/metric_grammar.peg.go:804-1075 | the quoted tag value is matched as the grammar says, escaped quotes included, and a failed match leaves no trace |
| MetricParser.Grammar.MatchTimestampOpt | test-proxy/internal/testproxy/metricline/metric_grammar.peg.go:1080-1160 | the optional timestamp takes 10, 13 or 16 digits as soon as it can and is never retried |
| MetricParser.Grammar.MatchMetricName | test-proxy/internal/testproxy/metricline/metric_grammar.peg.go:1162-1438 | the quoted alternative is tried first, then the plain one, with the delta and tilde prefixes |
| MetricParser.Grammar.Parse | test-proxy/internal/testproxy/metricline/metric_grammar.peg.go:353-410 | after a successful parse the trimmed token table holds exactly the tokens of the grammar's match, and none of an abandoned alternative |
| MetricParser.Grammar.Execute | test-proxy/internal/testproxy/metricline/metric_grammar.peg.go:293-326 | walking the tokens sets the fields as the semantic actions prescribe, token by token |
| MetricParser.Parse | test-proxy/internal/testproxy/metricline/parse.go:11-29 | a line is accepted exactly when the grammar matches it, and gives the metric its fields spell |
| MetricRoundTrip.ParsedIsWellFormed | test-proxy/internal/testproxy/metricline/metric_grammar.peg.go:415-1511 | whatever the parser accepts is a well-formed metric |
| MetricRoundTrip.RoundTrip | test-proxy/internal/testproxy/metricline/parse.go:11-29 | a metric printed with quoted names, its tags and buckets in any order, parses back to itself if and only if it is well formed |
| UnquotedRoundTrip.UnquotedRoundTrip | test-proxy/internal/testproxy/metricline/metric_grammar.peg.go:1080-1160 | a metric printed with its names unquoted, in any order, parses back to itself if and only if it is well formed, no tag name has a slash, and the first tag of a point without timestamp does not start with ten digits |
| MetricRoundTrip.ReprintIsStable | test-proxy/internal/testproxy/metricline/parse.go:11-29 | for every accepted line, printing the result and parsing again gives the same metric |
| MetricReader.TrimmedBlank | collector/plugins/sources/prometheus/metric_reader.go:45-51 | trimming leaves nothing of a line exactly when it has white space only |
| MetricReader.LookaheadReader.AdvanceLine | collector/plugins/sources/prometheus/lookahead_reader.go:50-53 | the reader is done exactly when the readable lines are used up, and otherwise holds the next one; a line too long for the scanner ends them |
| MetricReader.LookaheadReader.Read | collector/plugins/sources/prometheus/lookahead_reader.go:33-42 | reading takes exactly the next line; at the end it takes none |
| MetricReader.MetricReader.Read | collector/plugins/sources/prometheus/metric_reader.go:26-33 | a chunk is the text of consecutive lines, from where the last one ended |
| MetricReader.ReadTakesLine | collector/plugins/sources/prometheus/metric_reader.go:26-61 | every read consumes at least one line, so reading until done terminates |
| MetricReader.ReadEndsAtNextGroup | collector/plugins/sources/prometheus/metric_reader.go:35-61 | a chunk ends right before the next comment line whose nearest earlier line that is not blank is a sample |
| MetricReader.CommentsStayWithSamples | collector/plugins/sources/prometheus/metric_reader.go:35-61 | no boundary falls between a comment and the first sample after it |
| MetricReader.LinesRoundTrip | collector/plugins/sources/prometheus/lookahead_reader.go:17-28 | writing the lines that are read back gives the text exactly when it is made of whole lines ending in a plain newline, none of them too long |
| MetricReader.ReadableAre | collector/plugins/sources/prometheus/lookahead_reader.go:17-53 | the lines read are those before the first that is too long for the scanner, and all lines if and only if there is none |
| MetricReader.ShortLinesIff | collector/plugins/sources/prometheus/lookahead_reader.go:17-28 | no line is too long if and only if every stretch between newlines has fewer than 65536 bytes |
| MetricReader.LongLineLosesRest | collector/plugins/sources/prometheus/lookahead_reader.go:50-53 | whatever comes before and after it, a line of 65536 bytes or more ends the reading |
| MetricReader.LongSampleIsLost | collector/plugins/sources/prometheus/lookahead_reader.go:50-53 | three plain lines, the second of 70000 characters: only the first is read |
| MetricReader.ReadAll | collector/plugins/sources/prometheus/prometheus.go:182-203 | the chunks are the cuts of the readable lines before each comment that opens a new group; together they are the scrape if and only if it is made of whole lines ending in a plain newline, none of them too long |
| IntervalTimer.WaitLands | collector/plugins/sources/interval_timer.go:40-46 | after every reset the timer fires on a whole multiple of the interval from the start |
| IntervalTimer.WaitIsFirst | collector/plugins/sources/interval_timer.go:40-50 | the wait is the least positive one that lands and is not below the threshold |
| IntervalTimer.WaitRange | collector/plugins/sources/interval_timer.go:40-50 | the wait lies in [t, interval + t) if and only if the interval is above 30 ns or the reset is off a mark |
| IntervalTimer.WaitLeavesRange | collector/plugins/sources/interval_timer.go:40-50 | an interval of 30 ns reset on a mark waits a full interval, outside that range |
| IntervalTimer.MissedIsExact | collector/plugins/sources/interval_timer.go:33-38 | a late reset misses the whole intervals since the last one, less the one it serves; the count is never negative |
| IntervalTimer.MissedFitsElapsed | collector/plugins/sources/interval_timer.go:33-38 | over any run of resets, missed and served intervals together never exceed the elapsed time |
| IntervalTimer.MarksAreAccounted | collector/plugins/sources/interval_timer.go:14-50 | over any run of resets every mark passed is missed, served, or passed by a reset that comes earlier after its mark than the one before |
| IntervalTimer.AllMarksCountedIff | collector/plugins/sources/interval_timer.go:14-50 | all marks passed are missed or served if and only if no reset comes earlier after its mark than the one before |
| IntervalTimer.SkippedMarkIsUncounted | collector/plugins/sources/interval_timer.go:40-46 | a reset 10 ns before a mark skips it, and it is neither missed nor served |
| IntervalTimer.PromptMissesNothing | collector/plugins/sources/interval_timer.go:14-21 | the wait is always below two intervals, so a timer reset when it fires misses nothing; reset with a delay it misses nothing if and only if wait and delay stay below two intervals |
| IntervalTimer.IntervalTimer.Reset | collector/plugins/sources/interval_timer.go:14-21 | a reset keeps the timer aligned and adds its missed count to the run's total |
| SourceManager.SourceManager.AddProvider | collector/plugins/sources/manager.go:133-182 | a provider takes its name over: the old one is deleted, with its channel closed, its timer stopped and its sources asked for once more and cleaned up; a fresh open channel and a running timer take their place, other names are untouched |
| SourceManager.SourceManager.DeleteProvider | collector/plugins/sources/manager.go:184-209 | the name leaves all three maps, its timer is stopped and its channel closed; the provider is asked once more, and the sources it then answers with, whichever they are, are cleaned up; no channel is ever closed twice |
| SourceManager.SourceManager.StopProviders | collector/plugins/sources/manager.go:211-215 | afterwards nothing is registered, every channel ever opened is closed and every timer ever made is stopped, and each provider has been asked and cleaned up once |
| SourceManager.SourceManager.Scrape | collector/plugins/sources/manager.go:236-242 | a scrape asks the provider for its sources anew, and what they register joins the internal metrics |
| SourceCleanup.RegisteredIff | collector/plugins/sources/manager.go:204-206 | over any run of scrapes and deletions a name is registered if and only if some answer has left it there and no deletion since has removed it |
| SourceCleanup.CleanedIff | collector/plugins/sources/manager.go:204-206 | nothing that a provider registered is left after its deletion if and only if the sources it answers with then unregister all of it that is still there |
| SourceCleanup.CleanedIffAnswered | collector/plugins/sources/prometheus/prometheus.go:132-136 | for sources that unregister what they register and share no name, that is so if and only if the answer holds every source ever scraped |
| SourceCleanup.LostLeadLeavesAll | collector/plugins/sources/prometheus/prometheus.go:214-236 | a provider scraped while leading and deleted after losing the lead leaves everything registered |
| SourceCleanup.TelegrafLeavesPoints | collector/plugins/sources/telegraf/provider.go:87-90 | a Telegraf source unregisters one of its two names only, so that the other stays |
| Discoverer.EndpointHandler.Add | collector/internal/discovery/endpoint.go:41-56 | the provider's name is registered and counted exactly when its type is known and it can be built |
| Discoverer.EndpointHandler.Delete | collector/internal/discovery/endpoint.go:58-74 | the name is gone from the registry, and the count falls whether or not there was a provider |
| DiscoveryCounts.DriftOfCalls | collector/internal/discovery/endpoint.go:41-74 | over any calls the count of a type runs ahead of its registered names by the additions that repeat a name, and behind by the deletions that find none |
| DiscoveryCounts.CountAgreesIff | collector/internal/discovery/endpoint.go:41-74 | from agreement, the count is again the number of registered names of its type if and only if these two are equal |
| DiscoveryCounts.CountAlwaysAgreesIff | collector/internal/discovery/endpoint.go:41-74 | the count agrees after every call if and only if no addition repeats a name and no deletion finds none |
| DiscoveryCounts.CountOfTracked | collector/plugins/discovery/discoverer.go:153-259 | in every run of the discoverer a counter is the number of tracked endpoints of its type that build, less the deletions of endpoints that do not; so it is that number if and only if there was no such deletion |
| DiscoveryCounts.FactoriesAreSeparate | collector/plugins/discovery/discoverer.go:67-72 | with the two factories of the collector no name belongs to two types, as these statements ask |
| Discoverer.Discoverer.InternalDiscover | collector/plugins/discovery/discoverer.go:165-190 | is a discover step of the state machine: unchanged endpoints are left alone, otherwise the old go and the new come |
| Discoverer.Discoverer.InternalDelete | collector/plugins/discovery/discoverer.go:192-203 | is a delete step: what the resource had is deleted and no longer tracked |
| Discoverer.Discoverer.DiscoverNodeEndpoint | collector/plugins/discovery/discoverer.go:246-259 | is a node step: one endpoint joins those of the node |
| Discoverer.Discoverer.DeleteAll | collector/plugins/discovery/discoverer.go:153-163 | is a delete-all step, for any order of the resources |
| Discovery.AddNamesIs | collector/plugins/discovery/discoverer.go:187-189 | adding a list of endpoints registers exactly the names of those that build, besides what was there |
| Discovery.DeleteNamesIs | collector/plugins/discovery/discoverer.go:184-186 | deleting a list of endpoints removes exactly their names |
| Discovery.StepConserves | collector/plugins/discovery/discoverer.go:153-203 | every step keeps endpoints added equal to endpoints deleted plus the multiset tracked |
| Discovery.RunConserves | collector/plugins/discovery/discoverer.go:153-259 | in every run, added less deleted is what is tracked |
| Discovery.ReplaceAgrees | collector/plugins/discovery/discoverer.go:165-203 | after a replacement or deletion the registered names are those tracked that build, if and only if no name registered elsewhere is taken away |
| Discovery.StepAgrees | collector/plugins/discovery/discoverer.go:153-259 | where no two resources share a name, every step keeps registry and tracked endpoints in agreement |
| Discovery.RunAgrees | collector/plugins/discovery/discoverer.go:153-259 | in every run without shared names, the registered names are those of the tracked endpoints that build, and those registered by others |
| Discovery.ClearAgrees | collector/plugins/discovery/discoverer.go:153-163 | after everything is deleted, registry and tracked endpoints agree if and only if no tracked name was registered by others |
| Discovery.SharedNameIsLost | collector/plugins/discovery/discoverer.go:192-203 | two resources with one endpoint name: when one is deleted, the other is tracked but no longer registered |
| Flush.DrainedOnce | collector/plugins/sources/manager.go:217-234 | over any interleaving of arrivals and rotations, the batches that arrived are those drained followed by those pending |
| Flush.ResponseQueue.Receive | collector/plugins/sources/manager.go:217-226 | a batch is appended, nil is dropped |
| Flush.ResponseQueue.RotateResponse | collector/plugins/sources/manager.go:228-234 | all pending batches are handed out, once |
| Flush.ResponseQueue.GetPendingMetrics | collector/plugins/sources/manager.go:282-286 | hands out a permutation of the pending batches in timestamp order |
| Flush.CombineMetricSets | collector/plugins/manager/manager.go:104-114 | the later batch's timestamp and sets win, its points are appended |
| Flush.LastHolderWins | collector/plugins/manager/manager.go:86-88 | each key's set comes from the last batch that holds the key |
| Flush.FlushTakesLatest | collector/plugins/manager/manager.go:82-114 | however ties are sorted: the timestamp is the greatest, every key's set is from a batch with the greatest timestamp among its holders, points come in timestamp order |
| Flush.PointsConserved | collector/plugins/manager/manager.go:104-114 | no point is lost or doubled by a flush |
| Flush.CombinePending | collector/plugins/manager/manager.go:82-88 | what the processors get from a flush is the latest-wins combination of what was pending, or an empty batch |
| RateCalculator.RateCalculator.RateDisk | collector/plugins/processors/rate_calculator.go:69-100 | only the labeled values there at the start are visited, and each gives a rate exactly when its device was there before |
| RateCalculator.RateCalculator.Rate | collector/plugins/processors/rate_calculator.go:68-127 | for any order of the metrics every rate is written once, sources stay as they are, and the original labeled values stay a prefix |
| RateCalculator.RateCalculator.Process | collector/plugins/processors/rate_calculator.go:42-145 | rates are written only against a strictly older sample of the same start; the cache keeps the newer sample of each key and is pruned to the batch when due |
| RateCalculator.BatchIsCached | collector/plugins/processors/rate_calculator.go:46-143 | every key of the batch is cached after a call, and after pruning no other |
| RateCalculator.CachedTimeIsLatest | collector/plugins/processors/rate_calculator.go:54-63 | between prunes a cached scrape time never goes back: it is the greatest one seen |
| RateCalculator.MilliRateIsClose | collector/plugins/processors/rate_calculator.go:105-113 | the CPU rate r satisfies -dt < r dt - 1000 dv < dt |
| RateRuns.RatesAccountForUsage | collector/plugins/processors/rate_calculator.go:46-129 | over any run of flushes, with whatever is written into cached sets after their rates, the CPU rates times elapsed time account for the growth reported by the source less the gaps between cached and reported values, up to one unit per nanosecond |
| RateRuns.RatesAreExact | collector/plugins/processors/rate_calculator.go:46-129 | over any run of flushes every other rate times elapsed time adds up to exactly the growth reported less those gaps |
| RateRuns.ExactIffNoGap | collector/plugins/processors/rate_calculator.go:46-129 | the rates add up to the growth reported after every flush if and only if each is calculated against a value that was reported |
| RateCalculator.TableIsProper | collector/internal/metrics/metrics.go:70-79 | in the collector's own table no rate is rated again, and no two metrics share a rate |
| PodAggregationPass.PodAggregator.constructor | collector/plugins/processors/pod_aggregator.go:125-140 | a pod aggregator skips exactly the metrics it is told to and the standard metrics that are cumulative or deltas |
| StandardMetrics.AccumulatingAre | collector/internal/metrics/metrics.go:33-47 | of the fourteen standard metrics exactly eight are cumulative or deltas: uptime, CPU usage, both kinds of page faults and the four network metrics |
| PodRates.RatedAreSkipped | collector/internal/setup/data_processors.go:90-99 | whatever else it is told, the aggregator skips every metric that has rates, except the disk metrics, which are labeled values |
| PodRates.RatesAreNotSkipped | collector/internal/setup/data_processors.go:90-99 | as the collector sets it up, it skips none of the rates |
| PodRates.OnlyPodsAreTouched | collector/plugins/processors/pod_aggregator.go:53-76 | sets that are no pods, and metrics that are skipped, come out of the aggregator as they went in |
| PodRates.CachedIsReported | collector/plugins/processors/rate_calculator.go:46-129 | every sample that enters the cache, first ones and restarts included, still holds what its source reported for each metric with rates, although the aggregator writes into the same set |
| PodRates.RatesAddUp | collector/internal/setup/data_processors.go:22-99 | after every flush of every run, a resource's rates times elapsed time add up to exactly the growth reported by its source, for each float rate of the table |
| PodRates.UsageAddsUp | collector/plugins/processors/rate_calculator.go:103-113 | over every run CPU rates account for the usage reported, up to one unit per nanosecond |
| PodRates.DeviceRatesAddUp | collector/plugins/processors/rate_calculator.go:69-100 | over every run in which a disk device has one value per sample, its rates times elapsed time add up to exactly the growth of what was reported for it |
| PodRates.RateAndAggregate | collector/internal/setup/data_processors.go:22-99 | the rate calculator followed by the pod aggregator, as the collector makes them and on shared sets, is a turn of such a run, and no value that rates will be calculated against is changed by it |
| SentRates.SentIff | collector/plugins/processors/pod_aggregator.go:74-102 | what a flush sends for a calculated rate is that rate if and only if it is not zero, no container has one, or theirs add up to zero; otherwise their sum replaces a zero |
| SentRates.SentIsCalculatedIff | collector/plugins/processors/pod_aggregator.go:74-102 | over every run, and for each rate of the table, the rates sent come to those calculated after every flush if and only if that is so in every flush |
| SentRates.SentAddUpIff | collector/internal/setup/data_processors.go:22-99 | after every flush the float rates sent add up to the growth reported if and only if no calculated rate of zero gave way to rates of containers with a sum that is not zero |
| SentRates.FlushedBoth | collector/internal/setup/data_processors.go:22-99 | the two processors, one after the other, make such a flush of any batch whose sources report no rates |
| SentRates.StandingPodSendsRates | collector/plugins/processors/pod_aggregator.go:79-84 | a pod whose page faults stand still, beside a container with v more, is sent the container's rate while its own is zero |
| RateCalculator.OthersAddNoRates | collector/plugins/processors/rate_calculator.go:70-100 | rates appended for one metric are never taken for values of another |
| Histogram.DeriveCentroids | collector/internal/wf/distribution.go:138-153 | the per-bucket counts are the differences of the cumulative ones |
| Histogram.SmallestCountAboveZero | collector/internal/wf/distribution.go:128-136 | is the smallest positive count, or the largest float when there is none |
| Histogram.SmoothCentroids | collector/internal/wf/distribution.go:88-118 | the map that the loop fills holds, value by value, the sum of all parts placed there |
| Histogram.ToFrequency | collector/internal/wf/distribution.go:75-86 | the result lists the merged parts in increasing order; a distribution that is not cumulative stays |
| HistogramConversion.CumulativeIsSafe | collector/internal/wf/distribution.go:88-118 | strictly increasing bounds and counts that never fall cannot make the conversion panic |
| HistogramConversion.KeptTelescopes | collector/internal/wf/distribution.go:138-153 | the derived counts of positive buckets add up to the last cumulative count less that at the largest bound that is not positive |
| HistogramConversion.BucketConserves | collector/internal/wf/distribution.go:100-117 | the three parts of a bucket add up to the floor of its amplified count, and none is negative |
| HistogramConversion.PartsLieInBucket | collector/internal/wf/distribution.go:100-117 | every part sits between the previous bound and the bucket's own finite bound |
| HistogramConversion.AmplifiedAtLeastOne | collector/internal/wf/distribution.go:88-104 | the amplification brings every positive count to at least one |
| HistogramConversion.ConversionConserves | collector/internal/wf/distribution.go:75-126 | the converted weight is the sum of the floors, even where parts at equal bounds merge; values are finite and strictly increasing, counts not negative |
| HistogramConversion.ConversionIsUnique | collector/internal/wf/distribution.go:120-126 | the result does not depend on the order in which the map is walked |
| HistogramConversion.WeightNearCount | collector/internal/wf/distribution.go:75-118 | the weight is the amplified number of observations, short of it by at most one per bucket |
| HistogramConversion.WholeWeightIsExact | collector/internal/wf/distribution.go:75-118 | with whole counts the weight is exactly the counted difference, if and only if the histogram is no lone unbounded bucket that has counted something |
| DistributionRates.SortCentroids | collector/internal/wf/distribution.go:39-51 | sorts in place by value |
| DistributionRates.Distribution.Clone | collector/internal/wf/distribution.go:53-69 | the copy shares neither tags nor centroids with the original and looks the same |
| DistributionRates.CentroidRate | collector/internal/wf/distribution.go:276-291 | gives rates exactly when bounds are equal, counts have not fallen and time has passed |
| DistributionRates.Distribution.Rate | collector/internal/wf/distribution.go:265-274 | a rate exists only against an earlier distribution of the same series |
| DistributionRates.DistributionRateCalculator.FilterInPlace | collector/plugins/processors/distribution_rate_calculator.go:54-66 | compaction in place equals the pure filter-map, with the write index never ahead of the read index |
| DistributionRates.DistributionRateCalculator.Process | collector/plugins/processors/distribution_rate_calculator.go:29-52 | a call refines the pure pass over the batch, clears the tail, and caches only objects that are not in the batch |
| DistributionRates.ChangeAfterProcess | collector/plugins/processors/distribution_rate_calculator.go:29-52 | whatever is later done to a distribution of the batch, the cache does not notice |
| DistributionRuns.BatchOfSeries | collector/plugins/processors/distribution_rate_calculator.go:29-52 | seen from one series, a batch sends at most one rate and caches a copy of the first occurrence |
| DistributionRuns.OthersPassThrough | collector/plugins/processors/distribution_rate_calculator.go:32-35 | metrics that are not distributions pass through in order |
| DistributionRuns.RunOfSeries | collector/plugins/processors/distribution_rate_calculator.go:29-52 | over any run the cache holds the latest observation of each series, and what is sent are the rates between neighbours |
| DistributionRuns.RunConserves | collector/internal/wf/distribution.go:265-291 | with fixed bounds, counts that never fall and rising timestamps, rates times minutes add up to last count less first count in every bucket |
| Enricher.PodBasedEnricher.AddPodInfo | collector/plugins/processors/pod_based_enricher.go:148-207 | a running pod gets its labels, phase and start time, and sets for exactly those containers that have none, each with the resources of its spec and every status of its name, and a workload status if nothing owns it; other pods are left alone |
| Enricher.PodBasedEnricher.AddContainerInfo | collector/plugins/processors/pod_based_enricher.go:90-146 | a container gets the resources of its spec, its restarts, state, labels and start time; its pod gets a set, and the pod's sets with it, exactly when it has none yet |
| Enricher.PodBasedEnricher.AddWorkloadStatusMetric | collector/plugins/processors/pod_based_enricher.go:209-242 | a pod without owner is unavailable exactly when some container that is not ready waits or has terminated, and then gives the first such reason |
| Enricher.PodBasedEnricher.UpdateContainerStatus | collector/plugins/processors/pod_based_enricher.go:325-338 | of the sets made for the pod each gains exactly the statuses of its container, in order |
| ContainerInfo.UpdateContainerResources | collector/plugins/processors/pod_based_enricher.go:244-300 | for any order of the resources: every request under its own name, the processor in thousandths, and the standard requests and limits, zero where not given |
| ContainerInfo.RestartIsReported | collector/plugins/processors/pod_based_enricher.go:311-323 | a running container is reported as terminated if and only if it has terminated no earlier than the last collection |
| Enricher.PodBasedEnricher.Process | collector/plugins/processors/pod_based_enricher.go:43-75 | for every order of the batch: exactly the expected keys are left, surviving pod and container sets are the same objects, each is enriched once, and keys still fit labels; every set made holds exactly what its pod says |
| Enricher.ContainersHavePods | collector/plugins/processors/pod_based_enricher.go:119-145 | in the result every container set has its pod's set, of a known pod |
| Enricher.PodsHaveContainers | collector/plugins/processors/pod_based_enricher.go:175-205 | in the result pods are known, and every running pod has a set for each container of its spec |
| Enricher.MadeForVisitedPods | collector/plugins/processors/pod_based_enricher.go:90-207 | nothing is made but for known pods that some set of the batch names |
| Enricher.IdentityKept | collector/plugins/processors/pod_based_enricher.go:112-117 | enriching never changes the labels that the keys are built from |
| TerminatedContainers.TakesUpResourcesIff | collector/plugins/processors/sum_count_aggregator.go:69-72 | where no status value has a label `state`, a container is left out if and only if the set has a status and its own labels say `terminated` |
| TerminatedContainers.ContainersAreCounted | collector/plugins/processors/sum_count_aggregator.go:54-72 | after the enricher every container set is counted, terminated or not, unless a source or the pod's labels bring a label `state` |
| TerminatedContainers.TerminatedIsCounted | collector/internal/util/util.go:299-307 | a container reported as terminated, which is counted |
| PodAggregation.NonZeroIsSupported | collector/plugins/processors/pod_aggregator.go:90-97 | a value that is not zero has a supported type, so the type error is never returned |
| PodAggregation.TotalOfContainers | collector/plugins/processors/pod_aggregator.go:74-102 | in any order, an own value that is not zero stays, and otherwise agreeing containers add up, even through partial sums of zero |
| PodAggregation.OrderMatters | collector/plugins/processors/pod_aggregator.go:84-99 | where two values that are not zero differ in type, some order does not come to the sum |
| PodAggregation.SumIffAgree | collector/plugins/processors/pod_aggregator.go:74-102 | every order comes to the sum if and only if the values that are not zero agree in type |
| PodAggregationPass.PodAggregator.AddValues | collector/plugins/processors/pod_aggregator.go:74-102 | every metric of a container that is not skipped is added once, in any order of the metrics, and no other pod is affected |
| PodAggregationPass.PodAggregator.Process | collector/plugins/processors/pod_aggregator.go:45-108 | every set is visited once, each pod metric is the fold over its containers' visits, and pods that were missing join at the end |
| PodAggregationPass.PodTotal | collector/plugins/processors/pod_aggregator.go:45-108 | for each pod and metric with agreeing types the outcome is the own value or the containers' sum, whatever the order |
| Aggregation.TotalStep | collector/plugins/processors/helper.go:32-48 | one more member keeps a group's metric the sum of base and members, and fails exactly where types are mixed or unsupported |
| Aggregation.CountStep | collector/plugins/processors/helper.go:56-73 | one more member keeps a group's count the sum of base and members' counts |
| Aggregation.AggregatesEach | collector/plugins/processors/helper.go:26-51 | aggregation changes each listed metric on its own, and fails if and only if some listed metric clashes |
| Aggregation.VisitStep | collector/plugins/processors/sum_count_aggregator.go:32-45 | a visit brings one more member into account, although groups are changed and inserted while iterating |
| Aggregation.GroupIsStable | collector/plugins/processors/sum_count_aggregator.go:50-72 | where a set belongs does not depend on what the groups have gained so far |
| AggregationPass.AggregateCount | collector/plugins/processors/helper.go:56-73 | a missing source count adds one, a missing group count starts the group's |
| AggregationPass.Aggregate | collector/plugins/processors/helper.go:26-51 | the destination gains the listed metrics or an error is returned, as the pure form says |
| AggregationPass.Group | collector/plugins/processors/namespace_aggregator.go:43-55 | finds the group's set, or makes one for namespaces and the cluster but not for nodes |
| AggregationPass.ProcessSpec | collector/plugins/processors/sum_count_aggregator.go:31-46 | for any order, and whether or not inserted sets are visited: succeeds if and only if every group is consistent, and then each group has gained exactly its members |
| AggregationPass.SumCountAggregator.Process | collector/plugins/processors/sum_count_aggregator.go:30-48 | the specs apply one after the other, and an error is returned exactly where one meets an inconsistent group |
| AggregationLevels.NamespaceTotal | collector/plugins/processors/namespace_aggregator.go:26-55 | each namespace metric is the sum over the aggregatable pods of the namespace |
| AggregationLevels.NamespaceCount | collector/plugins/processors/namespace_aggregator.go:26-41 | each namespace count adds up its members' counts, and the two specs do not disturb each other |
| AggregationLevels.SumOverNamespaces | collector/plugins/processors/cluster_aggregator.go:24-47 | the sum over namespaces of the sums over their pods is the sum over all pods |
| AggregationLevels.ClusterTotal | collector/plugins/processors/cluster_aggregator.go:24-47 | the cluster metric is the sum over all aggregatable pods that have a namespace, with the node aggregator in between |
| AggregationLevels.ClusterCount | collector/plugins/processors/cluster_aggregator.go:24-47 | the cluster count is the sum over its members plus one per namespace set without the count, exact if and only if there is none |
| AggregationLevels.NodeTotal | collector/plugins/processors/node_aggregator.go:26-51 | a node set that is there gains exactly the sum over the pods naming the node, and none is made |
| AggregationRun.ClusterCountOfInput | collector/plugins/processors/cluster_aggregator.go:24-47 | in terms of the batch before aggregation, the cluster counts its pods (or containers) plus one for each namespace that has only the other; exact if and only if there is no such namespace |
| AggregationRun.LonePodCountsContainer | collector/plugins/processors/cluster_aggregator.go:24-47 | for a single pod without containers the cluster reports one container |
| AggregationRun.Aggregate | collector/internal/setup/data_processors.go:97-103 | if namespace, node and cluster aggregators all succeed, cluster totals and counts are those of the batch they were given, for any order of visits |
| Labels.LabelCopier.Copy | collector/internal/util/label_copier.go:41-56 | the label text is the sorted entries of the labels that are not ignored |
| Labels.JoinedIsUnique | collector/internal/util/label_copier.go:41-56 | the joined text does not depend on the order in which the map is walked |
| Labels.AddLabelTags | collector/plugins/sources/summary/wavefront_converter.go:139-154 | the tags gain every label, and the parts of the label text under their own keys |
| Labels.PlainSurvive | collector/plugins/sources/summary/wavefront_converter.go:141-150 | plain labels come out of the joined text exactly as they went in, empty maps and values included |
| Labels.LabelRoundTrip | collector/internal/util/label_copier.go:41-56 | joining and splitting gives every label back if and only if the labels are plain |
| Labels.CopyThenTag | collector/plugins/sources/summary/wavefront_converter.go:139-154 | a pod's labels copied to a set and turned into tags come out under `label.` and their own key |
| TagBudget.CompareTagNames | collector/plugins/sinks/wavefront/utils.go:115-135 | of two names in order the better one is kept: not alpha or beta, then shorter, then first |
| TagBudget.BetterIsTransitive | collector/plugins/sinks/wavefront/utils.go:115-135 | the preference between names is transitive, so that folding it finds a true best |
| TagBudget.DedupeTagValues | collector/plugins/sinks/wavefront/utils.go:92-113 | exactly the best name of each long value stays, short values are untouched, and the rest is listed |
| TagBudget.DedupedKeepsOne | collector/plugins/sinks/wavefront/utils.go:92-113 | each value of length 5 or more keeps exactly one name, which beats all others with that value |
| TagBudget.SplitGuaranteedTags | collector/plugins/sinks/wavefront/utils.go:60-76 | listed tags and tags that are no labels are set aside, everything else stays |
| TagBudget.RemoveTagsLabelsMatching | collector/plugins/sinks/wavefront/utils.go:155-170 | the first matching names in order go, as many as asked for |
| TagBudget.CleanTags | collector/plugins/sinks/wavefront/utils.go:28-52 | the tags left and the removal lists are those of the phases applied in order |
| TagBudget.KeptAreInput | collector/plugins/sinks/wavefront/utils.go:28-52 | the tags left are a sub-map of the input |
| TagBudget.GuaranteedSurvive | collector/plugins/sinks/wavefront/utils.go:28-76 | a tag that is guaranteed or no label survives if and only if it is not empty and not on the exclude list |
| TagBudget.GuaranteeKeepsIff | collector/plugins/sinks/wavefront/utils.go:28-52 | the guarantee list keeps all its tags that are not empty if and only if none is on the exclude list; a guaranteed `hostname` is lost |
| TagBudget.CleanedSize | collector/plugins/sinks/wavefront/utils.go:28-52 | the size is at most the larger of capacity and guaranteed tags, and equals it when the over-capacity phases run |
| TagBudget.SacrificeOrder | collector/plugins/sinks/wavefront/utils.go:36-50 | a plain label goes only when no alpha, beta or IaaS label is left, an IaaS label only when no alpha or beta label is |
| TagBudget.RemovalsPartition | collector/plugins/sinks/wavefront/utils.go:28-52 | kept tags and the lists of the reasons partition the input, and no list names a tag twice |
| SinkManager.ReachedHolds | collector/plugins/sinks/manager.go:63-160 | every reachable state of exports, stops, workers and clock keeps the protocol's invariant |
| SinkManager.PushHappensOnce | collector/plugins/sinks/manager.go:98-117 | a push is delivered exactly when the sink was called for it, and the sink is called for it at most once |
| SinkManager.ReturnedExportsAreDone | collector/plugins/sinks/manager.go:98-117 | an export returns only when none of its pushes waits |
| SinkManager.TimeoutsAreCounted | collector/plugins/sinks/manager.go:109-112 | the timeout counter is the number of pushes that timed out |
| SinkManager.CallsDoNotOverlap | collector/plugins/sinks/manager.go:73-88 | a sink is only called when it has completed its previous call |
| SinkManager.StoppedAtMostOnce | collector/plugins/sinks/manager.go:144-160 | each sink is stopped at most once, by one request, and nothing comes after |
| SinkManager.StoppedIsFinal | collector/plugins/sinks/manager.go:80-84 | however the run goes on after a stop, nothing is delivered to that sink |
| SinkManager.ExportDoneByDeadline | collector/plugins/sinks/manager.go:97-117 | once the timeout has passed since an export's senders started, none of them waits, in any run |
| SinkManager.TimeCanPass | collector/plugins/sinks/manager.go:104-113 | from every reachable state time can move on, with nothing but timeouts |
| SinkManager.ExportsCanReturn | collector/plugins/sinks/manager.go:97-117 | even if no sink ever does anything again, every started export can come to return |
| SinkManager.StopCanBeLost | collector/plugins/sinks/manager.go:144-160 | a run in which a stop gives up on a sink that is busy for longer than the timeout, and the sink then goes on |
| SinkStops.StopArrivesIff | collector/plugins/sinks/manager.go:144-160 | for every state and waiting stop: if the sink returns from no call before f, some continuation delivers the stop if and only if the worker is idle, or busy and f is no later than the deadline |
| SinkStops.StopArrivesUnlessGone | collector/plugins/sinks/manager.go:73-89 | with nothing known of the sink, a waiting stop can arrive if and only if the worker is not gone |
| SinkStops.NeverIdleTimesOut | collector/plugins/sinks/manager.go:148-157 | along any run, a stop whose worker is idle in no state while it waits is waiting or has timed out at the end |
| SinkStops.BusyLosesStop | collector/plugins/sinks/manager.go:148-157 | if the worker is gone, or busy until after the deadline, the stop has timed out in every run past the deadline |
| SinkStops.StoppedIffSent | collector/plugins/sinks/manager.go:80-84 | in every reachable state a sink has been stopped if and only if some stop got through to it; if all timed out, it was not |
| NumberStore.RunsConcat | operator/pixie-sizer/stats.go:112-124 | the history is the concatenation of its stretches of equal minute |
| NumberStore.RunsAreMaximal | operator/pixie-sizer/stats.go:112-124 | neighbouring stretches have different minutes |
| NumberStore.RetainedIsLongest | operator/pixie-sizer/stats.go:92-124 | what is retained is the longest end of the history in which the minute changes fewer than retention times |
| NumberStore.Store.LastMinute | operator/pixie-sizer/stats.go:136-141 | is the minute of the last observation, or zero before the first |
| NumberStore.Store.Record | operator/pixie-sizer/stats.go:112-124 | the ring follows the history with the observation added |
| NumberStore.Store.RingHoldsRetained | operator/pixie-sizer/stats.go:92-134 | read from behind the current slot, the ring is exactly the retained end of the history |
| NumberStore.Store.Sum | operator/pixie-sizer/stats.go:153-159 | is the sum over the retained observations |
| NumberStore.Store.MaxValue | operator/pixie-sizer/stats.go:143-151 | is the larger of zero and the largest retained value |

## Left out

- Floats are reals, so rounding, NaN and overflow are not modelled; integers and durations are unbounded, so int64 wrap-around is not modelled.
- The parser's furthest position, which only shapes its error text, its event grammar, its pretty printing, and the difference between a nil and an empty tag map.
- The text of a scrape is what the connection delivers, as valid UTF-8; an error on the way ends it like its end does.
- The keys of series and of resources are hash or format strings; they are taken as one-to-one with the values they are made of, which holds for Kubernetes names.
- Library sorts are modelled as stable insertion sorts; where ties matter (`Flush`), the result is proved for every order of ties.
- Labels.LabelCopier.Copy: which of several stored labels mapped to one key wins depends on the map order in the source, and is left open here.
- TagBudget.CleanTags: a comment in the source says that the guarantee list protects tags from the exclude list; the code excludes them regardless, and so does the model (`TagBudget.GuaranteeKeepsIff`).
- The alpha or beta pattern of the tag budget is `^label.*beta|alpha*`, which by precedence matches any name that contains `alph`; the model follows the pattern as written.
- RateCalculator.RateCalculator.Process: metrics and their rates are assumed to have different names, which holds for the source's own table (`RateCalculator.TableIsProper`); no set of a batch is cached under another key.
- AggregationPass.ProcessSpec: metrics are listed once and without the counts, as in the source's own lists, sets at group keys have no type that is grouped there, and no set is in the batch under two keys; after an error the partly changed batch, which the source does not return, is not described.
- AggregationLevels.NamespaceTotal: the namespace set's uid label is that of some member, since it depends on which is visited first.
- PodAggregationPass.PodAggregator.Process: sets at pod keys are no container sets, and the labels of a pod made on the way are those of some container of the pod.
- Enricher.PodBasedEnricher.Process: the workload cache and the lister are not modelled, their answers are part of the pod; which set the node labels of a set that is made come from depends on the order of visits and is left open.
- ContainerInfo.UpdateContainerResources: no container requests a resource named `ephemeral_storage`, which Kubernetes does not have and which would share its metric with `ephemeral-storage`; amounts are taken as the library rounds them.
- Histogram.ToFrequency: inputs on which the source would panic by indexing are excluded; for cumulative histograms there are none.
- DistributionRates.DistributionRateCalculator.Process: the batch's distributions are not already in the cache, as nothing hands the cache out; the counter of duplicate histograms is left out.
- NumberStore.Store.Record: a retention of zero, which panics in the source, is excluded.
- SinkManager.ReachedHolds: the clock is assumed not to pass the deadline of a waiting sender, which stands for timers that fire on time; ExportEvent follows the same steps and is not listed separately.
- SourceManager.SourceManager.DeleteProvider: what a provider answers with is arbitrary, and its sources register their names when they are answered with, which for some kinds is when the provider is built; each call is one atomic step, so the unlocked map reads, and a scrape that resets the timer while its provider is deleted, are not modelled.
- PodRates.RatesAddUp: besides the pod aggregator no later processor writes a metric that rates are calculated from, which is a premise here; a run starts with a resource that is cached and ends at a restart (`PodRates.CachedIsReported` covers both ends).
- PodRates.DeviceRatesAddUp: a sample that gives one device two different values is covered by the single call only.
- SentRates.SentAddUpIff: no source reports a rate of its own; what is sent for a pod when no rate is calculated for it, as after its first sample, is not counted.
- Discoverer.EndpointHandler.constructor: counters start at zero, while those of the source are global and go on when a handler is made again.
- SourceManager.SourceManager.SetDefaultCollectionInterval: the default is positive, as a timer with a zero interval would divide by zero when reset.
- Discoverer.Discoverer.InternalDiscover: which endpoints a resource has by rules and annotations is a parameter; whether a provider can be built is a fixed set of endpoints, and a built provider is named after its factory and endpoint.
- Kubernetes clients, HTTP, the Wavefront SDK, leader election, the other sources and processors, configuration, logging and gauges, the operator's reconciling, and the dashboards.
