# Google Cloud Monitoring metrics exporter for OpenTelemetry — a Dafny model

This project models the core of a Rust exporter that pushes OpenTelemetry
metrics to Google Cloud Monitoring. The core translates each metric of an SDK
snapshot into wire `TimeSeries`. First it resolves a `MetricDescriptor` for the
metric, either from a cache or by registering it with the service under a
bounded retry loop. Then it translates every data point with the translator
that matches the point's shape. Finally it sends the series in batches of 200,
with a second bounded retry loop per batch.

Modules, one per file:

- `Wrappers` (`wrappers.dfy`): the `Option` type.
- `Sdk` (`sdk.dfy`): the SDK data model the exporter reads. This covers metrics with their
  aggregation (gauge, sum, explicit histogram, exponential histogram) over
  f64, i64 and u64, data points and attributes. An attribute key is carried
  already split into grapheme clusters.
- `Monitoring` (`monitoring.dfy`): the wire schema: descriptors, label descriptors,
  time series, points, intervals, timestamps, distributions and status codes.
- `Utils` (`utils.dfy`): label-key normalisation (`normalize_label_key`,
  `sanitize_string`), the collection of attribute keys
  (`get_data_points_attributes_keys`) and the attribute label map.
- `DataPointToTimeSeries` (`data_point_to_time_series.dfy`): `convert_f64` and
  `convert_i64`, plus the timestamp split, interval rule and label map they share.
- `HistogramDataPointToTimeSeries` (`histogram_data_point_to_time_series.dfy`):
  the histogram `convert`. It covers the distribution value, the guarded mean,
  the two's-complement `as i64` cast of counts, and bucket accounting.
- `ExportPolicy` (`export_policy.dfy`): the control logic of the two retry
  loops, as pure functions of a reply oracle. It covers the retryable status
  codes, the 101-attempt bound, the outcome of a delivery and the
  200-element chunking.
- `Exporter` (`exporter.dfy`): the exporter itself. The `GcpMetricsExporter`
  class has a descriptor cache field that its methods update. A `Network` class
  hands out the service's answers one round trip at a time. Around the class
  sit the pure specifications its methods are proved against: descriptor
  derivation, metric classification, per-point dispatch, the descriptor
  lookups of an export and the accumulated series.

The network is an oracle. `reply(i)` is the answer to the exporter's i-th
round trip, which is a channel creation, a token fetch or an RPC. Each
method's contract states its outcome and the number of round trips it uses,
both as functions of the oracle. Lemmas then characterise those functions.

The code, as written, differs from what a reader might expect in these ways;
the model follows the code:

- The batch loop of `exec_export` aborts the whole export when a token fetch
  or a channel creation fails, not only when 101 attempts are exhausted
  (`src/exporter/mod.rs:519-541`).
- A translated gauge or sum point has an end time only when the data point
  carries one, and a start time only for cumulative or delta kinds when the
  point carries one (`src/exporter/data_point_to_time_series.rs:24-44`).
- Histogram counts and bucket counts go through a plain `as i64` cast, which
  wraps above 2^63 - 1. They do not saturate.
- Every payload shape is classified (`src/exporter/mod.rs:186-253`), so
  descriptor derivation has no unsupported-shape path. The
  `&dyn Any` of `get_data_points_attributes_keys` is modelled by `AnyData`:
  a value of any other type yields no keys (`src/exporter/utils.rs:118-123`).
- Two distinct attribute keys that normalise to the same label key give two
  equal label descriptors. The list is built from the raw key set, and the
  labels are normalised afterwards.
- `exec_export` calls translators named `sum_convert_f64`, `gauge_convert_i64`
  and a seven-argument histogram `convert`, while the translator files define
  `convert_f64`, `convert_i64` and a five-argument `convert`. The dispatch is
  modelled as a call of the translator, as its own file defines it, that
  matches the shape.
- `get_metric_descriptor` hands `metric.data()` to
  `get_data_points_attributes_keys` (`src/exporter/mod.rs:169`). In the SDK
  version that `exec_export` is written against, that value is the
  `AggregatedMetrics` enum (`src/exporter/mod.rs:361-488`). The function's
  downcasts name the per-aggregation types instead
  (`src/exporter/utils.rs:46-117`). None of them matches the enum, so as
  written every key set would be empty and no descriptor would declare an
  attribute label (`src/exporter/utils.rs:118-123`). The model follows the
  function's own version and collects the keys of whatever shape the data has.

## Model

| member | source | states |
|---|---|---|
| Utils.SanitizeString | src/exporter/utils.rs:147-157 | Same number of graphemes; a wholly alphanumeric grapheme is kept, every other grapheme becomes exactly one `_` |
| Utils.NormalizeLabelKey | src/exporter/utils.rs:135-144 | The empty key stays empty and only it; the result never starts with a decimal digit; it is as long as the key or four graphemes longer |
| Utils.NormalizeDigitRule | src/exporter/utils.rs:135-144 | The result is `key_` followed by the sanitised key exactly when the key's first grapheme is alphanumeric and starts with a digit, and the sanitised key otherwise |
| Utils.NormalizeIsLegal | src/exporter/utils.rs:135-157 | Every grapheme of a normalised key is wholly alphanumeric or `_` (for a classifier that agrees with ASCII on ASCII) |
| Utils.NormalizeIdempotent | src/exporter/utils.rs:135-157 | Normalising a normalised key changes nothing |
| Utils.SanitizeIdempotent | src/exporter/utils.rs:147-157 | Sanitising twice is sanitising once |
| Utils.SanitizeKeepsLegal | src/exporter/utils.rs:147-157 | A key whose graphemes are all alphanumeric or `_` is unchanged |
| Utils.LabelKeyOfChars | src/exporter/utils.rs:135-157 | For a key of one-character graphemes, the label key is the key with each non-alphanumeric character replaced by `_`, prefixed by `key_` exactly when it starts with an alphanumeric digit |
| Utils.NormalizeExampleValidKey | src/exporter/utils.rs:211 | `valid_key_1` normalises to itself |
| Utils.NormalizeExampleNonAscii | src/exporter/utils.rs:212 | `hellø` normalises to itself when `ø` is alphanumeric |
| Utils.NormalizeExampleLeadingDigit | src/exporter/utils.rs:213 | `123` normalises to `key_123` |
| Utils.NormalizeExampleBang | src/exporter/utils.rs:214 | `key!321` normalises to `key_321` |
| Utils.NormalizeExamplePunctuation | src/exporter/utils.rs:215-218 | `hyphens-dots.slashes/` normalises to `hyphens_dots_slashes_` |
| Utils.NormalizeExampleSymbols | src/exporter/utils.rs:219-222 | `non_letters_:£¢$∞` normalises to `non_letters______` when `£`, `¢`, `∞` are not alphanumeric |
| Utils.DataPointsAttributesKeys | src/exporter/utils.rs:45-125 | A value that is not one of the aggregation types yields the empty key set |
| Utils.AttributeKeysAreUnion | src/exporter/utils.rs:45-117 | A key is collected exactly when some attribute of some data point of the metric carries it, for every shape and numeric kind |
| Utils.KeysOfIsUnion | src/exporter/utils.rs:45-117 | The flattened key set of a list of attribute lists holds exactly the keys some attribute in some list carries |
| Utils.CollectMap | src/exporter/data_point_to_time_series.rs:55-64 | Collecting pairs into a map, a later pair overwriting an earlier one with the same key; every pair's key is in the map |
| Utils.AttributeLabels | src/exporter/data_point_to_time_series.rs:55-64 | The label map of a point's attributes: normalised keys, stringified values, the last attribute winning (its contract is stated by `AttributeLabelsExact`) |
| Utils.AttributeLabelsExact | src/exporter/utils.rs:168-173 | The label map built from a point's attributes has exactly the normalised attribute keys as keys; each holds the value of the last attribute with that label key |
| Utils.CollectMapFromPairs | src/exporter/data_point_to_time_series.rs:55-64 | Collecting pairs into a map: every key comes from a pair and holds the value of the last pair with that key |
| DataPointToTimeSeries.ToTimestamp | src/exporter/data_point_to_time_series.rs:27-44 | Seconds times 10^9 plus nanos is the time since the epoch, nanos lie in [0, 10^9), and the seconds fit an i64 |
| DataPointToTimeSeries.TimestampSplitUnique | src/exporter/data_point_to_time_series.rs:27-44 | Any seconds/nanos pair that denotes the time with nanos in range is the computed one |
| DataPointToTimeSeries.Interval | src/exporter/data_point_to_time_series.rs:23-45 | There is a start time iff the kind is cumulative or delta and the point has one; there is an end time iff the point has one; each is the split of the corresponding time |
| DataPointToTimeSeries.SeriesLabels | src/exporter/data_point_to_time_series.rs:55-67 | Every attribute's label key is present; with the identifier enabled `opentelemetry_id` holds it; every other key is an attribute's label key holding the value of the last attribute with it |
| DataPointToTimeSeries.ConvertF64 | src/exporter/data_point_to_time_series.rs:15-82 | One point; resource, kind, value type, type and unit copied; the interval rule; a double value equal to the converted value; the series label rule |
| DataPointToTimeSeries.ConvertI64 | src/exporter/data_point_to_time_series.rs:84-151 | Same as `ConvertF64` with an int64 value equal to the converted value |
| DataPointToTimeSeries.GaugeHasNoStartTime | src/exporter/data_point_to_time_series.rs:24-106 | A gauge-kind point has no start time in either translator, whatever the data point holds |
| HistogramDataPointToTimeSeries.AsI64 | src/exporter/histogram_data_point_to_time_series.rs:47-62 | The `u64 as i64` cast: within i64 range, identity below 2^63, negative and congruent modulo 2^64 from 2^63 on |
| HistogramDataPointToTimeSeries.Mean | src/exporter/histogram_data_point_to_time_series.rs:48-54 | The mean is 0 for an empty point; otherwise the mean times the count is the sum |
| HistogramDataPointToTimeSeries.Distribution | src/exporter/histogram_data_point_to_time_series.rs:46-64 | Count and each bucket count cast to i64, the guarded mean, zero squared deviation, no range, explicit buckets with the point's bounds, as many bucket counts as the point has |
| HistogramDataPointToTimeSeries.Convert | src/exporter/histogram_data_point_to_time_series.rs:31-86 | One point; descriptor fields and resource copied; start and end time always present and split correctly; the distribution value; the series label rule |
| HistogramDataPointToTimeSeries.BucketAccounting | src/exporter/histogram_data_point_to_time_series.rs:46-64 | For a point with N bounds, N+1 bucket counts adding up to a count below 2^63: N+1 wire bucket counts equal to the source's, adding up to the wire count |
| HistogramDataPointToTimeSeries.LargeCountWraps | src/exporter/histogram_data_point_to_time_series.rs:47 | A count of 2^63 or more becomes a negative wire count |
| HistogramDataPointToTimeSeries.HistogramScenario | src/tests/test_cloud_monitoring.rs:156-204 | The test histogram (count 10000, sum 49995000, 15 bounds, 16 buckets) translates to count 10000, mean 4999.5 and the bucket counts unchanged |
| ExportPolicy.IsRetryable | src/exporter/mod.rs:307-312 | The codes on which both retry loops retry (`src/exporter/mod.rs:546-551` lists the same six): Unavailable, DataLoss, DeadlineExceeded, Aborted, Internal and FailedPrecondition; its contract is stated by `RegistrationLoopRegisters` and `BatchLoopEnds` |
| ExportPolicy.RegistrationLoop | src/exporter/mod.rs:270-325 | The registration loop uses at most two round trips per remaining attempt |
| ExportPolicy.Registration | src/exporter/mod.rs:259-325 | Registration uses at least one round trip (the channel) and at most 1 + 2 * 101 |
| ExportPolicy.RegistrationLoopRegisters | src/exporter/mod.rs:270-325 | The loop registers iff some remaining attempt has a token and an RPC that succeeds or answers AlreadyExists, every earlier attempt having been retried |
| ExportPolicy.RegistrationLoopExhausts | src/exporter/mod.rs:271-276 | When every remaining attempt is retried, the loop gives up after exactly two round trips per attempt |
| ExportPolicy.RegistrationGivesUpWhenExhausted | src/exporter/mod.rs:259-276 | With a channel and 101 retried attempts, registration fails after 1 + 2 * 101 round trips |
| ExportPolicy.BatchLoop | src/exporter/mod.rs:504-566 | The outcome of one batch and the round trip after it; its contract is stated by `BatchLoopBounds`, `BatchExhaustedIff`, `BatchLoopEnds` and `BatchFatalIff` |
| ExportPolicy.BatchLoopBounds | src/exporter/mod.rs:503-566 | A batch uses at most three round trips per remaining attempt, and an exhausted batch uses all of them |
| ExportPolicy.BatchExhaustedIff | src/exporter/mod.rs:504-566 | A batch is exhausted iff every remaining attempt gets a token and a channel and a retryable code |
| ExportPolicy.BatchLoopEnds | src/exporter/mod.rs:504-566 | A batch ends with a token failure, a channel failure, a delivery or a drop iff some remaining attempt, every earlier one retried, fails its token fetch, fails its channel, gets OK, or gets a non-retryable code, respectively |
| ExportPolicy.BatchFatalIff | src/exporter/mod.rs:503-566 | A batch aborts the export iff all 101 attempts are retried, or some attempt, every earlier one retried, fails its token fetch or its channel |
| ExportPolicy.Delivery | src/exporter/mod.rs:503-568 | The batches in order, stopping at the first fatal outcome; its contract is stated by `Outcomes` and `DeliveryFollowsOutcomes` |
| ExportPolicy.Outcomes | src/exporter/mod.rs:503-568 | At most one outcome per batch; none before the last is fatal; fewer than all batches are processed only when the last processed was fatal |
| ExportPolicy.DeliveryFollowsOutcomes | src/exporter/mod.rs:503-568 | A delivery succeeds iff every batch ends non-fatally (delivered or dropped); a failure carries the reason of the last processed (fatal) batch |
| ExportPolicy.Chunks | src/exporter/mod.rs:492-497 | The chunks concatenate back to the series, each is non-empty and at most the batch size, all but the last exactly the batch size |
| Exporter.DefaultConfig | src/exporter/mod.rs:81-90 | Prefix `workload.googleapis.com`, no project id, no unique identifier, no custom resource |
| Exporter.DescriptorType | src/exporter/mod.rs:152 | The type is the prefix, a `/`, and the metric name |
| Exporter.DescriptorTypeInjective | src/exporter/mod.rs:152 | Under one prefix distinct metric names give distinct descriptor types |
| Exporter.Hex | src/exporter/mod.rs:94 | Exactly the requested number of lower-case hex digits |
| Exporter.HexRoundTrip | src/exporter/mod.rs:94 | Reading the digits back gives the rendered value, for any value below 16^width |
| Exporter.UniqueIdentifier | src/exporter/mod.rs:94 | Eight lower-case hex digits whose value is the random draw |
| Exporter.ResourceOf | src/exporter/mod.rs:342-351 | The custom resource when configured, the detected one otherwise |
| Exporter.Classify | src/exporter/mod.rs:186-253 | Cumulative exactly for histograms and monotonic sums, gauge otherwise; distribution exactly for histograms, double exactly for other f64 shapes, int64 exactly for other integer shapes |
| Exporter.LabelList | src/exporter/mod.rs:171-184 | One label per key in order, normalised, then `opentelemetry_id` exactly when the identifier is added |
| Exporter.LabelDescriptors | src/exporter/mod.rs:169-184 | The labels are the label list of some enumeration of the collected key set, each key once |
| Exporter.LabelListKeys | src/exporter/mod.rs:169-184 | A key is declared iff it is the normalised form of a collected key, or it is `opentelemetry_id` with the identifier added |
| Exporter.PointCount | src/exporter/mod.rs:361-488 | Every point of a gauge, sum or histogram is translated; exponential histograms contribute none |
| Exporter.TranslatePoint | src/exporter/mod.rs:361-488 | Point `i` translated by the translator matching the metric's shape and value type; exactly one wire point |
| Exporter.TranslatedPoint | src/exporter/mod.rs:361-488 | A dispatched point copies the descriptor and resource, has the point's labels, and carries a distribution iff histogram, a double iff an f64 gauge or sum, an int64 otherwise |
| Exporter.SeriesOfMetric | src/exporter/mod.rs:361-488 | The series of one metric, one per translated point in point order; its contract is stated by `SeriesOfMetricPoints` |
| Exporter.SeriesOfMetricPoints | src/exporter/mod.rs:361-488 | A metric contributes one series per translated point; series `i` copies the descriptor and resource, is labelled by point `i`'s attributes, and has one point that is a distribution iff histogram, a double iff an f64 gauge or sum, an int64 otherwise |
| Exporter.FreshDescriptorDescribesSeries | src/exporter/mod.rs:161-253 | A series of a freshly derived descriptor's metric has the descriptor's type, a value of the declared value type, and only labels the descriptor declares |
| Exporter.FreshDescriptorStartTimes | src/exporter/mod.rs:196-207 | Under a freshly derived descriptor a gauge or sum point keeps its start time iff it belongs to a monotonic sum and has one |
| Exporter.Accumulated | src/exporter/mod.rs:353-490 | The series of the metrics in order, nothing for a metric without a descriptor; its contract is stated by `AccumulatedLength` and the `Accumulate` methods |
| Exporter.AccumulatedLength | src/exporter/mod.rs:353-490 | An export accumulates exactly one series per translated point of each metric that found a descriptor, and none for the others |
| Exporter.ResolveNext | src/exporter/mod.rs:151-332 | The lookup of one metric: found from the cache with no round trip when its type is cached, otherwise found and cached exactly when registration succeeds, after registration's round trips |
| Exporter.ResolveNextCaches | src/exporter/mod.rs:151-332 | A lookup caches at most its metric's type; the metric is found iff its type is cached afterwards; it costs round trips iff the type was not cached before |
| Exporter.ResolveAll | src/exporter/mod.rs:354-360 | The lookups of the metrics in order, each from the cache the earlier ones left; one found flag per metric |
| Exporter.ResolveAllGrows | src/exporter/mod.rs:151-332 | Lookups only add to the cache and never move the round trips back |
| Exporter.FoundWhenCached | src/exporter/mod.rs:151-159 | A metric whose type is cached once the earlier metrics are looked up is found, with no round trip of its own |
| Exporter.CachedBeforeFound | src/exporter/mod.rs:151-159 | A metric whose type was cached before the export is found with no round trip |
| Exporter.FoundOnceFoundAfter | src/exporter/mod.rs:151-159 | Once a metric has found its descriptor, every later metric of the same type finds it too, with no round trip |
| Exporter.WarmCacheResolvesAll | src/exporter/mod.rs:151-159 | An export whose metric types are all cached finds every descriptor, caches nothing new and makes no round trip |
| Exporter.GcpMetricsExporter.constructor | src/exporter/mod.rs:93-105 | Configuration copied, empty descriptor cache, identifier from the random draw |
| Exporter.GcpMetricsExporter.DeriveDescriptor | src/exporter/mod.rs:161-253 | Type, display name, description, unit, classification, and labels from an enumeration of the collected keys |
| Exporter.GcpMetricsExporter.RegisterAttempt | src/exporter/mod.rs:277-324 | One attempt either finishes the loop with its outcome or leaves the loop's outcome to the next attempt |
| Exporter.GcpMetricsExporter.Register | src/exporter/mod.rs:259-325 | Outcome and round trips as `Registration` of the oracle |
| Exporter.GcpMetricsExporter.RegisterAttempts | src/exporter/mod.rs:270-325 | Outcome and round trips as the registration loop from its first attempt |
| Exporter.GcpMetricsExporter.GetMetricDescriptor | src/exporter/mod.rs:151-332 | A cache hit returns the cached descriptor with no round trip and no change; otherwise a fresh descriptor is returned and cached exactly when registration succeeds, and nothing changes when it fails |
| Exporter.GcpMetricsExporter.AccumulateMetric | src/exporter/mod.rs:355-488 | The lookups so far extended by this metric's, as `ResolveAll` of the oracle; a cached type gives the cached descriptor, a newly registered one the fresh descriptor; its series are appended exactly when it found one |
| Exporter.GcpMetricsExporter.AccumulateScope | src/exporter/mod.rs:355-489 | The metrics of a scope are looked up and accumulated in order, the lookups as `ResolveAll` of the oracle |
| Exporter.GcpMetricsExporter.Accumulate | src/exporter/mod.rs:353-490 | Which metrics of all scopes find a descriptor, the types cached and the round trips used are those of `ResolveAll` of the oracle from the old cache; the series are those of the found metrics, in order, each from its cached descriptor; the cache only grows |
| Exporter.GcpMetricsExporter.SendBatch | src/exporter/mod.rs:504-566 | Outcome and round trips as the batch loop of the oracle |
| Exporter.GcpMetricsExporter.SendNext | src/exporter/mod.rs:503-568 | One batch as the batch loop of the oracle, and the delivery from it is that batch's failure when fatal and the delivery of the remaining batches otherwise |
| Exporter.GcpMetricsExporter.SendBatches | src/exporter/mod.rs:503-568 | Result and round trips as `Delivery` over the batches |
| Exporter.GcpMetricsExporter.ExecExport | src/exporter/mod.rs:334-569 | The lookups of all metrics are `ResolveAll` of the oracle and end at round trip `sent`; the series are those of the found metrics; the result and the remaining round trips are those of `Delivery` of one batch loop per chunk of 200 series |
| Exporter.GcpMetricsExporter.ForceFlush | src/exporter/mod.rs:587-589 | Always succeeds |
| Exporter.GcpMetricsExporter.ShutdownWithTimeout | src/exporter/mod.rs:595-597 | Always succeeds, whatever the timeout |

## Left out

- Grapheme segmentation (the unicode-segmentation crate) is not modelled. Attribute keys arrive already segmented.
- Unicode `char::is_alphanumeric` is a parameter `alnum`. Lemmas that need concrete behaviour require it to agree with ASCII, plus the classification of the non-ASCII characters they mention.
- f64 arithmetic is modelled as `real`, so the mean's rounding and the widening `as f64` casts are exact in the model.
- `ToI64` for u64 is not defined in the files shown. The exporter takes it as a parameter and no policy is asserted about it.
- `ToI64` for i64 is not defined in the files shown either (`to_f64.rs` defines only `ToF64`). The model takes it as the identity.
- Sleeps between retries, logging, and the async runtime with its `RwLock` are left out. Concurrent exports sharing the cache are left out too.
- Tokens, TLS, channel internals, the project id and request names are not modelled. Only the success or status code of each round trip is.
- Resource detection from the SDK resource (`get_monitored_resource`) is a parameter `detected`.
- The random draw of `new` is a parameter.
- Exemplars, series metadata and the Display formatting of attribute values are left out. A value is carried as the text it displays as.
- `convert_exponential` is compiled out in the source and is not modelled. `exec_export` skips exponential histograms.
- The iteration order of the collected key set is left unspecified: descriptor labels are stated for any enumeration of it.
- Exporter.GcpMetricsExporter.ExecExport: requires every start and end time a data point carries to lie after the epoch, since `duration_since(UNIX_EPOCH).unwrap()` panics otherwise. This includes gauge start times, which the source never unwraps (`src/exporter/data_point_to_time_series.rs:24-37`), so an export with a pre-epoch gauge start time is excluded by the model although the source accepts it.
- Exporter.GcpMetricsExporter.ExecExport: the payload of a round trip is not recorded. The contract fixes the number of batches and the order and outcome of the round trips, not which series each CreateTimeSeries request carries.
- Exporter.GcpMetricsExporter.Accumulate: a descriptor registered during the export is stated to be fresh only by `AccumulateMetric`, for the metric that registered it, not in the contract of the whole accumulation.
- Exporter.GcpMetricsExporter.AccumulateMetric: the per-point push loop of `exec_export` is modelled as appending the metric's whole translated series in one step.
- `export`'s wall-clock timing around `exec_export` is left out. `temporality` is not part of this model.
