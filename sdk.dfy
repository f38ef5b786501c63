/**
 * The in-process metrics snapshot produced by the OpenTelemetry metrics SDK,
 * as far as the exporter reads it: metric name, description and unit, the
 * aggregated payload (gauge, sum, histogram or exponential histogram over one
 * of the numeric kinds i64, u64, f64) and the data points with their attributes.
 */
module Sdk {
  import opened Wrappers

  /** One Unicode grapheme cluster: a non-empty run of characters. */
  type Grapheme = g: string | |g| > 0 witness "_"

  /**
   * An attribute key, carried already split into grapheme clusters (the split
   * itself is done by the unicode-segmentation crate and is taken as given).
   */
  type Key = seq<Grapheme>

  /** The text of a segmented string: its graphemes joined together. */
  function Text(gs: seq<Grapheme>): (s: string)
    ensures |s| >= |gs|
    ensures gs != [] ==> s != [] && s[0] == gs[0][0]
  {
    if gs == [] then [] else gs[0] + Text(gs[1..])
  }

  /** A string split into one grapheme per character (no combining sequences). */
  function Graphemes(s: string): (gs: seq<Grapheme>) {
    seq(|s|, i requires 0 <= i < |s| => [s[i]])
  }

  /**
   * An attribute: its key and the text its value displays as
   * (`kv.value.to_string()`; the Display formatting is not modelled).
   */
  datatype KeyValue = KeyValue(key: Key, value: string)

  /**
   * A point in time, in nanoseconds relative to the Unix epoch (negative before
   * it). A Rust `SystemTime` holds whole seconds in an i64.
   */
  type SystemTime = t: int | -SystemTimeBound < t < SystemTimeBound

  /** 2^63 seconds, in nanoseconds. */
  const SystemTimeBound: int := 0x8000_0000_0000_0000 * 1_000_000_000

  /** An unsigned 64-bit integer. */
  type U64 = n: nat | n < 0x1_0000_0000_0000_0000

  /** A data point of a gauge or a sum. */
  datatype DataPoint<T> = DataPoint(
    attributes: seq<KeyValue>,
    startTime: Option<SystemTime>,
    time: Option<SystemTime>,
    value: T)

  /** A data point of an explicit-bucket histogram (counts are u64). */
  datatype HistogramDataPoint<T> = HistogramDataPoint(
    attributes: seq<KeyValue>,
    startTime: SystemTime,
    time: SystemTime,
    count: U64,
    bounds: seq<real>,
    bucketCounts: seq<U64>,
    sum: T)

  /** A data point of an exponential histogram; the exporter reads only its attributes. */
  datatype ExponentialHistogramDataPoint = ExponentialHistogramDataPoint(attributes: seq<KeyValue>)

  /** The aggregation of one instrument, for one numeric kind. */
  datatype MetricData<T> =
    | Gauge(points: seq<DataPoint<T>>)
    | Sum(points: seq<DataPoint<T>>, isMonotonic: bool)
    | Histogram(histogramPoints: seq<HistogramDataPoint<T>>)
    | ExponentialHistogram(exponentialPoints: seq<ExponentialHistogramDataPoint>)

  /** The payload of a metric, tagged with its numeric kind (f64 values are abstracted as reals). */
  datatype AggregatedMetrics =
    | F64(f64Data: MetricData<real>)
    | I64(i64Data: MetricData<int>)
    | U64(u64Data: MetricData<U64>)

  datatype Metric = Metric(name: string, description: string, unit: string, data: AggregatedMetrics)

  datatype ScopeMetrics = ScopeMetrics(metrics: seq<Metric>)

  datatype ResourceMetrics = ResourceMetrics(scopeMetrics: seq<ScopeMetrics>)

  /** The attribute lists of every data point of `data`, in data-point order. */
  function PointAttributes<T>(data: MetricData<T>): (attrs: seq<seq<KeyValue>>)
    ensures data.Gauge? || data.Sum? ==>
      |attrs| == |data.points| && forall i :: 0 <= i < |attrs| ==> attrs[i] == data.points[i].attributes
    ensures data.Histogram? ==>
      |attrs| == |data.histogramPoints|
      && forall i :: 0 <= i < |attrs| ==> attrs[i] == data.histogramPoints[i].attributes
    ensures data.ExponentialHistogram? ==>
      |attrs| == |data.exponentialPoints|
      && forall i :: 0 <= i < |attrs| ==> attrs[i] == data.exponentialPoints[i].attributes
  {
    match data
    case Gauge(ps) => seq(|ps|, i requires 0 <= i < |ps| => ps[i].attributes)
    case Sum(ps, _) => seq(|ps|, i requires 0 <= i < |ps| => ps[i].attributes)
    case Histogram(ps) => seq(|ps|, i requires 0 <= i < |ps| => ps[i].attributes)
    case ExponentialHistogram(ps) => seq(|ps|, i requires 0 <= i < |ps| => ps[i].attributes)
  }

  /** The attribute lists of every data point of a payload, whatever its numeric kind. */
  function MetricPointAttributes(m: AggregatedMetrics): seq<seq<KeyValue>> {
    match m
    case F64(d) => PointAttributes(d)
    case I64(d) => PointAttributes(d)
    case U64(d) => PointAttributes(d)
  }
}
