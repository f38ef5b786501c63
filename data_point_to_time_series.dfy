/**
 * Translation of one gauge or sum data point into one wire time series
 * (src/exporter/data_point_to_time_series.rs), and the parts of a translation
 * the histogram translator shares: the timestamp split, the label map and the
 * fields copied from the descriptor.
 */
module DataPointToTimeSeries {
  import opened Wrappers
  import opened Sdk
  import opened Monitoring
  import opened Utils

  const NanosPerSecond: int := 1_000_000_000

  /** 2^63: the values of a signed 64-bit integer lie in [-I64Bound, I64Bound). */
  const I64Bound: int := 0x8000_0000_0000_0000

  /** `ts` holds time `t` split into whole seconds and residual nanoseconds. */
  predicate IsSplitOf(ts: Timestamp, t: int) {
    ts.seconds * NanosPerSecond + ts.nanos == t && 0 <= ts.nanos < NanosPerSecond
  }

  /**
   * `v.duration_since(UNIX_EPOCH).unwrap().as_nanos()` split into seconds
   * (`as i64`) and nanoseconds (`as i32`). Before the epoch `unwrap` panics,
   * hence the precondition; no cast loses information.
   */
  function ToTimestamp(t: SystemTime): (ts: Timestamp)
    requires t >= 0
    ensures IsSplitOf(ts, t)
    ensures 0 <= ts.seconds < I64Bound
  {
    Timestamp(t / NanosPerSecond, t % NanosPerSecond)
  }

  /** The split is unique: any seconds/nanos pair denoting `t` is the one computed. */
  lemma TimestampSplitUnique(ts: Timestamp, t: SystemTime)
    requires t >= 0 && IsSplitOf(ts, t)
    ensures ts == ToTimestamp(t)
  {
  }

  /** The metric kinds whose points carry a start time. */
  predicate HasStartTime(kind: MetricKind) {
    kind == CumulativeKind || kind == DeltaKind
  }

  /** The times the translation unwraps lie after the epoch. */
  predicate ConvertibleTimes<T>(dp: DataPoint<T>, kind: MetricKind) {
    && (HasStartTime(kind) && dp.startTime.Some? ==> dp.startTime.value >= 0)
    && (dp.time.Some? ==> dp.time.value >= 0)
  }

  /** The interval rule for gauge and sum points, stated on the wire interval. */
  predicate IsPointInterval<T>(iv: TimeInterval, dp: DataPoint<T>, kind: MetricKind) {
    && (iv.startTime.Some? <==> HasStartTime(kind) && dp.startTime.Some?)
    && (iv.startTime.Some? ==> IsSplitOf(iv.startTime.value, dp.startTime.value))
    && (iv.endTime.Some? <==> dp.time.Some?)
    && (iv.endTime.Some? ==> IsSplitOf(iv.endTime.value, dp.time.value))
  }

  /** The interval of a gauge or sum point: a start time only for cumulative and delta kinds. */
  function Interval<T>(dp: DataPoint<T>, kind: MetricKind): (iv: TimeInterval)
    requires ConvertibleTimes(dp, kind)
    ensures IsPointInterval(iv, dp, kind)
  {
    TimeInterval(
      if HasStartTime(kind) then
        (match dp.startTime case Some(t) => Some(ToTimestamp(t)) case None => None)
      else None,
      match dp.time case Some(t) => Some(ToTimestamp(t)) case None => None)
  }

  /**
   * The label map of a translated point: every key is the normalised key of an
   * attribute (holding the value of the last attribute with that label key) or,
   * when the unique identifier is added, `opentelemetry_id` (holding it).
   */
  ghost predicate HasSeriesLabels(labels: map<string, string>, attrs: seq<KeyValue>,
                                  addUniqueIdentifier: bool, uniqueIdentifier: string, alnum: char -> bool) {
    && (forall i :: 0 <= i < |attrs| ==> LabelKey(attrs[i].key, alnum) in labels)
    && (addUniqueIdentifier ==> UniqueIdentifierKey in labels && labels[UniqueIdentifierKey] == uniqueIdentifier)
    && (forall k :: k in labels ==>
          (addUniqueIdentifier && k == UniqueIdentifierKey)
          || exists i :: IsLastWithAttributeKey(attrs, k, i, alnum) && labels[k] == attrs[i].value)
  }

  /** Attribute `i` is the last one in `attrs` whose normalised key is `k`. */
  predicate IsLastWithAttributeKey(attrs: seq<KeyValue>, k: string, i: int, alnum: char -> bool) {
    0 <= i < |attrs| && LabelKey(attrs[i].key, alnum) == k
    && forall j :: i < j < |attrs| ==> LabelKey(attrs[j].key, alnum) != k
  }

  /** The attribute labels, with the unique identifier inserted when asked for. */
  function SeriesLabels(attrs: seq<KeyValue>, addUniqueIdentifier: bool, uniqueIdentifier: string,
                        alnum: char -> bool): (labels: map<string, string>)
    ensures HasSeriesLabels(labels, attrs, addUniqueIdentifier, uniqueIdentifier, alnum)
  {
    var attributeLabels := AttributeLabels(attrs, alnum);
    var labels := if addUniqueIdentifier then attributeLabels[UniqueIdentifierKey := uniqueIdentifier]
                  else attributeLabels;
    assert forall k :: k in labels ==>
      (addUniqueIdentifier && k == UniqueIdentifierKey)
      || exists i :: IsLastWithAttributeKey(attrs, k, i, alnum) && labels[k] == attrs[i].value
    by {
      forall k | k in labels && !(addUniqueIdentifier && k == UniqueIdentifierKey)
        ensures exists i :: IsLastWithAttributeKey(attrs, k, i, alnum) && labels[k] == attrs[i].value
      {
        AttributeLabelsExact(attrs, alnum, k);
        var i :| 0 <= i < |attrs| && LabelKey(attrs[i].key, alnum) == k
          && attributeLabels[k] == attrs[i].value
          && forall j :: i < j < |attrs| ==> LabelKey(attrs[j].key, alnum) != k;
        assert IsLastWithAttributeKey(attrs, k, i, alnum);
      }
    }
    labels
  }

  /**
   * The fields every translation copies: the resource from the argument, kind,
   * value type, type and unit from the descriptor; and exactly one point.
   */
  predicate CopiesDescriptor(ts: TimeSeries, descriptor: MetricDescriptor, resource: Option<MonitoredResource>) {
    && ts.resource == resource
    && ts.metricKind == descriptor.metricKind
    && ts.valueType == descriptor.valueType
    && ts.metric.metricType == descriptor.descriptorType
    && ts.unit == descriptor.unit
    && |ts.points| == 1
  }

  /** A one-point time series described by `descriptor`. */
  function MakeSeries(descriptor: MetricDescriptor, resource: Option<MonitoredResource>,
                      labels: map<string, string>, point: Point): (ts: TimeSeries)
    ensures CopiesDescriptor(ts, descriptor, resource)
    ensures ts.metric.labels == labels && ts.points[0] == point
  {
    TimeSeries(resource, descriptor.metricKind, descriptor.valueType,
               MetricLabels(descriptor.descriptorType, labels), [point], descriptor.unit)
  }

  /** `convert_f64`: a gauge or sum point as a series with a double value. */
  function ConvertF64<T>(dp: DataPoint<T>, descriptor: MetricDescriptor, resource: Option<MonitoredResource>,
                         addUniqueIdentifier: bool, uniqueIdentifier: string,
                         alnum: char -> bool, toF64: T -> real): (ts: TimeSeries)
    requires ConvertibleTimes(dp, descriptor.metricKind)
    ensures CopiesDescriptor(ts, descriptor, resource)
    ensures IsPointInterval(ts.points[0].interval, dp, descriptor.metricKind)
    ensures ts.points[0].value == DoubleValue(toF64(dp.value))
    ensures HasSeriesLabels(ts.metric.labels, dp.attributes, addUniqueIdentifier, uniqueIdentifier, alnum)
  {
    MakeSeries(descriptor, resource,
               SeriesLabels(dp.attributes, addUniqueIdentifier, uniqueIdentifier, alnum),
               Point(Interval(dp, descriptor.metricKind), DoubleValue(toF64(dp.value))))
  }

  /** `convert_i64`: a gauge or sum point as a series with an int64 value. */
  function ConvertI64<T>(dp: DataPoint<T>, descriptor: MetricDescriptor, resource: Option<MonitoredResource>,
                         addUniqueIdentifier: bool, uniqueIdentifier: string,
                         alnum: char -> bool, toI64: T -> int): (ts: TimeSeries)
    requires ConvertibleTimes(dp, descriptor.metricKind)
    ensures CopiesDescriptor(ts, descriptor, resource)
    ensures IsPointInterval(ts.points[0].interval, dp, descriptor.metricKind)
    ensures ts.points[0].value == Int64Value(toI64(dp.value))
    ensures HasSeriesLabels(ts.metric.labels, dp.attributes, addUniqueIdentifier, uniqueIdentifier, alnum)
  {
    MakeSeries(descriptor, resource,
               SeriesLabels(dp.attributes, addUniqueIdentifier, uniqueIdentifier, alnum),
               Point(Interval(dp, descriptor.metricKind), Int64Value(toI64(dp.value))))
  }

  /** A gauge-kind point never carries a start time, whatever the data point holds. */
  lemma GaugeHasNoStartTime<T>(dp: DataPoint<T>, descriptor: MetricDescriptor, resource: Option<MonitoredResource>,
                               addUniqueIdentifier: bool, uniqueIdentifier: string,
                               alnum: char -> bool, toF64: T -> real, toI64: T -> int)
    requires descriptor.metricKind == GaugeKind && ConvertibleTimes(dp, descriptor.metricKind)
    ensures ConvertF64(dp, descriptor, resource, addUniqueIdentifier, uniqueIdentifier, alnum, toF64)
              .points[0].interval.startTime.None?
    ensures ConvertI64(dp, descriptor, resource, addUniqueIdentifier, uniqueIdentifier, alnum, toI64)
              .points[0].interval.startTime.None?
  {
  }
}
