/**
 * The exporter itself (src/exporter/mod.rs): its configuration, the
 * descriptor it derives for a metric, the descriptor cache, and the export of
 * one batch of resource metrics.
 */
module Exporter {
  import opened Wrappers
  import opened Sdk
  import opened Monitoring
  import opened Utils
  import opened DataPointToTimeSeries
  import opened HistogramDataPointToTimeSeries
  import opened ExportPolicy

  // ---------------------------------------------------------------------
  // Configuration

  /** A monitored resource given by the user; it replaces the detected one. */
  datatype MonitoredResourceDataConfig = MonitoredResourceDataConfig(resourceType: string, labels: map<string, string>)

  datatype Config = Config(
    prefix: string,
    projectId: Option<string>,
    addUniqueIdentifier: bool,
    customMonitoredResourceData: Option<MonitoredResourceDataConfig>)

  /** `GCPMetricsExporterConfig::default`. */
  function DefaultConfig(): (c: Config)
    ensures c.prefix == "workload.googleapis.com"
    ensures c.projectId == None && !c.addUniqueIdentifier && c.customMonitoredResourceData == None
  {
    Config("workload.googleapis.com", None, false, None)
  }

  /** The descriptor type of a metric: the prefix, a slash, the metric name. */
  function DescriptorType(prefix: string, name: string): (t: string)
    ensures |t| == |prefix| + 1 + |name|
    ensures t[..|prefix|] == prefix && t[|prefix|] == '/' && t[|prefix| + 1..] == name
  {
    prefix + "/" + name
  }

  /** Under one prefix, distinct metric names have distinct descriptor types. */
  lemma DescriptorTypeInjective(prefix: string, name1: string, name2: string)
    requires DescriptorType(prefix, name1) == DescriptorType(prefix, name2)
    ensures name1 == name2
  {
    var t := DescriptorType(prefix, name1);
    assert name1 == t[|prefix| + 1..];
  }

  /** The lower-case hexadecimal digit of `d`. */
  function HexDigit(d: nat): (c: char)
    requires d < 16
    ensures IsHexDigit(c)
  {
    if d < 10 then ('0' as int + d) as char else ('a' as int + d - 10) as char
  }

  predicate IsHexDigit(c: char) {
    '0' <= c <= '9' || 'a' <= c <= 'f'
  }

  function HexDigitValue(c: char): nat
    requires IsHexDigit(c)
  {
    if c <= '9' then c as int - '0' as int else c as int - 'a' as int + 10
  }

  function Pow16(width: nat): (p: nat)
    ensures p > 0
  {
    if width == 0 then 1 else 16 * Pow16(width - 1)
  }

  /** `format!("{:0w$x}", n)` for `n` below 16^w: exactly `w` lower-case hex digits. */
  function Hex(n: nat, width: nat): (s: string)
    ensures |s| == width
    ensures forall i :: 0 <= i < |s| ==> IsHexDigit(s[i])
  {
    if width == 0 then "" else Hex(n / 16, width - 1) + [HexDigit(n % 16)]
  }

  /** The value of a string of hex digits, most significant first. */
  function HexValue(s: string): nat
    requires forall i :: 0 <= i < |s| ==> IsHexDigit(s[i])
  {
    if s == [] then 0 else HexValue(s[..|s| - 1]) * 16 + HexDigitValue(s[|s| - 1])
  }

  /** The rendering loses nothing: reading the digits back gives `n`. */
  lemma {:induction false} HexRoundTrip(n: nat, width: nat)
    requires n < Pow16(width)
    ensures HexValue(Hex(n, width)) == n
  {
    if width > 0 {
      HexRoundTrip(n / 16, width - 1);
      var s := Hex(n, width);
      assert s[..|s| - 1] == Hex(n / 16, width - 1);
      assert HexDigitValue(HexDigit(n % 16)) == n % 16;
    }
  }

  /** The unique identifier of a new exporter: `{:08x}` of a random value in `0..u32::MAX`. */
  function UniqueIdentifier(random: nat): (id: string)
    requires random < 0xFFFF_FFFF
    ensures |id| == 8 && forall i :: 0 <= i < 8 ==> IsHexDigit(id[i])
    ensures HexValue(id) == random
  {
    assert Pow16(8) == 0x1_0000_0000;
    HexRoundTrip(random, 8);
    Hex(random, 8)
  }

  /** The resource of every series: the custom one when configured, the detected one otherwise. */
  function ResourceOf(custom: Option<MonitoredResourceDataConfig>, detected: Option<MonitoredResource>): (r: Option<MonitoredResource>)
    ensures custom.Some? ==> r == Some(MonitoredResource(custom.value.resourceType, custom.value.labels))
    ensures custom.None? ==> r == detected
  {
    match custom
    case Some(c) => Some(MonitoredResource(c.resourceType, c.labels))
    case None => detected
  }

  // ---------------------------------------------------------------------
  // Classification

  /** Histograms, explicit or exponential, of any numeric kind. */
  predicate IsDistributionShape(m: AggregatedMetrics) {
    match m
    case F64(d) => d.Histogram? || d.ExponentialHistogram?
    case I64(d) => d.Histogram? || d.ExponentialHistogram?
    case U64(d) => d.Histogram? || d.ExponentialHistogram?
  }

  /** Monotonic sums, of any numeric kind. */
  predicate IsMonotonicSum(m: AggregatedMetrics) {
    match m
    case F64(d) => d.Sum? && d.isMonotonic
    case I64(d) => d.Sum? && d.isMonotonic
    case U64(d) => d.Sum? && d.isMonotonic
  }

  /**
   * The metric kind and value type of a metric's descriptor: distributions
   * and monotonic sums are cumulative, everything else a gauge; histograms
   * carry distributions, other f64 shapes doubles and other integer shapes int64.
   */
  function Classify(m: AggregatedMetrics): (c: (MetricKind, ValueType))
    ensures c.0 == (if IsDistributionShape(m) || IsMonotonicSum(m) then CumulativeKind else GaugeKind)
    ensures c.1 == Distribution <==> IsDistributionShape(m)
    ensures c.1 == Double <==> m.F64? && !IsDistributionShape(m)
    ensures c.1 == Int64 <==> !m.F64? && !IsDistributionShape(m)
  {
    match m
    case F64(d) =>
      (match d
       case Histogram(_) => (CumulativeKind, Distribution)
       case ExponentialHistogram(_) => (CumulativeKind, Distribution)
       case Sum(_, monotonic) => (if monotonic then CumulativeKind else GaugeKind, Double)
       case Gauge(_) => (GaugeKind, Double))
    case I64(d) =>
      (match d
       case Histogram(_) => (CumulativeKind, Distribution)
       case ExponentialHistogram(_) => (CumulativeKind, Distribution)
       case Sum(_, monotonic) => (if monotonic then CumulativeKind else GaugeKind, Int64)
       case Gauge(_) => (GaugeKind, Int64))
    case U64(d) =>
      (match d
       case Histogram(_) => (CumulativeKind, Distribution)
       case ExponentialHistogram(_) => (CumulativeKind, Distribution)
       case Sum(_, monotonic) => (if monotonic then CumulativeKind else GaugeKind, Int64)
       case Gauge(_) => (GaugeKind, Int64))
  }

  // ---------------------------------------------------------------------
  // The descriptor of a metric

  /** `order` lists every key of `seen` exactly once. */
  ghost predicate IsEnumeration(order: seq<Key>, seen: set<Key>) {
    && |order| == |seen|
    && (forall k :: k in seen <==> k in order)
    && (forall i, j :: 0 <= i < j < |order| ==> order[i] != order[j])
  }

  /** One label per key of `order`, normalised, then `opentelemetry_id` when the identifier is added. */
  function LabelList(order: seq<Key>, addUniqueIdentifier: bool, alnum: char -> bool): (labels: seq<LabelDescriptor>)
    ensures |labels| == |order| + (if addUniqueIdentifier then 1 else 0)
    ensures forall i :: 0 <= i < |order| ==> labels[i] == LabelDescriptor(LabelKey(order[i], alnum))
    ensures addUniqueIdentifier ==> labels[|order|] == LabelDescriptor(UniqueIdentifierKey)
  {
    seq(|order|, i requires 0 <= i < |order| => LabelDescriptor(LabelKey(order[i], alnum)))
      + (if addUniqueIdentifier then [LabelDescriptor(UniqueIdentifierKey)] else [])
  }

  /** Lemma: the label list grows one key at a time. */
  lemma LabelListSnoc(order: seq<Key>, k: Key, alnum: char -> bool)
    ensures LabelList(order + [k], false, alnum) == LabelList(order, false, alnum) + [LabelDescriptor(LabelKey(k, alnum))]
  {
  }

  /** Lemma: the identifier label comes after the labels of the keys. */
  lemma LabelListWithIdentifier(order: seq<Key>, alnum: char -> bool)
    ensures LabelList(order, true, alnum) == LabelList(order, false, alnum) + [LabelDescriptor(UniqueIdentifierKey)]
  {
  }

  /** `order` lists every key of `seen` not in `remaining` exactly once. */
  ghost predicate EnumeratesPicked(order: seq<Key>, remaining: set<Key>, seen: set<Key>) {
    && remaining <= seen
    && (forall k :: k in order <==> k in seen && k !in remaining)
    && (forall i, j :: 0 <= i < j < |order| ==> order[i] != order[j])
    && |order| + |remaining| == |seen|
  }

  /** Lemma: picking one more key of `remaining` extends the enumeration, which is complete once none remain. */
  lemma EnumeratesPickedStep(order: seq<Key>, remaining: set<Key>, seen: set<Key>, k: Key)
    requires EnumeratesPicked(order, remaining, seen) && k in remaining
    ensures EnumeratesPicked(order + [k], remaining - {k}, seen)
  {
    assert |remaining - {k}| == |remaining| - 1;
  }

  /** Lemma: an enumeration with nothing remaining enumerates every collected key. */
  lemma EnumeratesPickedComplete(order: seq<Key>, seen: set<Key>)
    requires EnumeratesPicked(order, {}, seen)
    ensures IsEnumeration(order, seen)
  {
  }

  /**
   * The label list of a descriptor: the keys collected from the metric's
   * points, in the (unspecified) iteration order of the set, normalised.
   */
  method LabelDescriptors(seen: set<Key>, addUniqueIdentifier: bool, alnum: char -> bool)
    returns (labels: seq<LabelDescriptor>, ghost order: seq<Key>)
    ensures IsEnumeration(order, seen)
    ensures labels == LabelList(order, addUniqueIdentifier, alnum)
  {
    var remaining := seen;
    labels, order := [], [];
    while remaining != {}
      invariant EnumeratesPicked(order, remaining, seen)
      invariant labels == LabelList(order, false, alnum)
      decreases |remaining|
    {
      var k :| k in remaining;
      EnumeratesPickedStep(order, remaining, seen, k);
      LabelListSnoc(order, k, alnum);
      labels := labels + [LabelDescriptor(LabelKey(k, alnum))];
      order := order + [k];
      remaining := remaining - {k};
    }
    EnumeratesPickedComplete(order, seen);
    LabelListWithIdentifier(order, alnum);
    if addUniqueIdentifier {
      labels := labels + [LabelDescriptor(UniqueIdentifierKey)];
    }
  }

  /** The keys a label list declares: the normalised collected keys, and `opentelemetry_id` iff it is added. */
  lemma LabelListKeys(order: seq<Key>, seen: set<Key>, addUniqueIdentifier: bool, alnum: char -> bool, key: string)
    requires IsEnumeration(order, seen)
    ensures key in LabelKeys(LabelList(order, addUniqueIdentifier, alnum)) <==>
      (exists k :: k in seen && LabelKey(k, alnum) == key) || (addUniqueIdentifier && key == UniqueIdentifierKey)
  {
    var labels := LabelList(order, addUniqueIdentifier, alnum);
    if exists k :: k in seen && LabelKey(k, alnum) == key {
      var k :| k in seen && LabelKey(k, alnum) == key;
      var i :| 0 <= i < |order| && order[i] == k;
      assert labels[i].key == key;
    }
    if addUniqueIdentifier && key == UniqueIdentifierKey {
      assert labels[|order|].key == key;
    }
  }

  /** The label list of a descriptor derived from points whose collected keys are `seen`. */
  ghost predicate IsLabelListOf(labels: seq<LabelDescriptor>, seen: set<Key>, addUniqueIdentifier: bool, alnum: char -> bool) {
    exists order :: IsEnumeration(order, seen) && labels == LabelList(order, addUniqueIdentifier, alnum)
  }

  /** The descriptor `get_metric_descriptor` derives for `metric` before registering it. */
  ghost predicate IsFreshDescriptor(d: MetricDescriptor, metric: Metric, prefix: string,
                                    addUniqueIdentifier: bool, alnum: char -> bool) {
    && d.descriptorType == DescriptorType(prefix, metric.name)
    && d.displayName == metric.name
    && d.description == metric.description
    && d.unit == metric.unit
    && (d.metricKind, d.valueType) == Classify(metric.data)
    && IsLabelListOf(d.labels, DataPointsAttributesKeys(Aggregation(metric.data)), addUniqueIdentifier, alnum)
  }

  // ---------------------------------------------------------------------
  // Translating the points of a metric

  /** Every time of a gauge or sum point lies after the epoch. */
  predicate TimesAfterEpoch<T>(dp: DataPoint<T>) {
    && (dp.startTime.Some? ==> dp.startTime.value >= 0)
    && (dp.time.Some? ==> dp.time.value >= 0)
  }

  predicate DataTimesAfterEpoch<T>(d: MetricData<T>) {
    match d
    case Gauge(ps) => forall i :: 0 <= i < |ps| ==> TimesAfterEpoch(ps[i])
    case Sum(ps, _) => forall i :: 0 <= i < |ps| ==> TimesAfterEpoch(ps[i])
    case Histogram(ps) => forall i :: 0 <= i < |ps| ==> ps[i].startTime >= 0 && ps[i].time >= 0
    case ExponentialHistogram(_) => true
  }

  /** Every time the translators would unwrap lies after the epoch. */
  predicate MetricTimesAfterEpoch(m: AggregatedMetrics) {
    match m
    case F64(d) => DataTimesAfterEpoch(d)
    case I64(d) => DataTimesAfterEpoch(d)
    case U64(d) => DataTimesAfterEpoch(d)
  }

  function DataPointCount<T>(d: MetricData<T>): nat {
    match d
    case Gauge(ps) => |ps|
    case Sum(ps, _) => |ps|
    case Histogram(ps) => |ps|
    case ExponentialHistogram(_) => 0
  }

  /** The number of points `exec_export` translates: exponential histograms are skipped. */
  function PointCount(m: AggregatedMetrics): (n: nat)
    ensures !IsExponential(m) ==> n == |MetricPointAttributes(m)|
    ensures IsExponential(m) ==> n == 0
  {
    match m
    case F64(d) => DataPointCount(d)
    case I64(d) => DataPointCount(d)
    case U64(d) => DataPointCount(d)
  }

  predicate IsExponential(m: AggregatedMetrics) {
    match m
    case F64(d) => d.ExponentialHistogram?
    case I64(d) => d.ExponentialHistogram?
    case U64(d) => d.ExponentialHistogram?
  }

  /** The typed value a descriptor's value type calls for. */
  predicate ValueMatches(v: TypedValue, vt: ValueType) {
    match vt
    case Distribution => v.DistributionTypedValue?
    case Double => v.DoubleValue?
    case Int64 => v.Int64Value?
    case _ => false
  }

  /**
   * Point `i` of a metric as a series, by the translator matching its shape:
   * `convert` for histograms, `convert_f64` for f64 gauges and sums,
   * `convert_i64` for integer gauges and sums. Integer sums are converted to
   * f64 as reals; u64 values are converted to i64 by `u64ToI64`.
   */
  function TranslatePoint(m: AggregatedMetrics, i: nat, d: MetricDescriptor, resource: Option<MonitoredResource>,
                          addUniqueIdentifier: bool, uniqueIdentifier: string, alnum: char -> bool,
                          u64ToI64: U64 -> int): (ts: TimeSeries)
    requires i < PointCount(m) && MetricTimesAfterEpoch(m)
    ensures |ts.points| == 1
  {
    match m
    case F64(data) =>
      if data.Histogram? then Convert(data.histogramPoints[i], d, resource, addUniqueIdentifier, uniqueIdentifier, alnum, x => x)
      else ConvertF64(data.points[i], d, resource, addUniqueIdentifier, uniqueIdentifier, alnum, x => x)
    case I64(data) =>
      if data.Histogram? then
        Convert(data.histogramPoints[i], d, resource, addUniqueIdentifier, uniqueIdentifier, alnum, (x: int) => x as real)
      else ConvertI64(data.points[i], d, resource, addUniqueIdentifier, uniqueIdentifier, alnum, x => x)
    case U64(data) =>
      if data.Histogram? then
        Convert(data.histogramPoints[i], d, resource, addUniqueIdentifier, uniqueIdentifier, alnum, (x: U64) => x as real)
      else ConvertI64(data.points[i], d, resource, addUniqueIdentifier, uniqueIdentifier, alnum, u64ToI64)
  }

  /**
   * Lemma: a translated point copies the descriptor and the resource, labels
   * the series by the point's attributes, and carries a distribution exactly
   * for histograms, a double exactly for f64 gauges and sums, and an int64
   * otherwise.
   */
  lemma TranslatedPoint(m: AggregatedMetrics, i: nat, d: MetricDescriptor, resource: Option<MonitoredResource>,
                        addUniqueIdentifier: bool, uniqueIdentifier: string, alnum: char -> bool, u64ToI64: U64 -> int)
    requires i < PointCount(m) && MetricTimesAfterEpoch(m)
    ensures var ts := TranslatePoint(m, i, d, resource, addUniqueIdentifier, uniqueIdentifier, alnum, u64ToI64);
      && CopiesDescriptor(ts, d, resource)
      && HasSeriesLabels(ts.metric.labels, MetricPointAttributes(m)[i], addUniqueIdentifier, uniqueIdentifier, alnum)
      && (ts.points[0].value.DistributionTypedValue? <==> IsDistributionShape(m))
      && (ts.points[0].value.DoubleValue? <==> m.F64? && !IsDistributionShape(m))
      && (ts.points[0].value.Int64Value? <==> !m.F64? && !IsDistributionShape(m))
  {
    match m
    case F64(_) => TranslatedF64Point(m, i, d, resource, addUniqueIdentifier, uniqueIdentifier, alnum, u64ToI64);
    case I64(_) => TranslatedI64Point(m, i, d, resource, addUniqueIdentifier, uniqueIdentifier, alnum, u64ToI64);
    case U64(_) => TranslatedU64Point(m, i, d, resource, addUniqueIdentifier, uniqueIdentifier, alnum, u64ToI64);
  }

  /** TranslatedPoint for f64 metrics. */
  lemma TranslatedF64Point(m: AggregatedMetrics, i: nat, d: MetricDescriptor, resource: Option<MonitoredResource>,
                        addUniqueIdentifier: bool, uniqueIdentifier: string, alnum: char -> bool, u64ToI64: U64 -> int)
    requires m.F64? && i < PointCount(m) && MetricTimesAfterEpoch(m)
    ensures var ts := TranslatePoint(m, i, d, resource, addUniqueIdentifier, uniqueIdentifier, alnum, u64ToI64);
      && CopiesDescriptor(ts, d, resource)
      && HasSeriesLabels(ts.metric.labels, MetricPointAttributes(m)[i], addUniqueIdentifier, uniqueIdentifier, alnum)
      && (ts.points[0].value.DistributionTypedValue? <==> IsDistributionShape(m))
      && (ts.points[0].value.DoubleValue? <==> m.F64? && !IsDistributionShape(m))
      && (ts.points[0].value.Int64Value? <==> !m.F64? && !IsDistributionShape(m))
  {
  }

  /** TranslatedPoint for i64 metrics. */
  lemma TranslatedI64Point(m: AggregatedMetrics, i: nat, d: MetricDescriptor, resource: Option<MonitoredResource>,
                        addUniqueIdentifier: bool, uniqueIdentifier: string, alnum: char -> bool, u64ToI64: U64 -> int)
    requires m.I64? && i < PointCount(m) && MetricTimesAfterEpoch(m)
    ensures var ts := TranslatePoint(m, i, d, resource, addUniqueIdentifier, uniqueIdentifier, alnum, u64ToI64);
      && CopiesDescriptor(ts, d, resource)
      && HasSeriesLabels(ts.metric.labels, MetricPointAttributes(m)[i], addUniqueIdentifier, uniqueIdentifier, alnum)
      && (ts.points[0].value.DistributionTypedValue? <==> IsDistributionShape(m))
      && (ts.points[0].value.DoubleValue? <==> m.F64? && !IsDistributionShape(m))
      && (ts.points[0].value.Int64Value? <==> !m.F64? && !IsDistributionShape(m))
  {
  }

  /** TranslatedPoint for u64 metrics. */
  lemma TranslatedU64Point(m: AggregatedMetrics, i: nat, d: MetricDescriptor, resource: Option<MonitoredResource>,
                        addUniqueIdentifier: bool, uniqueIdentifier: string, alnum: char -> bool, u64ToI64: U64 -> int)
    requires m.U64? && i < PointCount(m) && MetricTimesAfterEpoch(m)
    ensures var ts := TranslatePoint(m, i, d, resource, addUniqueIdentifier, uniqueIdentifier, alnum, u64ToI64);
      && CopiesDescriptor(ts, d, resource)
      && HasSeriesLabels(ts.metric.labels, MetricPointAttributes(m)[i], addUniqueIdentifier, uniqueIdentifier, alnum)
      && (ts.points[0].value.DistributionTypedValue? <==> IsDistributionShape(m))
      && (ts.points[0].value.DoubleValue? <==> m.F64? && !IsDistributionShape(m))
      && (ts.points[0].value.Int64Value? <==> !m.F64? && !IsDistributionShape(m))
  {
  }

  /**
   * The series `exec_export` pushes for one metric: one per translated point,
   * in point order.
   */
  function SeriesOfMetric(m: AggregatedMetrics, d: MetricDescriptor, resource: Option<MonitoredResource>,
                          addUniqueIdentifier: bool, uniqueIdentifier: string, alnum: char -> bool,
                          u64ToI64: U64 -> int): seq<TimeSeries>
    requires MetricTimesAfterEpoch(m)
  {
    seq(PointCount(m), i requires 0 <= i < PointCount(m) =>
      TranslatePoint(m, i, d, resource, addUniqueIdentifier, uniqueIdentifier, alnum, u64ToI64))
  }

  /**
   * Lemma: a metric contributes one series per translated point; series `i`
   * copies the descriptor and the resource, is labelled by point `i`'s
   * attributes, and holds one point whose value is a distribution, a double
   * or an int64 as the metric's shape says.
   */
  lemma SeriesOfMetricPoints(m: AggregatedMetrics, d: MetricDescriptor, resource: Option<MonitoredResource>,
                             addUniqueIdentifier: bool, uniqueIdentifier: string, alnum: char -> bool,
                             u64ToI64: U64 -> int, i: nat)
    requires MetricTimesAfterEpoch(m) && i < PointCount(m)
    ensures var series := SeriesOfMetric(m, d, resource, addUniqueIdentifier, uniqueIdentifier, alnum, u64ToI64);
      && |series| == PointCount(m)
      && CopiesDescriptor(series[i], d, resource)
      && HasSeriesLabels(series[i].metric.labels, MetricPointAttributes(m)[i], addUniqueIdentifier, uniqueIdentifier, alnum)
      && |series[i].points| == 1
      && (series[i].points[0].value.DistributionTypedValue? <==> IsDistributionShape(m))
      && (series[i].points[0].value.DoubleValue? <==> m.F64? && !IsDistributionShape(m))
      && (series[i].points[0].value.Int64Value? <==> !m.F64? && !IsDistributionShape(m))
  {
    TranslatedPoint(m, i, d, resource, addUniqueIdentifier, uniqueIdentifier, alnum, u64ToI64);
  }

  /** Labels built from attributes whose keys were all collected are all declared by the label list. */
  lemma SeriesLabelsDeclared(labels: map<string, string>, attrs: seq<KeyValue>, seen: set<Key>, order: seq<Key>,
                             addUniqueIdentifier: bool, uniqueIdentifier: string, alnum: char -> bool)
    requires HasSeriesLabels(labels, attrs, addUniqueIdentifier, uniqueIdentifier, alnum)
    requires IsEnumeration(order, seen)
    requires forall j :: 0 <= j < |attrs| ==> attrs[j].key in seen
    ensures forall key :: key in labels ==> key in LabelKeys(LabelList(order, addUniqueIdentifier, alnum))
  {
    forall key | key in labels ensures key in LabelKeys(LabelList(order, addUniqueIdentifier, alnum)) {
      LabelListKeys(order, seen, addUniqueIdentifier, alnum, key);
      if !(addUniqueIdentifier && key == UniqueIdentifierKey) {
        var j :| IsLastWithAttributeKey(attrs, key, j, alnum) && labels[key] == attrs[j].value;
        assert attrs[j].key in seen;
      }
    }
  }

  /** The attribute keys of a metric's points are among its collected keys. */
  lemma PointKeysCollected(m: AggregatedMetrics, i: nat)
    requires i < |MetricPointAttributes(m)|
    ensures forall j :: 0 <= j < |MetricPointAttributes(m)[i]| ==>
      MetricPointAttributes(m)[i][j].key in DataPointsAttributesKeys(Aggregation(m))
  {
    var attrs: seq<seq<KeyValue>> := MetricPointAttributes(m);
    forall j | 0 <= j < |attrs[i]| ensures attrs[i][j].key in DataPointsAttributesKeys(Aggregation(m)) {
      AttributeKeysAreUnion(m, attrs[i][j].key);
    }
  }

  /**
   * The series of a freshly derived descriptor's metric agree with it: each
   * carries the descriptor's type, a value of the kind the descriptor's value
   * type declares, and only labels the descriptor declares.
   */
  lemma FreshDescriptorDescribesSeries(metric: Metric, d: MetricDescriptor, prefix: string, i: nat,
                                       resource: Option<MonitoredResource>, addUniqueIdentifier: bool,
                                       uniqueIdentifier: string, alnum: char -> bool, u64ToI64: U64 -> int)
    requires IsFreshDescriptor(d, metric, prefix, addUniqueIdentifier, alnum)
    requires MetricTimesAfterEpoch(metric.data) && i < PointCount(metric.data)
    ensures var ts := TranslatePoint(metric.data, i, d, resource, addUniqueIdentifier, uniqueIdentifier, alnum, u64ToI64);
      && ts.metric.metricType == DescriptorType(prefix, metric.name)
      && ValueMatches(ts.points[0].value, d.valueType)
      && forall key :: key in ts.metric.labels ==> key in LabelKeys(d.labels)
  {
    var ts := TranslatePoint(metric.data, i, d, resource, addUniqueIdentifier, uniqueIdentifier, alnum, u64ToI64);
    TranslatedPoint(metric.data, i, d, resource, addUniqueIdentifier, uniqueIdentifier, alnum, u64ToI64);
    FreshDescriptorDescribes(ts, metric, d, prefix, i, resource, addUniqueIdentifier, uniqueIdentifier, alnum);
  }

  /** FreshDescriptorDescribesSeries for any series with the properties TranslatedPoint gives a translation. */
  lemma FreshDescriptorDescribes(ts: TimeSeries, metric: Metric, d: MetricDescriptor, prefix: string, i: nat,
                                 resource: Option<MonitoredResource>, addUniqueIdentifier: bool,
                                 uniqueIdentifier: string, alnum: char -> bool)
    requires IsFreshDescriptor(d, metric, prefix, addUniqueIdentifier, alnum)
    requires i < PointCount(metric.data)
    requires CopiesDescriptor(ts, d, resource)
    requires HasSeriesLabels(ts.metric.labels, MetricPointAttributes(metric.data)[i], addUniqueIdentifier,
                             uniqueIdentifier, alnum)
    requires ts.points[0].value.DistributionTypedValue? <==> IsDistributionShape(metric.data)
    requires ts.points[0].value.DoubleValue? <==> metric.data.F64? && !IsDistributionShape(metric.data)
    requires ts.points[0].value.Int64Value? <==> !metric.data.F64? && !IsDistributionShape(metric.data)
    ensures ts.metric.metricType == DescriptorType(prefix, metric.name)
    ensures ValueMatches(ts.points[0].value, d.valueType)
    ensures forall key :: key in ts.metric.labels ==> key in LabelKeys(d.labels)
  {
    var seen := DataPointsAttributesKeys(Aggregation(metric.data));
    var order :| IsEnumeration(order, seen) && d.labels == LabelList(order, addUniqueIdentifier, alnum);
    PointKeysCollected(metric.data, i);
    SeriesLabelsDeclared(ts.metric.labels, MetricPointAttributes(metric.data)[i], seen, order,
                         addUniqueIdentifier, uniqueIdentifier, alnum);
  }

  /**
   * Through a freshly derived descriptor the interval rule reads: a gauge or
   * sum point keeps its start time iff it belongs to a monotonic sum.
   */
  lemma FreshDescriptorStartTimes(metric: Metric, d: MetricDescriptor, prefix: string, i: nat,
                                  resource: Option<MonitoredResource>, addUniqueIdentifier: bool,
                                  uniqueIdentifier: string, alnum: char -> bool, u64ToI64: U64 -> int)
    requires IsFreshDescriptor(d, metric, prefix, addUniqueIdentifier, alnum)
    requires MetricTimesAfterEpoch(metric.data) && i < PointCount(metric.data)
    requires !IsDistributionShape(metric.data)
    ensures var ts := TranslatePoint(metric.data, i, d, resource, addUniqueIdentifier, uniqueIdentifier, alnum, u64ToI64);
      ts.points[0].interval.startTime.Some? <==> IsMonotonicSum(metric.data) && ScalarStartTime(metric.data, i).Some?
  {
  }

  /** The start time of gauge or sum point `i`. */
  function ScalarStartTime(m: AggregatedMetrics, i: nat): Option<SystemTime>
    requires i < PointCount(m) && !IsDistributionShape(m)
  {
    match m
    case F64(d) => d.points[i].startTime
    case I64(d) => d.points[i].startTime
    case U64(d) => d.points[i].startTime
  }

  // ---------------------------------------------------------------------
  // Accumulating the series of an export

  /** The metrics of all scopes, scope by scope, each in its own order. */
  function AllMetrics(scopes: seq<ScopeMetrics>): seq<Metric> {
    if scopes == [] then [] else AllMetrics(scopes[..|scopes| - 1]) + scopes[|scopes| - 1].metrics
  }

  lemma {:induction false} AllMetricsAppend(a: seq<ScopeMetrics>, b: seq<ScopeMetrics>)
    ensures AllMetrics(a + b) == AllMetrics(a) + AllMetrics(b)
    decreases |b|
  {
    if b != [] {
      var n := |b| - 1;
      assert (a + b)[..|a + b| - 1] == a + b[..n];
      AllMetricsAppend(a, b[..n]);
    } else {
      assert a + b == a;
    }
  }

  /** Lemma: the metrics of the first `s + 1` scopes add scope `s`'s metrics to those of the first `s`. */
  lemma AllMetricsScope(scopes: seq<ScopeMetrics>, s: nat)
    requires s < |scopes|
    ensures AllMetrics(scopes[..s + 1]) == AllMetrics(scopes[..s]) + scopes[s].metrics
  {
    var front := scopes[..s + 1];
    assert front[..s] == scopes[..s];
  }

  /** Lemma: the metrics of the first `n` scopes are metrics of the export. */
  lemma AllMetricsPrefix(scopes: seq<ScopeMetrics>, n: nat)
    requires n <= |scopes|
    ensures forall m :: m in AllMetrics(scopes[..n]) ==> m in AllMetrics(scopes)
  {
    var front, rest := scopes[..n], scopes[n..];
    AllMetricsAppend(front, rest);
    assert front + rest == scopes;
  }

  ghost predicate AllTimesAfterEpoch(ms: seq<Metric>) {
    forall m :: m in ms ==> MetricTimesAfterEpoch(m.data)
  }

  /**
   * The series an export accumulates: for each metric in order, the series
   * of its points when its descriptor was resolved, nothing when it was not.
   */
  function Accumulated(ms: seq<Metric>, resolved: seq<Option<MetricDescriptor>>, resource: Option<MonitoredResource>,
                       addUniqueIdentifier: bool, uniqueIdentifier: string, alnum: char -> bool,
                       u64ToI64: U64 -> int): seq<TimeSeries>
    requires |resolved| == |ms| && AllTimesAfterEpoch(ms)
  {
    if ms == [] then []
    else
      var n := |ms| - 1;
      assert forall m :: m in ms[..n] ==> m in ms;
      Accumulated(ms[..n], resolved[..n], resource, addUniqueIdentifier, uniqueIdentifier, alnum, u64ToI64)
        + match resolved[n]
          case Some(d) => SeriesOfMetric(ms[n].data, d, resource, addUniqueIdentifier, uniqueIdentifier, alnum, u64ToI64)
          case None => []
  }

  /** Lemma: accumulating one more metric appends the series it contributes. */
  lemma AccumulatedSnoc(ms: seq<Metric>, resolved: seq<Option<MetricDescriptor>>, m: Metric,
                        r: Option<MetricDescriptor>, resource: Option<MonitoredResource>,
                        addUniqueIdentifier: bool, uniqueIdentifier: string, alnum: char -> bool,
                        u64ToI64: U64 -> int)
    requires |resolved| == |ms| && AllTimesAfterEpoch(ms) && MetricTimesAfterEpoch(m.data)
    ensures AllTimesAfterEpoch(ms + [m])
    ensures Accumulated(ms + [m], resolved + [r], resource, addUniqueIdentifier, uniqueIdentifier, alnum, u64ToI64)
      == Accumulated(ms, resolved, resource, addUniqueIdentifier, uniqueIdentifier, alnum, u64ToI64)
         + match r
           case Some(d) => SeriesOfMetric(m.data, d, resource, addUniqueIdentifier, uniqueIdentifier, alnum, u64ToI64)
           case None => []
  {
    assert (ms + [m])[..|ms|] == ms;
    assert (resolved + [r])[..|ms|] == resolved;
    assert m in ms + [m];
  }

  /** The points of the metrics that found a descriptor. */
  function ResolvedPointCount(ms: seq<Metric>, resolved: seq<Option<MetricDescriptor>>): nat
    requires |resolved| == |ms|
  {
    if ms == [] then 0
    else
      var n := |ms| - 1;
      ResolvedPointCount(ms[..n], resolved[..n]) + if resolved[n].Some? then PointCount(ms[n].data) else 0
  }

  /**
   * Lemma: an export accumulates one series per translated point of each
   * metric that found a descriptor, and none for the others.
   */
  lemma {:induction false} AccumulatedLength(ms: seq<Metric>, resolved: seq<Option<MetricDescriptor>>,
                                             resource: Option<MonitoredResource>, addUniqueIdentifier: bool,
                                             uniqueIdentifier: string, alnum: char -> bool, u64ToI64: U64 -> int)
    requires |resolved| == |ms| && AllTimesAfterEpoch(ms)
    ensures |Accumulated(ms, resolved, resource, addUniqueIdentifier, uniqueIdentifier, alnum, u64ToI64)|
      == ResolvedPointCount(ms, resolved)
    decreases |ms|
  {
    if ms != [] {
      var n := |ms| - 1;
      var front, frontResolved := ms[..n], resolved[..n];
      assert forall m :: m in front ==> m in ms;
      assert ms == front + [ms[n]] && resolved == frontResolved + [resolved[n]];
      AccumulatedLength(front, frontResolved, resource, addUniqueIdentifier, uniqueIdentifier, alnum, u64ToI64);
      assert ms[n] in ms;
      AccumulatedSnoc(front, frontResolved, ms[n], resolved[n], resource, addUniqueIdentifier, uniqueIdentifier,
                      alnum, u64ToI64);
    }
  }

  /** The resolved descriptors of `ms` are the entries of `cache` under their metrics' types. */
  ghost predicate ResolvedIn(cache: map<string, MetricDescriptor>, prefix: string, ms: seq<Metric>,
                             resolved: seq<Option<MetricDescriptor>>)
    requires |resolved| == |ms|
  {
    forall i :: 0 <= i < |ms| && resolved[i].Some? ==>
      DescriptorType(prefix, ms[i].name) in cache && cache[DescriptorType(prefix, ms[i].name)] == resolved[i].value
  }

  /** Lemma: a growing cache keeps earlier resolutions, and a metric resolved from it joins them. */
  lemma ResolvedInSnoc(before: map<string, MetricDescriptor>, after: map<string, MetricDescriptor>, prefix: string,
                       ms: seq<Metric>, resolved: seq<Option<MetricDescriptor>>, m: Metric, r: Option<MetricDescriptor>)
    requires |resolved| == |ms| && ResolvedIn(before, prefix, ms, resolved) && CacheGrows(before, after)
    requires r.Some? ==> DescriptorType(prefix, m.name) in after && after[DescriptorType(prefix, m.name)] == r.value
    ensures ResolvedIn(after, prefix, ms + [m], resolved + [r])
  {
    var ms', resolved' := ms + [m], resolved + [r];
    forall i | 0 <= i < |ms'| && resolved'[i].Some?
      ensures DescriptorType(prefix, ms'[i].name) in after && after[DescriptorType(prefix, ms'[i].name)] == resolved'[i].value
    {
      if i < |ms| {
        assert ms'[i] == ms[i] && resolved'[i] == resolved[i];
      }
    }
  }

  /** Entries already in the cache stay, unchanged. */
  ghost predicate CacheGrows(before: map<string, MetricDescriptor>, after: map<string, MetricDescriptor>) {
    forall t :: t in before ==> t in after && after[t] == before[t]
  }

  // ---------------------------------------------------------------------
  // Descriptor resolution

  /**
   * Where the descriptor lookups of an export stand: for each metric so far,
   * whether it got a descriptor; the descriptor types cached; and the next
   * round trip.
   */
  datatype Resolution = Resolution(found: seq<bool>, cached: set<string>, calls: nat)

  /**
   * The lookup of one more metric. A cached type is found with no round
   * trip; any other type is registered, and joins the cache exactly when
   * the registration succeeds.
   */
  function ResolveNext(reply: nat -> Reply, prefix: string, r: Resolution, m: Metric): (next: Resolution)
    ensures |next.found| == |r.found| + 1 && next.found[..|r.found|] == r.found
  {
    var t := DescriptorType(prefix, m.name);
    if t in r.cached then Resolution(r.found + [true], r.cached, r.calls)
    else
      var registration := Registration(reply, r.calls);
      Resolution(r.found + [registration.0], if registration.0 then r.cached + {t} else r.cached, registration.1)
  }

  /**
   * Lemma: a lookup caches at most its metric's type, and a metric is found
   * exactly when its type is cached afterwards; it costs a round trip
   * exactly when the type was not cached before.
   */
  lemma ResolveNextCaches(reply: nat -> Reply, prefix: string, r: Resolution, m: Metric)
    ensures var next, t := ResolveNext(reply, prefix, r, m), DescriptorType(prefix, m.name);
      && r.cached <= next.cached <= r.cached + {t}
      && (next.found[|r.found|] <==> t in next.cached)
      && (t in r.cached ==> next.calls == r.calls)
      && (t !in r.cached ==> r.calls < next.calls)
  {
  }

  /** The lookups of the metrics `ms`, in order, from `start`. */
  function ResolveAll(reply: nat -> Reply, prefix: string, start: Resolution, ms: seq<Metric>): (last: Resolution)
    ensures |last.found| == |start.found| + |ms| && last.found[..|start.found|] == start.found
    decreases |ms|
  {
    if ms == [] then start
    else ResolveNext(reply, prefix, ResolveAll(reply, prefix, start, ms[..|ms| - 1]), ms[|ms| - 1])
  }

  /** Lemma: looking up metrics only adds to the cache and moves the round trips on. */
  lemma {:induction false} ResolveAllGrows(reply: nat -> Reply, prefix: string, start: Resolution, ms: seq<Metric>)
    ensures var last := ResolveAll(reply, prefix, start, ms);
      start.cached <= last.cached && start.calls <= last.calls
    decreases |ms|
  {
    if ms != [] {
      var front := ms[..|ms| - 1];
      ResolveAllGrows(reply, prefix, start, front);
      ResolveNextCaches(reply, prefix, ResolveAll(reply, prefix, start, front), ms[|ms| - 1]);
    }
  }

  /** Which of the resolved descriptors were found. */
  function Found(resolved: seq<Option<MetricDescriptor>>): seq<bool> {
    seq(|resolved|, i requires 0 <= i < |resolved| => resolved[i].Some?)
  }

  lemma FoundSnoc(resolved: seq<Option<MetricDescriptor>>, r: Option<MetricDescriptor>)
    ensures Found(resolved + [r]) == Found(resolved) + [r.Some?]
  {
  }

  lemma ResolveAllSnoc(reply: nat -> Reply, prefix: string, start: Resolution, ms: seq<Metric>, m: Metric)
    ensures ResolveAll(reply, prefix, start, ms + [m]) == ResolveNext(reply, prefix, ResolveAll(reply, prefix, start, ms), m)
  {
    assert (ms + [m])[..|ms|] == ms;
  }

  /** Lemma: looking up `a` then `b` is looking up `a + b`. */
  lemma {:induction false} ResolveAllAppend(reply: nat -> Reply, prefix: string, start: Resolution,
                                            a: seq<Metric>, b: seq<Metric>)
    ensures ResolveAll(reply, prefix, start, a + b) == ResolveAll(reply, prefix, ResolveAll(reply, prefix, start, a), b)
    decreases |b|
  {
    if b == [] {
      assert a + b == a;
    } else {
      var front, m := b[..|b| - 1], b[|b| - 1];
      assert b == front + [m];
      assert a + b == (a + front) + [m];
      ResolveAllSnoc(reply, prefix, start, a + front, m);
      ResolveAllAppend(reply, prefix, start, a, front);
      ResolveAllSnoc(reply, prefix, ResolveAll(reply, prefix, start, a), front, m);
    }
  }

  /** Lemma: the lookups of a prefix of the metrics are the first lookups of all of them, with fewer types cached. */
  lemma ResolveAllPrefix(reply: nat -> Reply, prefix: string, start: Resolution, ms: seq<Metric>, n: nat)
    requires n <= |ms|
    ensures var part, all := ResolveAll(reply, prefix, start, ms[..n]), ResolveAll(reply, prefix, start, ms);
      && all.found[..|start.found| + n] == part.found
      && part.cached <= all.cached
  {
    assert ms[..n] + ms[n..] == ms;
    ResolveAllAppend(reply, prefix, start, ms[..n], ms[n..]);
    ResolveAllGrows(reply, prefix, ResolveAll(reply, prefix, start, ms[..n]), ms[n..]);
  }

  /**
   * Lemma: metric `i`, whose type is cached once the metrics before it are
   * looked up, is found with no round trip of its own.
   */
  lemma FoundWhenCached(reply: nat -> Reply, prefix: string, start: Resolution, ms: seq<Metric>, i: nat)
    requires i < |ms| && DescriptorType(prefix, ms[i].name) in ResolveAll(reply, prefix, start, ms[..i]).cached
    ensures ResolveAll(reply, prefix, start, ms).found[|start.found| + i]
    ensures ResolveAll(reply, prefix, start, ms[..i + 1]).calls == ResolveAll(reply, prefix, start, ms[..i]).calls
  {
    var before := ResolveAll(reply, prefix, start, ms[..i]);
    assert ms[..i + 1] == ms[..i] + [ms[i]];
    ResolveAllSnoc(reply, prefix, start, ms[..i], ms[i]);
    var after := ResolveNext(reply, prefix, before, ms[i]);
    assert after.found[|start.found| + i];
    ResolveAllPrefix(reply, prefix, start, ms, i + 1);
    var all := ResolveAll(reply, prefix, start, ms);
    assert all.found[..|start.found| + i + 1] == after.found;
    assert all.found[|start.found| + i] == after.found[|start.found| + i];
  }

  /** Lemma: a metric whose type was cached before the export is found with no round trip. */
  lemma CachedBeforeFound(reply: nat -> Reply, prefix: string, start: Resolution, ms: seq<Metric>, i: nat)
    requires i < |ms| && DescriptorType(prefix, ms[i].name) in start.cached
    ensures ResolveAll(reply, prefix, start, ms).found[|start.found| + i]
    ensures ResolveAll(reply, prefix, start, ms[..i + 1]).calls == ResolveAll(reply, prefix, start, ms[..i]).calls
  {
    ResolveAllGrows(reply, prefix, start, ms[..i]);
    FoundWhenCached(reply, prefix, start, ms, i);
  }

  /**
   * Lemma: once a metric has found its descriptor, every later metric of the
   * same type finds it too, with no round trip.
   */
  lemma FoundOnceFoundAfter(reply: nat -> Reply, prefix: string, start: Resolution, ms: seq<Metric>, j: nat, i: nat)
    requires j < i < |ms| && DescriptorType(prefix, ms[j].name) == DescriptorType(prefix, ms[i].name)
    requires ResolveAll(reply, prefix, start, ms).found[|start.found| + j]
    ensures ResolveAll(reply, prefix, start, ms).found[|start.found| + i]
    ensures ResolveAll(reply, prefix, start, ms[..i + 1]).calls == ResolveAll(reply, prefix, start, ms[..i]).calls
  {
    var upToJ := ResolveAll(reply, prefix, start, ms[..j + 1]);
    ResolveAllPrefix(reply, prefix, start, ms, j + 1);
    assert ms[..j + 1] == ms[..j] + [ms[j]];
    ResolveAllSnoc(reply, prefix, start, ms[..j], ms[j]);
    assert upToJ.found[|start.found| + j];
    assert ms[..i][..j + 1] == ms[..j + 1];
    ResolveAllPrefix(reply, prefix, start, ms[..i], j + 1);
    FoundWhenCached(reply, prefix, start, ms, i);
  }

  /**
   * Lemma: an export whose metric types are all cached already finds every
   * descriptor, caches nothing new and makes no round trip.
   */
  lemma {:induction false} WarmCacheResolvesAll(reply: nat -> Reply, prefix: string, start: Resolution, ms: seq<Metric>)
    requires forall m :: m in ms ==> DescriptorType(prefix, m.name) in start.cached
    ensures ResolveAll(reply, prefix, start, ms)
      == Resolution(start.found + seq(|ms|, _ => true), start.cached, start.calls)
    decreases |ms|
  {
    if ms != [] {
      var front := ms[..|ms| - 1];
      assert forall m :: m in front ==> m in ms;
      WarmCacheResolvesAll(reply, prefix, start, front);
      assert ms[|ms| - 1] in ms;
      assert start.found + seq(|ms|, _ => true) == (start.found + seq(|front|, _ => true)) + [true];
    }
  }

  // ---------------------------------------------------------------------
  // The exporter

  /** The service as the exporter sees it: the answer to each round trip, in order. */
  class Network {
    const reply: nat -> Reply
    /** How many round trips have been made. */
    var calls: nat

    constructor (reply: nat -> Reply)
      ensures this.reply == reply && calls == 0
    {
      this.reply := reply;
      calls := 0;
    }

    /** One round trip: the next answer. */
    method Call() returns (r: Reply)
      modifies this
      ensures calls == old(calls) + 1 && r == reply(old(calls))
    {
      r := reply(calls);
      calls := calls + 1;
    }
  }

  class GcpMetricsExporter {
    const prefix: string
    const projectId: Option<string>
    const addUniqueIdentifier: bool
    const uniqueIdentifier: string
    const customMonitoredResourceData: Option<MonitoredResourceDataConfig>
    /** Unicode `is_alphanumeric`, taken as given. */
    const alnum: char -> bool
    /** `ToI64` of u64 values, taken as given. */
    const u64ToI64: U64 -> int
    /** The descriptor cache, keyed by descriptor type. */
    var metricDescriptors: map<string, MetricDescriptor>

    /** Every cached descriptor is filed under its own type, which is the prefix and its metric's name. */
    ghost predicate Valid()
      reads this
    {
      forall t :: t in metricDescriptors ==>
        metricDescriptors[t].descriptorType == t && t == DescriptorType(prefix, metricDescriptors[t].displayName)
    }

    /** `GCPMetricsExporter::new`, the random draw given as `random`. */
    constructor (config: Config, random: nat, alnum: char -> bool, u64ToI64: U64 -> int)
      requires random < 0xFFFF_FFFF
      ensures Valid() && metricDescriptors == map[]
      ensures prefix == config.prefix && projectId == config.projectId
      ensures addUniqueIdentifier == config.addUniqueIdentifier
      ensures customMonitoredResourceData == config.customMonitoredResourceData
      ensures uniqueIdentifier == UniqueIdentifier(random)
      ensures this.alnum == alnum && this.u64ToI64 == u64ToI64
    {
      prefix := config.prefix;
      projectId := config.projectId;
      addUniqueIdentifier := config.addUniqueIdentifier;
      uniqueIdentifier := UniqueIdentifier(random);
      customMonitoredResourceData := config.customMonitoredResourceData;
      this.alnum := alnum;
      this.u64ToI64 := u64ToI64;
      metricDescriptors := map[];
    }

    /** The descriptor `get_metric_descriptor` builds for a metric missing from the cache. */
    method DeriveDescriptor(metric: Metric) returns (descriptor: MetricDescriptor)
      ensures IsFreshDescriptor(descriptor, metric, prefix, addUniqueIdentifier, alnum)
    {
      var seen := DataPointsAttributesKeys(Aggregation(metric.data));
      var labels, order := LabelDescriptors(seen, addUniqueIdentifier, alnum);
      var classification := Classify(metric.data);
      descriptor := MetricDescriptor(DescriptorType(prefix, metric.name), metric.name, metric.description,
                                     metric.unit, labels, classification.0, classification.1);
    }

    /**
     * One registration attempt: a token fetch, then (when there is a token) a
     * CreateMetricDescriptor RPC. It finishes the loop unless the RPC failed
     * with a retryable code.
     */
    method RegisterAttempt(net: Network, ghost iteration: nat) returns (finished: bool, registered: bool)
      requires iteration < MaxAttempts
      modifies net
      ensures finished ==> (registered, net.calls) == RegistrationLoop(net.reply, old(net.calls), iteration)
      ensures !finished ==> RegistrationLoop(net.reply, old(net.calls), iteration)
                              == RegistrationLoop(net.reply, net.calls, iteration + 1)
    {
      var token := net.Call();
      if token.Failed? {
        return true, false;
      }
      var response := net.Call();
      match response {
        case Ok =>
          return true, true;
        case Failed(code) =>
          if IsRetryable(code) {
            return false, false;
          } else if code == AlreadyExists {
            return true, true;
          } else {
            return true, false;
          }
      }
    }

    /**
     * The registration round trips of `get_metric_descriptor`: a channel, then
     * up to 101 attempts of a token fetch and a CreateMetricDescriptor RPC.
     */
    method Register(net: Network) returns (registered: bool)
      modifies net
      ensures (registered, net.calls) == Registration(net.reply, old(net.calls))
    {
      RegistrationStart(net.reply, net.calls);
      var channel := net.Call();
      if channel.Failed? {
        return false;
      }
      registered := RegisterAttempts(net);
    }

    /** The attempts of the registration loop, counted by `iteration` as in the source. */
    method RegisterAttempts(net: Network) returns (registered: bool)
      modifies net
      ensures (registered, net.calls) == RegistrationLoop(net.reply, old(net.calls), 0)
    {
      var iteration := 0;
      while true
        invariant 0 <= iteration <= MaxAttempts
        invariant RegistrationLoop(net.reply, old(net.calls), 0) == RegistrationLoop(net.reply, net.calls, iteration)
        decreases MaxAttempts - iteration
      {
        ghost var done := iteration;
        iteration := iteration + 1;
        if iteration > MaxAttempts {
          RegistrationLoopAtLimit(net.reply, net.calls);
          return false;
        }
        var finished;
        finished, registered := RegisterAttempt(net, done);
        if finished {
          return;
        }
      }
    }

    /**
     * `get_metric_descriptor`: the cached descriptor of the metric's type, with
     * no round trip; otherwise the freshly derived descriptor, registered
     * (cached and returned) exactly when the registration loop succeeds.
     */
    method GetMetricDescriptor(metric: Metric, net: Network) returns (result: Option<MetricDescriptor>)
      requires Valid()
      modifies this, net
      ensures Valid()
      ensures var t := DescriptorType(prefix, metric.name);
        if t in old(metricDescriptors) then
          && result == Some(old(metricDescriptors)[t])
          && metricDescriptors == old(metricDescriptors)
          && net.calls == old(net.calls)
        else
          var registration := Registration(net.reply, old(net.calls));
          && net.calls == registration.1
          && (registration.0 ==>
                && result.Some?
                && IsFreshDescriptor(result.value, metric, prefix, addUniqueIdentifier, alnum)
                && metricDescriptors == old(metricDescriptors)[t := result.value])
          && (!registration.0 ==> result == None && metricDescriptors == old(metricDescriptors))
    {
      var t := DescriptorType(prefix, metric.name);
      if t in metricDescriptors {
        return Some(metricDescriptors[t]);
      }
      var descriptor := DeriveDescriptor(metric);
      var registered := Register(net);
      if !registered {
        return None;
      }
      metricDescriptors := metricDescriptors[t := descriptor];
      result := Some(descriptor);
    }

    /** The resolved descriptors are the cached ones of their metrics' types. */
    ghost predicate Resolves(ms: seq<Metric>, resolved: seq<Option<MetricDescriptor>>)
      requires |resolved| == |ms|
      reads this
    {
      ResolvedIn(metricDescriptors, prefix, ms, resolved)
    }

    /**
     * The lookups of the metrics `ms` from `start` found the descriptors
     * `resolved`, leave this cache's types cached and reach round trip `calls`.
     */
    ghost predicate LookedUp(net: Network, start: Resolution, ms: seq<Metric>, resolved: seq<Option<MetricDescriptor>>)
      reads this, net
    {
      ResolveAll(net.reply, prefix, start, ms) == Resolution(Found(resolved), metricDescriptors.Keys, net.calls)
    }

    /**
     * The accumulation after the metrics `done`: their lookups from `start`
     * found `resolved`, the descriptors cached under those metrics' types, and
     * `series` holds the series of the metrics that found one.
     */
    ghost predicate Accumulating(net: Network, start: Resolution, resource: Option<MonitoredResource>,
                                 done: seq<Metric>, resolved: seq<Option<MetricDescriptor>>, series: seq<TimeSeries>)
      reads this, net
    {
      && Valid() && |resolved| == |done| && AllTimesAfterEpoch(done)
      && Resolves(done, resolved)
      && series == Accumulated(done, resolved, resource, addUniqueIdentifier, uniqueIdentifier, alnum, u64ToI64)
      && LookedUp(net, start, done, resolved)
    }

    /**
     * One more metric: its descriptor is looked up and, when there is one,
     * the series of its points are appended. A cached type gives the cached
     * descriptor; a type registered now gives the freshly derived descriptor.
     */
    method AccumulateMetric(metric: Metric, resource: Option<MonitoredResource>, net: Network,
                            series: seq<TimeSeries>, ghost start: Resolution, ghost done: seq<Metric>,
                            ghost resolved: seq<Option<MetricDescriptor>>)
      returns (extended: seq<TimeSeries>, ghost resolvedMore: seq<Option<MetricDescriptor>>)
      requires Accumulating(net, start, resource, done, resolved, series) && MetricTimesAfterEpoch(metric.data)
      modifies this, net
      ensures Accumulating(net, start, resource, done + [metric], resolvedMore, extended)
      ensures CacheGrows(old(metricDescriptors), metricDescriptors)
      ensures |resolvedMore| == |done| + 1 && resolvedMore[..|done|] == resolved
      ensures var t := DescriptorType(prefix, metric.name);
        && (t in old(metricDescriptors) ==> resolvedMore[|done|] == Some(old(metricDescriptors)[t]))
        && (t !in old(metricDescriptors) && resolvedMore[|done|].Some? ==>
              IsFreshDescriptor(resolvedMore[|done|].value, metric, prefix, addUniqueIdentifier, alnum))
    {
      var descriptor := GetMetricDescriptor(metric, net);
      FoundSnoc(resolved, descriptor);
      ResolveAllSnoc(net.reply, prefix, start, done, metric);
      extended := series;
      if descriptor.Some? {
        extended := series + SeriesOfMetric(metric.data, descriptor.value, resource, addUniqueIdentifier,
                                            uniqueIdentifier, alnum, u64ToI64);
      }
      AccumulatedSnoc(done, resolved, metric, descriptor, resource, addUniqueIdentifier, uniqueIdentifier,
                      alnum, u64ToI64);
      ResolvedInSnoc(old(metricDescriptors), metricDescriptors, prefix, done, resolved, metric, descriptor);
      resolvedMore := resolved + [descriptor];
    }

    /** The metrics of one scope, in order, after the metrics `done`. */
    method AccumulateScope(ms: seq<Metric>, resource: Option<MonitoredResource>, net: Network,
                           series: seq<TimeSeries>, ghost start: Resolution, ghost done: seq<Metric>,
                           ghost resolved: seq<Option<MetricDescriptor>>)
      returns (extended: seq<TimeSeries>, ghost resolvedAll: seq<Option<MetricDescriptor>>)
      requires Accumulating(net, start, resource, done, resolved, series) && AllTimesAfterEpoch(ms)
      modifies this, net
      ensures Accumulating(net, start, resource, done + ms, resolvedAll, extended)
      ensures CacheGrows(old(metricDescriptors), metricDescriptors)
    {
      extended, resolvedAll := series, resolved;
      ghost var current := done;
      var k := 0;
      while k < |ms|
        invariant 0 <= k <= |ms| && current == done + ms[..k]
        invariant Accumulating(net, start, resource, current, resolvedAll, extended)
        invariant CacheGrows(old(metricDescriptors), metricDescriptors)
      {
        var metric := ms[k];
        assert metric in ms;
        assert ms[..k + 1] == ms[..k] + [metric];
        extended, resolvedAll := AccumulateMetric(metric, resource, net, extended, start, current, resolvedAll);
        current := current + [metric];
        k := k + 1;
      }
      assert ms[..k] == ms;
    }

    /**
     * The accumulation loop of `exec_export`: every metric of every scope, in
     * order, has its descriptor resolved and, when there is one, contributes
     * the series of its points.
     */
    method Accumulate(scopes: seq<ScopeMetrics>, resource: Option<MonitoredResource>, net: Network)
      returns (allSeries: seq<TimeSeries>, ghost resolved: seq<Option<MetricDescriptor>>)
      requires Valid() && AllTimesAfterEpoch(AllMetrics(scopes))
      modifies this, net
      ensures Valid()
      ensures CacheGrows(old(metricDescriptors), metricDescriptors)
      ensures |resolved| == |AllMetrics(scopes)|
      ensures Resolves(AllMetrics(scopes), resolved)
      ensures allSeries == Accumulated(AllMetrics(scopes), resolved, resource,
                                       addUniqueIdentifier, uniqueIdentifier, alnum, u64ToI64)
      ensures ResolveAll(net.reply, prefix, Resolution([], old(metricDescriptors).Keys, old(net.calls)), AllMetrics(scopes))
        == Resolution(Found(resolved), metricDescriptors.Keys, net.calls)
    {
      allSeries, resolved := [], [];
      ghost var current: seq<Metric> := [];
      ghost var start := Resolution([], metricDescriptors.Keys, net.calls);
      assert Found(resolved) == [];
      var s := 0;
      while s < |scopes|
        invariant 0 <= s <= |scopes| && current == AllMetrics(scopes[..s])
        invariant Accumulating(net, start, resource, current, resolved, allSeries)
        invariant CacheGrows(old(metricDescriptors), metricDescriptors)
      {
        AllMetricsScope(scopes, s);
        AllMetricsPrefix(scopes, s + 1);
        assert forall m :: m in scopes[s].metrics ==> m in AllMetrics(scopes[..s + 1]);
        allSeries, resolved := AccumulateScope(scopes[s].metrics, resource, net, allSeries, start, current, resolved);
        current := current + scopes[s].metrics;
        s := s + 1;
      }
      assert scopes[..s] == scopes;
    }

    /**
     * The retry loop of one batch: up to 101 attempts of a token fetch, a
     * channel creation and a CreateTimeSeries RPC.
     */
    method SendBatch(batch: seq<TimeSeries>, net: Network) returns (outcome: BatchOutcome)
      modifies net
      ensures (outcome, net.calls) == BatchFrom(net.reply)(old(net.calls))
    {
      var iteration := 0;
      while true
        invariant 0 <= iteration <= MaxAttempts
        invariant BatchLoop(net.reply, old(net.calls), 0) == BatchLoop(net.reply, net.calls, iteration)
        decreases MaxAttempts - iteration
      {
        iteration := iteration + 1;
        if iteration > MaxAttempts {
          return Exhausted;
        }
        var token := net.Call();
        if token.Failed? {
          return TokenFailed;
        }
        var channel := net.Call();
        if channel.Failed? {
          return ChannelFailed;
        }
        var response := net.Call();
        match response {
          case Ok =>
            return Delivered;
          case Failed(code) =>
            if IsRetryable(code) {
              continue;
            }
            return Dropped;
        }
      }
    }

    /** One batch of a delivery with `left` batches to go, and what the delivery comes to given its outcome. */
    method SendNext(batch: seq<TimeSeries>, net: Network, ghost left: nat) returns (outcome: BatchOutcome)
      requires left > 0
      modifies net
      ensures Delivery(BatchFrom(net.reply), old(net.calls), left)
        == if IsFatal(outcome) then (InternalFailure(FailureOf(outcome)), net.calls)
           else Delivery(BatchFrom(net.reply), net.calls, left - 1)
    {
      outcome := SendBatch(batch, net);
      DeliveryStep(BatchFrom(net.reply), old(net.calls), left, (outcome, net.calls));
    }

    /** The batch loop of `exec_export`: the batches in order, stopping at the first fatal outcome. */
    method SendBatches(batches: seq<seq<TimeSeries>>, net: Network) returns (result: ExportResult)
      modifies net
      ensures (result, net.calls) == Delivery(BatchFrom(net.reply), old(net.calls), |batches|)
    {
      var b := 0;
      while b < |batches|
        invariant 0 <= b <= |batches|
        invariant Delivery(BatchFrom(net.reply), old(net.calls), |batches|)
          == Delivery(BatchFrom(net.reply), net.calls, |batches| - b)
      {
        var outcome := SendNext(batches[b], net, |batches| - b);
        if IsFatal(outcome) {
          return InternalFailure(FailureOf(outcome));
        }
        b := b + 1;
      }
      result := Success;
    }

    /**
     * `exec_export`: the series of all metrics, accumulated in order, are cut
     * into batches of 200 and delivered in order.
     */
    method ExecExport(metrics: ResourceMetrics, detected: Option<MonitoredResource>, net: Network)
      returns (result: ExportResult, ghost series: seq<TimeSeries>, ghost resolved: seq<Option<MetricDescriptor>>,
               ghost sent: nat)
      requires Valid() && AllTimesAfterEpoch(AllMetrics(metrics.scopeMetrics))
      modifies this, net
      ensures Valid()
      ensures CacheGrows(old(metricDescriptors), metricDescriptors)
      ensures |resolved| == |AllMetrics(metrics.scopeMetrics)|
      ensures Resolves(AllMetrics(metrics.scopeMetrics), resolved)
      ensures series == Accumulated(AllMetrics(metrics.scopeMetrics), resolved,
                                    ResourceOf(customMonitoredResourceData, detected),
                                    addUniqueIdentifier, uniqueIdentifier, alnum, u64ToI64)
      ensures ResolveAll(net.reply, prefix, Resolution([], old(metricDescriptors).Keys, old(net.calls)),
                         AllMetrics(metrics.scopeMetrics))
        == Resolution(Found(resolved), metricDescriptors.Keys, sent)
      ensures (result, net.calls) == Delivery(BatchFrom(net.reply), sent, |Chunks(series, BatchSize)|)
    {
      var resource := ResourceOf(customMonitoredResourceData, detected);
      var allSeries;
      allSeries, resolved := Accumulate(metrics.scopeMetrics, resource, net);
      series, sent := allSeries, net.calls;
      var chunks := Chunks(allSeries, BatchSize);
      result := SendBatches(chunks, net);
    }

    /** `force_flush`: nothing is buffered, so it always succeeds. */
    function ForceFlush(): (r: ExportResult)
      ensures r == Success
    {
      Success
    }

    /** `shutdown_with_timeout`: always succeeds, whatever the timeout. */
    function ShutdownWithTimeout(timeoutMillis: nat): (r: ExportResult)
      ensures r == Success
    {
      Success
    }
  }
}
