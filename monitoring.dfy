/**
 * The Cloud Monitoring wire schema the exporter produces (the fields of
 * google.api.MetricDescriptor, google.monitoring.v3.TimeSeries and their parts
 * that the exporter sets), and the gRPC status codes it classifies.
 */
module Monitoring {
  import opened Wrappers

  datatype MetricKind = MetricKindUnspecified | GaugeKind | DeltaKind | CumulativeKind

  datatype ValueType =
    | ValueTypeUnspecified | Bool | Int64 | Double | StringValue | Distribution | Money

  /** A declared label; its value type (STRING) and empty description are defaults. */
  datatype LabelDescriptor = LabelDescriptor(key: string)

  datatype MetricDescriptor = MetricDescriptor(
    descriptorType: string,
    displayName: string,
    description: string,
    unit: string,
    labels: seq<LabelDescriptor>,
    metricKind: MetricKind,
    valueType: ValueType)

  /** The keys a descriptor declares. */
  function LabelKeys(labels: seq<LabelDescriptor>): (keys: set<string>)
    ensures forall i :: 0 <= i < |labels| ==> labels[i].key in keys
    ensures forall k :: k in keys ==> exists i :: 0 <= i < |labels| && labels[i].key == k
  {
    set i | 0 <= i < |labels| :: labels[i].key
  }

  /** A protobuf Timestamp: whole seconds (i64) and residual nanoseconds (i32). */
  datatype Timestamp = Timestamp(seconds: int, nanos: int)

  datatype TimeInterval = TimeInterval(startTime: Option<Timestamp>, endTime: Option<Timestamp>)

  datatype Range = Range(min: real, max: real)

  datatype BucketOptions = ExplicitBuckets(bounds: seq<real>)

  /** A distribution value; exemplars are always empty and are not represented. */
  datatype DistributionValue = DistributionValue(
    count: int,
    mean: real,
    sumOfSquaredDeviation: real,
    bucketOptions: BucketOptions,
    range: Option<Range>,
    bucketCounts: seq<int>)

  datatype TypedValue =
    | DoubleValue(doubleValue: real)
    | Int64Value(int64Value: int)
    | DistributionTypedValue(distribution: DistributionValue)

  datatype Point = Point(interval: TimeInterval, value: TypedValue)

  datatype MonitoredResource = MonitoredResource(resourceType: string, labels: map<string, string>)

  /** The metric part of a time series: its type string and its label map. */
  datatype MetricLabels = MetricLabels(metricType: string, labels: map<string, string>)

  datatype TimeSeries = TimeSeries(
    resource: Option<MonitoredResource>,
    metricKind: MetricKind,
    valueType: ValueType,
    metric: MetricLabels,
    points: seq<Point>,
    unit: string)

  /** The gRPC status codes (tonic::Code). */
  datatype Code =
    | OkCode | Cancelled | Unknown | InvalidArgument | DeadlineExceeded | NotFound
    | AlreadyExists | PermissionDenied | ResourceExhausted | FailedPrecondition | Aborted
    | OutOfRange | Unimplemented | Internal | Unavailable | DataLoss | Unauthenticated
}
