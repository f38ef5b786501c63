/**
 * Translation of one explicit-bucket histogram data point into one wire time
 * series carrying a distribution value
 * (src/exporter/histogram_data_point_to_time_series.rs).
 */
module HistogramDataPointToTimeSeries {
  import opened Wrappers
  import opened Sdk
  import opened Monitoring
  import opened DataPointToTimeSeries

  /** 2^64. */
  const U64Modulus: int := 0x1_0000_0000_0000_0000

  /** The Rust cast `u as i64` of an unsigned 64-bit value: two's-complement reinterpretation. */
  function AsI64(u: U64): (r: int)
    ensures -I64Bound <= r < I64Bound
    ensures u < I64Bound ==> r == u
    ensures u >= I64Bound ==> r < 0 && r + U64Modulus == u
  {
    if u < I64Bound then u else u - U64Modulus
  }

  /** The mean of a histogram point: 0 for an empty point, else sum over count. */
  function Mean<T>(dp: HistogramDataPoint<T>, toF64: T -> real): (mean: real)
    ensures dp.count == 0 ==> mean == 0.0
    ensures dp.count > 0 ==> mean * (dp.count as real) == toF64(dp.sum)
  {
    if dp.count == 0 then 0.0 else toF64(dp.sum) / (dp.count as real)
  }

  /** The distribution of a translated histogram point. */
  function Distribution<T>(dp: HistogramDataPoint<T>, toF64: T -> real): (d: DistributionValue)
    ensures d.count == AsI64(dp.count)
    ensures d.mean == Mean(dp, toF64)
    ensures d.sumOfSquaredDeviation == 0.0 && d.range == None
    ensures d.bucketOptions == ExplicitBuckets(dp.bounds)
    ensures |d.bucketCounts| == |dp.bucketCounts|
    ensures forall i :: 0 <= i < |dp.bucketCounts| ==> d.bucketCounts[i] == AsI64(dp.bucketCounts[i])
  {
    DistributionValue(
      AsI64(dp.count), Mean(dp, toF64), 0.0, ExplicitBuckets(dp.bounds), None,
      seq(|dp.bucketCounts|, i requires 0 <= i < |dp.bucketCounts| => AsI64(dp.bucketCounts[i])))
  }

  /**
   * `convert`: a histogram point as a one-point series whose interval always
   * carries both the start and the end time. Both times are unwrapped
   * relative to the epoch, hence the precondition.
   */
  function Convert<T>(dp: HistogramDataPoint<T>, descriptor: MetricDescriptor,
                      resource: Option<MonitoredResource>, addUniqueIdentifier: bool,
                      uniqueIdentifier: string, alnum: char -> bool, toF64: T -> real): (ts: TimeSeries)
    requires dp.startTime >= 0 && dp.time >= 0
    ensures CopiesDescriptor(ts, descriptor, resource)
    ensures ts.points[0].interval.startTime.Some? && IsSplitOf(ts.points[0].interval.startTime.value, dp.startTime)
    ensures ts.points[0].interval.endTime.Some? && IsSplitOf(ts.points[0].interval.endTime.value, dp.time)
    ensures ts.points[0].value == DistributionTypedValue(Distribution(dp, toF64))
    ensures HasSeriesLabels(ts.metric.labels, dp.attributes, addUniqueIdentifier, uniqueIdentifier, alnum)
  {
    MakeSeries(descriptor, resource,
               SeriesLabels(dp.attributes, addUniqueIdentifier, uniqueIdentifier, alnum),
               Point(TimeInterval(Some(ToTimestamp(dp.startTime)), Some(ToTimestamp(dp.time))),
                     DistributionTypedValue(Distribution(dp, toF64))))
  }

  /** The sum of a sequence of counts. */
  function Total(counts: seq<int>): int {
    if counts == [] then 0 else Total(counts[..|counts| - 1]) + counts[|counts| - 1]
  }

  lemma TotalStep(counts: seq<int>, k: int)
    requires 0 < k <= |counts|
    ensures Total(counts[..k]) == Total(counts[..k - 1]) + counts[k - 1]
  {
    assert counts[..k][..k - 1] == counts[..k - 1];
  }

  /**
   * A well-formed explicit-bucket point: one more bucket than bounds, the
   * buckets adding up to the count, and every count representable as i64.
   */
  predicate WellFormed<T>(dp: HistogramDataPoint<T>) {
    && |dp.bucketCounts| == |dp.bounds| + 1
    && Total(dp.bucketCounts) == dp.count
    && dp.count < I64Bound
  }

  /** Bucket counts of a well-formed point are each at most the total. */
  lemma {:induction false} BucketAtMostTotal(counts: seq<U64>, i: int)
    requires 0 <= i < |counts|
    ensures counts[i] <= Total(counts)
    decreases |counts|
  {
    var front := counts[..|counts| - 1];
    if i < |counts| - 1 {
      assert front[i] == counts[i];
      BucketAtMostTotal(front, i);
    } else {
      TotalNonNegative(front);
    }
  }

  lemma {:induction false} TotalNonNegative(counts: seq<U64>)
    ensures Total(counts) >= 0
  {
    if counts != [] {
      TotalNonNegative(counts[..|counts| - 1]);
    }
  }

  /**
   * The translation of a well-formed point keeps the bucket accounting:
   * N + 1 wire bucket counts for N bounds, equal to the source counts, adding
   * up to the wire count.
   */
  lemma BucketAccounting<T>(dp: HistogramDataPoint<T>, toF64: T -> real)
    requires WellFormed(dp)
    ensures var d := Distribution(dp, toF64);
      && |d.bucketCounts| == |d.bucketOptions.bounds| + 1
      && d.count == dp.count
      && d.bucketCounts == dp.bucketCounts
      && Total(d.bucketCounts) == d.count
  {
    var d := Distribution(dp, toF64);
    forall i | 0 <= i < |dp.bucketCounts|
      ensures d.bucketCounts[i] == dp.bucketCounts[i]
    {
      BucketAtMostTotal(dp.bucketCounts, i);
    }
  }

  /** Above 2^63 - 1 the cast turns a count negative, so large counts do not survive. */
  lemma LargeCountWraps<T>(dp: HistogramDataPoint<T>, toF64: T -> real)
    requires dp.count >= I64Bound
    ensures Distribution(dp, toF64).count < 0
  {
  }

  /**
   * The histogram scenario of the exporter's tests: 10000 values 0..9999
   * (sum 49995000) in 16 buckets over 15 bounds translate to count 10000 and
   * mean 4999.5, with the bucket counts unchanged.
   */
  lemma HistogramScenario(dp: HistogramDataPoint<real>)
    requires dp.count == 10000 && dp.sum == 49995000.0
    requires dp.bounds == [0.0, 5.0, 10.0, 25.0, 50.0, 75.0, 100.0, 250.0, 500.0, 750.0,
                           1000.0, 2500.0, 5000.0, 7500.0, 10000.0]
    requires dp.bucketCounts == [1, 5, 5, 15, 25, 25, 25, 150, 250, 250, 250, 1500, 2500, 2500, 2499, 0]
    ensures var d := Distribution(dp, x => x);
      && d.count == 10000 && d.mean == 4999.5
      && d.bucketCounts == dp.bucketCounts
      && |d.bucketCounts| == |d.bucketOptions.bounds| + 1
  {
    var c := dp.bucketCounts;
    assert Total(c[..0]) == 0;
    TotalStep(c, 1); TotalStep(c, 2); TotalStep(c, 3); TotalStep(c, 4);
    TotalStep(c, 5); TotalStep(c, 6); TotalStep(c, 7); TotalStep(c, 8);
    TotalStep(c, 9); TotalStep(c, 10); TotalStep(c, 11); TotalStep(c, 12);
    TotalStep(c, 13); TotalStep(c, 14); TotalStep(c, 15); TotalStep(c, 16);
    assert c[..16] == c;
    BucketAccounting(dp, x => x);
  }
}
