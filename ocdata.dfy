/** The instrumentation library's data as the exporter receives it: view
    data (stats/view) and metrics (metric/metricdata). Times are integer
    nanoseconds since the Unix epoch. */
module OpenCensus {
  import opened Common

  // ---------------------------------------------------------------------
  // Views

  datatype MeasureKind = Int64Measure | Float64Measure

  datatype Measure = Measure(name: string, unit: string, kind: MeasureKind)

  datatype AggType = AggTypeNone | AggTypeCount | AggTypeSum | AggTypeDistribution | AggTypeLastValue

  datatype Aggregation = Aggregation(aggType: AggType, buckets: seq<real>)

  datatype View = View(
    name: string,
    description: string,
    tagKeys: seq<string>,
    measure: Measure,
    aggregation: Aggregation)

  datatype Tag = Tag(key: string, value: string)

  /** The aggregated value of one row. */
  datatype AggregationData =
    | CountData(countValue: int)
    | SumData(sumValue: real)
    | DistributionData(count: int, mean: real, sumOfSquaredDev: real, countPerBucket: seq<int>)
    | LastValueData(lastValue: real)

  datatype Row = Row(tags: seq<Tag>, data: AggregationData)

  /** View data collected between `start` and `end`. */
  datatype ViewData = ViewData(view: View, rows: seq<Row>, start: int, end: int)

  // ---------------------------------------------------------------------
  // Metrics

  datatype MetricType =
    | TypeGaugeInt64
    | TypeGaugeFloat64
    | TypeGaugeDistribution
    | TypeCumulativeInt64
    | TypeCumulativeFloat64
    | TypeCumulativeDistribution
    | TypeSummary
    | TypeOther(code: int)

  datatype LabelKey = LabelKey(key: string, description: string)

  /** A label value; `present` tells an explicit value from a missing one. */
  datatype LabelValue = LabelValue(value: string, present: bool)

  datatype Descriptor = Descriptor(
    name: string,
    description: string,
    unit: string,
    metricType: MetricType,
    labelKeys: seq<LabelKey>)

  /** Trace and span identifiers as the hexadecimal text they print as. */
  datatype SpanContext = SpanContext(traceID: string, spanID: string)

  /** An exemplar attachment: a span context, or any other value given by
      the text `%v` formats it as. */
  datatype Attachment = SpanContextAttachment(spanContext: SpanContext) | OtherAttachment(formatted: string)

  datatype Exemplar = Exemplar(value: real, timestamp: int, attachments: seq<Attachment>)

  datatype Bucket = Bucket(count: int, exemplar: Option<Exemplar>)

  datatype Distribution = Distribution(
    count: int,
    sum: real,
    sumOfSquaredDeviation: real,
    bucketBounds: Option<seq<real>>,  // None when BucketOptions is nil
    buckets: seq<Bucket>)

  /** A point value: int64, float64, distribution, or a value of another
      dynamic type (a summary, say), given by the name `%T` prints for it. */
  datatype Value = Int64(i: int) | Float64(f: real) | DistributionOf(d: Distribution) | OtherValue(typeName: string)

  datatype Point = Point(time: int, value: Value)

  datatype TimeSeries = TimeSeries(labelValues: seq<LabelValue>, points: seq<Point>, startTime: int)

  datatype Resource = Resource(resourceType: string, labels: Option<map<string, string>>)

  datatype Metric = Metric(descriptor: Descriptor, timeSeries: seq<TimeSeries>, resource: Option<Resource>)
}

/** The exporter's configuration and the naming helpers it relies on. */
module Config {
  import opened Common
  import opened Series
  import OC = OpenCensus

  /** A default label: its value and its description. */
  datatype DefaultLabel = DefaultLabel(val: string, desc: string)

  /** Hook that remaps a metric's labels and chooses its resource. */
  type ResourceHook = (OC.Descriptor, map<string, string>) -> (map<string, string>, MonitoredResource)

  datatype Options = Options(
    projectID: string,
    resource: Option<MonitoredResource>,
    skipCMD: bool,
    getMetricType: Option<OC.View -> string>,
    getMetricDisplayName: Option<OC.View -> string>,
    resourceByDescriptor: Option<ResourceHook>)

  /** Naming helpers defined elsewhere in the exporter: label-key
      sanitising, the metric type for a metric name, and the test for a name
      that already carries a domain. */
  datatype Naming = Naming(
    sanitize: string -> string,
    metricTypeFromProto: string -> string,
    hasDomain: string -> bool)
}
