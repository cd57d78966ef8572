/** Conversion of the instrumentation library's metrics into the backend's
    time series: kind and value type, resource, labels, points and
    distributions. */
module Metrics {
  import opened Common
  import opened Series
  import opened Config
  import opened Stats
  import OC = OpenCensus

  const ExemplarAttachmentTypeString := "type.googleapis.com/google.protobuf.StringValue"
  const ExemplarAttachmentTypeSpanCtx := "type.googleapis.com/google.monitoring.v3.SpanContext"

  /** errNilMetricOrMetricDescriptor; its text is defined outside this model. */
  const ErrNilMetricOrMetricDescriptor := Error("errNilMetricOrMetricDescriptor")

  datatype MetricKind = MetricKindUnspecified | Gauge | Cumulative

  datatype ValueType = ValueTypeUnspecified | Int64Type | DoubleType | DistributionType

  // ---------------------------------------------------------------------
  // Kind and value type

  predicate IsGaugeType(t: OC.MetricType) {
    t == OC.TypeGaugeInt64 || t == OC.TypeGaugeFloat64 || t == OC.TypeGaugeDistribution
  }

  predicate IsCumulativeType(t: OC.MetricType) {
    t == OC.TypeCumulativeInt64 || t == OC.TypeCumulativeFloat64 || t == OC.TypeCumulativeDistribution
  }

  /** metricDescriptorTypeToMetricKind: the six gauge and cumulative types
      keep their kind and their value type; a summary, any other type and a
      missing metric get neither. */
  function MetricDescriptorTypeToMetricKind(m: Option<OC.Metric>): (r: (MetricKind, ValueType))
    ensures r.0 == MetricKindUnspecified <==> r.1 == ValueTypeUnspecified
    ensures m.None? ==> r == (MetricKindUnspecified, ValueTypeUnspecified)
    ensures m.Some? ==>
              var t := m.value.descriptor.metricType;
              && (r.0 == Gauge <==> IsGaugeType(t))
              && (r.0 == Cumulative <==> IsCumulativeType(t))
              && (r.1 == Int64Type <==> t == OC.TypeGaugeInt64 || t == OC.TypeCumulativeInt64)
              && (r.1 == DoubleType <==> t == OC.TypeGaugeFloat64 || t == OC.TypeCumulativeFloat64)
              && (r.1 == DistributionType <==> t == OC.TypeGaugeDistribution || t == OC.TypeCumulativeDistribution)
  {
    match m
    case None => (MetricKindUnspecified, ValueTypeUnspecified)
    case Some(metric) =>
      match metric.descriptor.metricType
      case TypeCumulativeInt64 => (Cumulative, Int64Type)
      case TypeCumulativeFloat64 => (Cumulative, DoubleType)
      case TypeCumulativeDistribution => (Cumulative, DistributionType)
      case TypeGaugeFloat64 => (Gauge, DoubleType)
      case TypeGaugeInt64 => (Gauge, Int64Type)
      case TypeGaugeDistribution => (Gauge, DistributionType)
      case TypeSummary => (MetricKindUnspecified, ValueTypeUnspecified)
      case TypeOther(_) => (MetricKindUnspecified, ValueTypeUnspecified)
  }

  // ---------------------------------------------------------------------
  // Resources

  /** metricRscToMpbRsc: a metric without a resource gets the configured
      one, or "global"; a metric with one keeps its type ("global" when
      blank) and a copy of its labels. */
  function MetricRscToMpbRsc(o: Options, rs: Option<OC.Resource>): (r: MonitoredResource)
    ensures rs.None? ==> r == DefaultResource(o)
    ensures rs.Some? ==> r.labels == rs.value.labels && r.resourceType != ""
    ensures rs.Some? && rs.value.resourceType != "" ==> r.resourceType == rs.value.resourceType
  {
    match rs
    case None => DefaultResource(o)
    case Some(res) =>
      MonitoredResource(if res.resourceType == "" then "global" else res.resourceType, res.labels)
  }

  /** The resource chosen by a ResourceByDescriptor hook: one with a blank
      type collapses to "global" without labels. */
  function HookResource(rsc: MonitoredResource): (r: MonitoredResource)
    ensures r.resourceType != ""
    ensures rsc.resourceType != "" ==> r == rsc
    ensures rsc.resourceType == "" ==> r == MonitoredResource("global", None)
  {
    if rsc.resourceType == "" then MonitoredResource("global", None) else rsc
  }

  // ---------------------------------------------------------------------
  // Labels

  /** The values that are present, under their sanitized keys; a later key
      overrides an earlier one that sanitizes the same. */
  function PresentLabels(keys: seq<OC.LabelKey>, values: seq<OC.LabelValue>, sanitize: string -> string)
    : (r: map<string, string>)
    requires |keys| == |values|
  {
    if keys == [] then map[]
    else
      var n := |keys| - 1;
      var r := PresentLabels(keys[..n], values[..n], sanitize);
      if values[n].present then r[sanitize(keys[n].key) := values[n].value] else r
  }

  /** Exactly the keys of present values appear; absent values leave no
      trace. */
  lemma {:induction false} PresentLabelsKeys(keys: seq<OC.LabelKey>, values: seq<OC.LabelValue>, sanitize: string -> string)
    requires |keys| == |values|
    ensures PresentLabels(keys, values, sanitize).Keys
         == set i | 0 <= i < |keys| && values[i].present :: sanitize(keys[i].key)
  {
    if keys != [] {
      var n := |keys| - 1;
      PresentLabelsKeys(keys[..n], values[..n], sanitize);
      var before := set i | 0 <= i < n && values[..n][i].present :: sanitize(keys[..n][i].key);
      var after := set i | 0 <= i < |keys| && values[i].present :: sanitize(keys[i].key);
      assert before == set i | 0 <= i < n && values[i].present :: sanitize(keys[i].key);
      if values[n].present {
        assert after == before + {sanitize(keys[n].key)};
      } else {
        assert after == before;
      }
    }
  }

  /** A present value is the label's value unless a later present value
      sanitizes to the same key. */
  lemma {:induction false} PresentLabelsLastWins(keys: seq<OC.LabelKey>, values: seq<OC.LabelValue>,
                                                 sanitize: string -> string, i: nat)
    requires |keys| == |values| && i < |keys| && values[i].present
    requires forall j :: i < j < |keys| && values[j].present ==> sanitize(keys[j].key) != sanitize(keys[i].key)
    ensures sanitize(keys[i].key) in PresentLabels(keys, values, sanitize)
    ensures PresentLabels(keys, values, sanitize)[sanitize(keys[i].key)] == values[i].value
  {
    var n := |keys| - 1;
    if i < n {
      PresentLabelsLastWins(keys[..n], values[..n], sanitize, i);
    }
  }

  /** The second loop of metricLabelsToTsLabels: each present value is
      written under its sanitized key, on top of what `labels` holds. */
  method AddPresentLabels(labels: map<string, string>, keys: seq<OC.LabelKey>, values: seq<OC.LabelValue>,
                          sanitize: string -> string)
    returns (r: map<string, string>)
    requires |keys| == |values|
    ensures r == labels + PresentLabels(keys, values, sanitize)
  {
    r := labels;
    for i := 0 to |keys|
      invariant r == labels + PresentLabels(keys[..i], values[..i], sanitize)
    {
      assert keys[..i + 1][..i] == keys[..i] && values[..i + 1][..i] == values[..i];
      if values[i].present {
        r := r[sanitize(keys[i].key) := values[i].value];
      }
    }
    assert keys[..|keys|] == keys && values[..|values|] == values;
  }

  /** metricLabelsToTsLabels: mismatched key and value counts are an error;
      with no defaults and no keys there is no map; otherwise the sanitized
      defaults, overridden or extended by the present values. */
  method MetricLabelsToTsLabels(defaults: map<string, DefaultLabel>, labelKeys: seq<OC.LabelKey>,
                                labelValues: seq<OC.LabelValue>, sanitize: string -> string)
    returns (r: Result<Option<map<string, string>>>, ghost fromDefaults: map<string, string>)
    ensures r.Failure? <==> |labelKeys| != |labelValues|
    ensures |labelKeys| == |labelValues| && |defaults| + |labelKeys| == 0 ==> r == Success(None)
    ensures |labelKeys| == |labelValues| && |defaults| + |labelKeys| > 0 ==>
              && FromDefaults(defaults, sanitize, fromDefaults)
              && r == Success(Some(fromDefaults + PresentLabels(labelKeys, labelValues, sanitize)))
  {
    fromDefaults := map[];
    if |labelKeys| != |labelValues| {
      r := Failure(Error("length mismatch: len(labelKeys)=" + Decimal(|labelKeys|)
                         + " len(labelValues)=" + Decimal(|labelValues|)));
      return;
    }
    if |defaults| + |labelKeys| == 0 {
      r := Success(None);
      return;
    }
    var labels := FillDefaults(defaults, sanitize);
    fromDefaults := labels;
    labels := AddPresentLabels(labels, labelKeys, labelValues, sanitize);
    r := Success(Some(labels));
  }

  // ---------------------------------------------------------------------
  // Exemplars and buckets

  /** An attachment in the backend's form: a span context becomes the name
      of the span it points to, anything else its formatted text. */
  function AttachmentOf(a: OC.Attachment, projectID: string): (r: Any)
  {
    match a
    case SpanContextAttachment(sc) =>
      Any(ExemplarAttachmentTypeSpanCtx,
          "projects/" + projectID + "/traces/" + sc.traceID + "/spans/" + sc.spanID)
    case OtherAttachment(text) => Any(ExemplarAttachmentTypeString, text)
  }

  /** attachmentsToPbAttachments: one attachment per input, in order, typed
      by what it holds. */
  method AttachmentsToPbAttachments(attachments: seq<OC.Attachment>, projectID: string) returns (r: seq<Any>)
    ensures |r| == |attachments|
    ensures forall i :: 0 <= i < |r| ==> r[i] == AttachmentOf(attachments[i], projectID)
    ensures forall i :: 0 <= i < |r| ==>
              (r[i].typeUrl == ExemplarAttachmentTypeSpanCtx <==> attachments[i].SpanContextAttachment?)
  {
    r := [];
    for i := 0 to |attachments|
      invariant |r| == i
      invariant forall k :: 0 <= k < i ==> r[k] == AttachmentOf(attachments[k], projectID)
    {
      r := r + [AttachmentOf(attachments[i], projectID)];
    }
  }

  function ExemplarOf(e: OC.Exemplar, projectID: string): Exemplar {
    Exemplar(e.value, TimestampOf(e.timestamp),
             seq(|e.attachments|, i requires 0 <= i < |e.attachments| => AttachmentOf(e.attachments[i], projectID)))
  }

  /** metricExemplarToPbExemplar */
  method MetricExemplarToPbExemplar(e: OC.Exemplar, projectID: string) returns (r: Exemplar)
    ensures r == ExemplarOf(e, projectID)
  {
    var attachments := AttachmentsToPbAttachments(e.attachments, projectID);
    r := Exemplar(e.value, TimestampOf(e.timestamp), attachments);
  }

  predicate HasExemplar(b: OC.Bucket) {
    b.exemplar.Some?
  }

  /** The exemplars of the buckets that carry one, in bucket order. */
  function BucketExemplars(buckets: seq<OC.Bucket>, projectID: string): seq<Exemplar> {
    if buckets == [] then []
    else
      var n := |buckets| - 1;
      BucketExemplars(buckets[..n], projectID)
        + (if buckets[n].exemplar.Some? then [ExemplarOf(buckets[n].exemplar.value, projectID)] else [])
  }

  /** One exemplar per bucket that has one, in the order of those buckets. */
  lemma {:induction false} BucketExemplarsInOrder(buckets: seq<OC.Bucket>, projectID: string)
    ensures var withExemplar := Select(buckets, HasExemplar, true);
            && |BucketExemplars(buckets, projectID)| == |withExemplar|
            && forall k :: 0 <= k < |withExemplar| ==>
                 BucketExemplars(buckets, projectID)[k] == ExemplarOf(withExemplar[k].exemplar.value, projectID)
  {
    if buckets != [] {
      var n := |buckets| - 1;
      BucketExemplarsInOrder(buckets[..n], projectID);
    }
  }

  function BucketCounts(buckets: seq<OC.Bucket>): (r: seq<int>)
    ensures |r| == |buckets|
  {
    seq(|buckets|, i requires 0 <= i < |buckets| => buckets[i].count)
  }

  /** metricBucketToBucketCountsAndExemplars: the counts of all buckets in
      order, and the exemplars of those that have one. */
  method MetricBucketToBucketCountsAndExemplars(buckets: seq<OC.Bucket>, projectID: string)
    returns (bucketCounts: seq<int>, exemplars: seq<Exemplar>)
    ensures |bucketCounts| == |buckets|
    ensures forall i :: 0 <= i < |buckets| ==> bucketCounts[i] == buckets[i].count
    ensures exemplars == BucketExemplars(buckets, projectID)
  {
    var counts := new int[|buckets|];
    exemplars := [];
    for i := 0 to |buckets|
      invariant forall k :: 0 <= k < i ==> counts[k] == buckets[k].count
      invariant exemplars == BucketExemplars(buckets[..i], projectID)
    {
      counts[i] := buckets[i].count;
      assert buckets[..i + 1][..i] == buckets[..i];
      if buckets[i].exemplar.Some? {
        var e := MetricExemplarToPbExemplar(buckets[i].exemplar.value, projectID);
        exemplars := exemplars + [e];
      }
    }
    assert buckets[..|buckets|] == buckets;
    bucketCounts := counts[..];
  }

  // ---------------------------------------------------------------------
  // Points

  /** The backend value of a point value. */
  function PointValue(v: OC.Value, projectID: string): Result<TypedValue> {
    match v
    case Int64(i) => Success(Int64Value(i))
    case Float64(f) => Success(DoubleValue(f))
    case DistributionOf(d) => Success(DistributionPointValue(d, projectID))
    case OtherValue(typeName) => Failure(Error("protoToMetricPoint: unknown Data type: " + typeName))
  }

  /** The backend value of a distribution. */
  function DistributionPointValue(d: OC.Distribution, projectID: string): TypedValue {
    var mean := if d.count > 0 then d.sum / (d.count as real) else 0.0;
    var insert := d.bucketBounds.Some? && ShouldInsertZeroBound(d.bucketBounds.value);
    var bounds := if d.bucketBounds.Some? then Some(AddZeroBoundOnCondition(insert, d.bucketBounds.value)) else None;
    DistributionValue(d.count, mean, d.sumOfSquaredDeviation, bounds,
                      AddZeroBucketCountOnCondition(insert, BucketCounts(d.buckets)),
                      BucketExemplars(d.buckets, projectID))
  }

  /** What the conversion of a point value promises: only int64, float64
      and distributions convert, each to the value of its own kind. */
  lemma PointValueSound(v: OC.Value, projectID: string)
    ensures PointValue(v, projectID).Failure? <==> v.OtherValue?
    ensures v.Int64? ==> PointValue(v, projectID) == Success(Int64Value(v.i))
    ensures v.Float64? ==> PointValue(v, projectID) == Success(DoubleValue(v.f))
    ensures v.DistributionOf? ==> PointValue(v, projectID) == Success(DistributionPointValue(v.d, projectID))
  {
  }

  /** A distribution's mean is 0 when it counted nothing; its counts are
      the bucket counts in order behind at most one inserted 0, which comes
      exactly with an inserted 0 bound, so bounds and counts stay aligned. */
  lemma DistributionPointValueSound(d: OC.Distribution, projectID: string)
    ensures var r := DistributionPointValue(d, projectID);
            var inserted := |r.bucketCounts| - |d.buckets|;
            && r.DistributionValue? && r.count == d.count
            && (d.count == 0 ==> r.mean == 0.0)
            && (d.count > 0 ==> r.mean == d.sum / (d.count as real))
            && (inserted == 0 || inserted == 1)
            && (forall i :: 0 <= i < |d.buckets| ==> r.bucketCounts[inserted + i] == d.buckets[i].count)
            && (inserted == 1 ==> r.bucketCounts[0] == 0)
            && (r.bounds.Some? <==> d.bucketBounds.Some?)
            && (r.bounds.None? ==> inserted == 0)
            && r.sumOfSquaredDeviation == d.sumOfSquaredDeviation
            && (inserted == 1 <==> d.bucketBounds.Some? && ShouldInsertZeroBound(d.bucketBounds.value))
            && (r.bounds.Some? ==> |r.bounds.value| == |d.bucketBounds.value| + inserted
                                   && !ShouldInsertZeroBound(r.bounds.value))
            && (r.bounds.Some? && inserted == 1 ==> r.bounds.value == [0.0] + d.bucketBounds.value)
            && (r.bounds.Some? && inserted == 0 ==> r.bounds.value == d.bucketBounds.value)
            && (d.bucketBounds.Some? && |d.buckets| == |d.bucketBounds.value| + 1 ==>
                  |r.bucketCounts| == |r.bounds.value| + 1)
            && r.exemplars == BucketExemplars(d.buckets, projectID)
  {
    if d.bucketBounds.Some? {
      ZeroBoundPolicy(d.bucketBounds.value, BucketCounts(d.buckets));
    }
  }

  /** metricPointToMpbValue */
  method MetricPointToMpbValue(pt: OC.Point, projectID: string) returns (r: Result<TypedValue>)
    ensures r == PointValue(pt.value, projectID)
  {
    match pt.value
    case Int64(i) =>
      r := Success(Int64Value(i));
    case Float64(f) =>
      r := Success(DoubleValue(f));
    case DistributionOf(dv) =>
      var mean := 0.0;
      if dv.count > 0 {
        mean := dv.sum / (dv.count as real);
      }
      var insertZeroBound := false;
      var bounds: Option<seq<real>> := None;
      if dv.bucketBounds.Some? {
        insertZeroBound := ShouldInsertZeroBound(dv.bucketBounds.value);
        bounds := Some(AddZeroBoundOnCondition(insertZeroBound, dv.bucketBounds.value));
      }
      var bucketCounts, exemplars := MetricBucketToBucketCountsAndExemplars(dv.buckets, projectID);
      assert bucketCounts == BucketCounts(dv.buckets);
      r := Success(DistributionValue(dv.count, mean, dv.sumOfSquaredDeviation, bounds,
                                     AddZeroBucketCountOnCondition(insertZeroBound, bucketCounts), exemplars));
    case OtherValue(typeName) =>
      r := Failure(Error("protoToMetricPoint: unknown Data type: " + typeName));
  }

  /** The backend point for a point, over the given start time. */
  function PointOf(startTime: Option<Timestamp>, pt: OC.Point, projectID: string): Result<Point> {
    match PointValue(pt.value, projectID)
    case Failure(e) => Failure(e)
    case Success(v) => Success(Point(TimeInterval(startTime, TimestampOf(pt.time)), v))
  }

  /** metricPointToMpbPoint */
  method MetricPointToMpbPoint(startTime: Option<Timestamp>, pt: OC.Point, projectID: string) returns (r: Result<Point>)
    ensures r == PointOf(startTime, pt, projectID)
  {
    var v := MetricPointToMpbValue(pt, projectID);
    match v
    case Failure(e) =>
      r := Failure(e);
    case Success(value) =>
      r := Success(Point(TimeInterval(startTime, TimestampOf(pt.time)), value));
  }

  /** A gauge point has no start time; any other point starts at the
      series' start time. */
  function StartTimeFor(kind: MetricKind, startTime: int): Option<Timestamp> {
    if kind == Gauge then None else Some(TimestampOf(startTime))
  }

  /** The points of a series, or the error of its first point that fails. */
  function SeriesPoints(points: seq<OC.Point>, startTime: Option<Timestamp>, projectID: string): Result<seq<Point>> {
    if points == [] then Success([])
    else
      var n := |points| - 1;
      match SeriesPoints(points[..n], startTime, projectID)
      case Failure(e) => Failure(e)
      case Success(ps) =>
        match PointOf(startTime, points[n], projectID)
        case Failure(e) => Failure(e)
        case Success(p) => Success(ps + [p])
  }

  /** A series converts exactly when each of its points does; then point i
      carries the value of input point i, ends at its time and starts at
      the given start time. */
  lemma {:induction false} SeriesPointsSound(points: seq<OC.Point>, startTime: Option<Timestamp>, projectID: string)
    ensures SeriesPoints(points, startTime, projectID).Failure?
        <==> exists i :: 0 <= i < |points| && PointValue(points[i].value, projectID).Failure?
    ensures SeriesPoints(points, startTime, projectID).Success? ==>
              var ps := SeriesPoints(points, startTime, projectID).value;
              && |ps| == |points|
              && forall i :: 0 <= i < |points| ==>
                   && ps[i].value == PointValue(points[i].value, projectID).value
                   && ps[i].interval == TimeInterval(startTime, TimestampOf(points[i].time))
  {
    if points != [] {
      var n := |points| - 1;
      SeriesPointsSound(points[..n], startTime, projectID);
      assert forall i :: 0 <= i < n ==> points[..n][i] == points[i];
    }
  }

  /** metricTsToMpbPoint: the points of a series, or the first error. */
  method MetricTsToMpbPoint(ts: OC.TimeSeries, metricKind: MetricKind, projectID: string)
    returns (r: Result<seq<Point>>)
    ensures r == SeriesPoints(ts.points, StartTimeFor(metricKind, ts.startTime), projectID)
  {
    var sptl: seq<Point> := [];
    for i := 0 to |ts.points|
      invariant SeriesPoints(ts.points[..i], StartTimeFor(metricKind, ts.startTime), projectID) == Success(sptl)
    {
      var startTime := Some(TimestampOf(ts.startTime));
      if metricKind == Gauge {
        startTime := None;
      }
      assert ts.points[..i + 1][..i] == ts.points[..i];
      var spt := MetricPointToMpbPoint(startTime, ts.points[i], projectID);
      if spt.Failure? {
        SeriesPointsFailFrom(ts.points, i + 1, StartTimeFor(metricKind, ts.startTime), projectID);
        r := Failure(spt.error);
        return;
      }
      sptl := sptl + [spt.value];
    }
    assert ts.points[..|ts.points|] == ts.points;
    r := Success(sptl);
  }

  /** Once a prefix fails, the whole sequence fails with the same error. */
  lemma {:induction false} SeriesPointsFailFrom(points: seq<OC.Point>, i: nat, startTime: Option<Timestamp>, projectID: string)
    requires i <= |points|
    requires SeriesPoints(points[..i], startTime, projectID).Failure?
    ensures SeriesPoints(points, startTime, projectID) == SeriesPoints(points[..i], startTime, projectID)
    decreases |points| - i
  {
    if i < |points| {
      assert points[..i + 1][..i] == points[..i];
      SeriesPointsFailFrom(points, i + 1, startTime, projectID);
    } else {
      assert points[..i] == points;
    }
  }

  // ---------------------------------------------------------------------
  // Series of a metric

  /** The labels of one input series, given the map filled from the
      defaults; no map counts as an empty one. */
  function SeriesLabels(defaults: map<string, DefaultLabel>, keys: seq<OC.LabelKey>, values: seq<OC.LabelValue>,
                        sanitize: string -> string, fromDefaults: map<string, string>): map<string, string>
    requires |keys| == |values|
  {
    if |defaults| + |keys| == 0 then map[] else fromDefaults + PresentLabels(keys, values, sanitize)
  }

  /** The backend series one input series becomes, or None when its points
      or its labels do not convert. */
  function SeriesOf(o: Options, naming: Naming, defaults: map<string, DefaultLabel>, metric: OC.Metric,
                    kind: MetricKind, ts: OC.TimeSeries, fromDefaults: map<string, string>): Option<TimeSeries>
  {
    var points := SeriesPoints(ts.points, StartTimeFor(kind, ts.startTime), o.projectID);
    if points.Failure? || |metric.descriptor.labelKeys| != |ts.labelValues| then None
    else
      var labels := SeriesLabels(defaults, metric.descriptor.labelKeys, ts.labelValues, naming.sanitize, fromDefaults);
      var metricType := naming.metricTypeFromProto(metric.descriptor.name);
      match o.resourceByDescriptor
      case Some(hook) =>
        var (labels', mr) := hook(metric.descriptor, labels);
        Some(TimeSeries(Series.Metric(metricType, labels'), HookResource(mr), points.value))
      case None =>
        Some(TimeSeries(Series.Metric(metricType, labels), MetricRscToMpbRsc(o, metric.resource), points.value))
  }

  /** The series the input series become, in order, the failing ones left
      out; fds[i] is the map the defaults filled for series i. */
  function ConvertedSeries(o: Options, naming: Naming, defaults: map<string, DefaultLabel>, metric: OC.Metric,
                           kind: MetricKind, tss: seq<OC.TimeSeries>, fds: seq<map<string, string>>): seq<TimeSeries>
    requires |tss| == |fds|
  {
    if tss == [] then []
    else
      var n := |tss| - 1;
      ConvertedSeries(o, naming, defaults, metric, kind, tss[..n], fds[..n])
        + Listed(SeriesOf(o, naming, defaults, metric, kind, tss[n], fds[n]))
  }

  /** The series an option holds, as a sequence of zero or one. */
  function Listed(s: Option<TimeSeries>): (r: seq<TimeSeries>)
    ensures |r| <= 1 && (r == [] <==> s.None?) && (s.Some? ==> r[0] == s.value)
  {
    if s.Some? then [s.value] else []
  }

  /** What a converted series promises: the metric's type, a resource
      whose type is never blank when the configured resource's is not, and
      no start times on gauge points. */
  lemma SeriesOfSound(o: Options, naming: Naming, defaults: map<string, DefaultLabel>, metric: OC.Metric,
                      kind: MetricKind, ts: OC.TimeSeries, fd: map<string, string>)
    requires o.resource.Some? ==> o.resource.value.resourceType != ""
    ensures var s := SeriesOf(o, naming, defaults, metric, kind, ts, fd);
            s.Some? ==>
              && s.value.metric.metricType == naming.metricTypeFromProto(metric.descriptor.name)
              && s.value.resource.resourceType != ""
              && |s.value.points| == |ts.points|
              && (kind == Gauge ==> forall p :: p in s.value.points ==> p.interval.startTime.None?)
  {
    var s := SeriesOf(o, naming, defaults, metric, kind, ts, fd);
    if s.Some? {
      SeriesPointsSound(ts.points, StartTimeFor(kind, ts.startTime), o.projectID);
      var ps := s.value.points;
      forall p | p in ps && kind == Gauge ensures p.interval.startTime.None? {
        var i :| 0 <= i < |ps| && ps[i] == p;
      }
    }
  }

  /** What a converted metric promises: at most one series per input
      series, each as SeriesOfSound describes. */
  lemma {:induction false} ConvertedSeriesSound(o: Options, naming: Naming, defaults: map<string, DefaultLabel>,
                                                metric: OC.Metric, kind: MetricKind, tss: seq<OC.TimeSeries>,
                                                fds: seq<map<string, string>>)
    requires |tss| == |fds|
    requires o.resource.Some? ==> o.resource.value.resourceType != ""
    ensures var out := ConvertedSeries(o, naming, defaults, metric, kind, tss, fds);
            && |out| <= |tss|
            && forall k :: 0 <= k < |out| ==>
                 && out[k].metric.metricType == naming.metricTypeFromProto(metric.descriptor.name)
                 && out[k].resource.resourceType != ""
                 && (kind == Gauge ==> forall p :: p in out[k].points ==> p.interval.startTime.None?)
  {
    if tss != [] {
      var n := |tss| - 1;
      ConvertedSeriesSound(o, naming, defaults, metric, kind, tss[..n], fds[..n]);
      SeriesOfSound(o, naming, defaults, metric, kind, tss[n], fds[n]);
    }
  }

  /** fd is a map the defaults fill, wherever series ts uses one. */
  ghost predicate FillsDefaults(o: Options, naming: Naming, defaults: map<string, DefaultLabel>, metric: OC.Metric,
                                kind: MetricKind, ts: OC.TimeSeries, fd: map<string, string>)
  {
    (SeriesOf(o, naming, defaults, metric, kind, ts, fd).Some? && |defaults| + |metric.descriptor.labelKeys| > 0)
    ==> FromDefaults(defaults, naming.sanitize, fd)
  }

  lemma ConvertedSeriesSnoc(o: Options, naming: Naming, defaults: map<string, DefaultLabel>, metric: OC.Metric,
                            kind: MetricKind, tss: seq<OC.TimeSeries>, fds: seq<map<string, string>>, i: nat,
                            fd: map<string, string>)
    requires i < |tss| && |fds| == i
    ensures ConvertedSeries(o, naming, defaults, metric, kind, tss[..i + 1], fds + [fd])
         == ConvertedSeries(o, naming, defaults, metric, kind, tss[..i], fds)
            + Listed(SeriesOf(o, naming, defaults, metric, kind, tss[i], fd))
  {
    assert tss[..i + 1][..i] == tss[..i];
    assert (fds + [fd])[..i] == fds;
  }

  /** One pass of metricToMpbTs's loop: the series ts becomes, or None when
      its points or its labels fail to convert. */
  method ConvertOne(o: Options, naming: Naming, defaults: map<string, DefaultLabel>, metric: OC.Metric,
                    metricKind: MetricKind, ts: OC.TimeSeries)
    returns (s: Option<TimeSeries>, ghost fd: map<string, string>)
    ensures FillsDefaults(o, naming, defaults, metric, metricKind, ts, fd)
    ensures s == SeriesOf(o, naming, defaults, metric, metricKind, ts, fd)
  {
    fd := map[];
    var sdPoints := MetricTsToMpbPoint(ts, metricKind, o.projectID);
    if sdPoints.Failure? {
      s := None;
      return;
    }
    var labels, fromDefaults := MetricLabelsToTsLabels(defaults, metric.descriptor.labelKeys, ts.labelValues,
                                                       naming.sanitize);
    if labels.Failure? {
      s := None;
      return;
    }
    fd := fromDefaults;
    var tsLabels := labels.value.GetOr(map[]);
    assert tsLabels == SeriesLabels(defaults, metric.descriptor.labelKeys, ts.labelValues, naming.sanitize, fd);
    var rsc := MetricRscToMpbRsc(o, metric.resource);
    if o.resourceByDescriptor.Some? {
      var chosen := o.resourceByDescriptor.value(metric.descriptor, tsLabels);
      tsLabels := chosen.0;
      rsc := HookResource(chosen.1);
    }
    s := Some(TimeSeries(Series.Metric(naming.metricTypeFromProto(metric.descriptor.name), tsLabels), rsc,
                         sdPoints.value));
  }

  /** What ConvertSeries's loop keeps after i series: a filled map per
      series seen, and the series they become. */
  ghost predicate ConvertedUpTo(o: Options, naming: Naming, defaults: map<string, DefaultLabel>, metric: OC.Metric,
                                kind: MetricKind, i: nat, fds: seq<map<string, string>>, out: seq<TimeSeries>)
  {
    && i <= |metric.timeSeries| && |fds| == i
    && (forall k :: 0 <= k < i ==> FillsDefaults(o, naming, defaults, metric, kind, metric.timeSeries[k], fds[k]))
    && out == ConvertedSeries(o, naming, defaults, metric, kind, metric.timeSeries[..i], fds)
  }

  lemma ConvertedUpToNext(o: Options, naming: Naming, defaults: map<string, DefaultLabel>, metric: OC.Metric,
                          kind: MetricKind, i: nat, fds: seq<map<string, string>>, out: seq<TimeSeries>,
                          s: Option<TimeSeries>, fd: map<string, string>)
    requires ConvertedUpTo(o, naming, defaults, metric, kind, i, fds, out) && i < |metric.timeSeries|
    requires FillsDefaults(o, naming, defaults, metric, kind, metric.timeSeries[i], fd)
    requires s == SeriesOf(o, naming, defaults, metric, kind, metric.timeSeries[i], fd)
    ensures ConvertedUpTo(o, naming, defaults, metric, kind, i + 1, fds + [fd], out + Listed(s))
  {
    ConvertedSeriesSnoc(o, naming, defaults, metric, kind, metric.timeSeries, fds, i, fd);
  }

  /** The loop of metricToMpbTs over a metric whose kind is specified: every
      series is converted, and one whose points or labels fail is skipped. */
  method ConvertSeries(o: Options, naming: Naming, defaults: map<string, DefaultLabel>, metric: OC.Metric,
                       metricKind: MetricKind)
    returns (timeSeries: seq<TimeSeries>, ghost fds: seq<map<string, string>>)
    ensures |fds| == |metric.timeSeries|
    ensures forall i :: 0 <= i < |fds| ==>
              FillsDefaults(o, naming, defaults, metric, metricKind, metric.timeSeries[i], fds[i])
    ensures timeSeries == ConvertedSeries(o, naming, defaults, metric, metricKind, metric.timeSeries, fds)
  {
    timeSeries, fds := [], [];
    for i := 0 to |metric.timeSeries|
      invariant ConvertedUpTo(o, naming, defaults, metric, metricKind, i, fds, timeSeries)
    {
      var s, fd := ConvertOne(o, naming, defaults, metric, metricKind, metric.timeSeries[i]);
      ConvertedUpToNext(o, naming, defaults, metric, metricKind, i, fds, timeSeries, s, fd);
      fds := fds + [fd];
      timeSeries := timeSeries + Listed(s);
    }
    assert metric.timeSeries[..|metric.timeSeries|] == metric.timeSeries;
  }

  /** metricToMpbTs: an error for a missing metric; no series for a metric
      of unspecified kind; otherwise the converted series. */
  method MetricToMpbTs(o: Options, naming: Naming, defaults: map<string, DefaultLabel>, metric: Option<OC.Metric>)
    returns (r: Result<seq<TimeSeries>>, ghost fds: seq<map<string, string>>)
    ensures metric.None? ==> r == Failure(ErrNilMetricOrMetricDescriptor)
    ensures metric.Some? ==> r.Success?
    ensures metric.Some? && MetricDescriptorTypeToMetricKind(metric).0 == MetricKindUnspecified ==> r == Success([])
    ensures metric.Some? && MetricDescriptorTypeToMetricKind(metric).0 != MetricKindUnspecified ==>
              && |fds| == |metric.value.timeSeries|
              && (forall i :: 0 <= i < |fds| ==>
                    FillsDefaults(o, naming, defaults, metric.value, MetricDescriptorTypeToMetricKind(metric).0,
                                  metric.value.timeSeries[i], fds[i]))
              && r.value == ConvertedSeries(o, naming, defaults, metric.value,
                                            MetricDescriptorTypeToMetricKind(metric).0, metric.value.timeSeries, fds)
  {
    fds := [];
    if metric.None? {
      r := Failure(ErrNilMetricOrMetricDescriptor);
      return;
    }
    var (metricKind, _) := MetricDescriptorTypeToMetricKind(metric);
    if metricKind == MetricKindUnspecified {
      r := Success([]);
      return;
    }
    var timeSeries;
    timeSeries, fds := ConvertSeries(o, naming, defaults, metric.value, metricKind);
    r := Success(timeSeries);
  }
}
