/** Helpers of the view-data exporter: bucket zero-bound policy, endpoint
    routing by metric-type prefix, naming, label maps and time intervals. */
module Stats {
  import opened Common
  import opened Series
  import opened Config
  import OC = OpenCensus

  const MaxTimeSeriesPerUpload := 200
  const DefaultDisplayNamePrefix := "OpenCensus"

  // ---------------------------------------------------------------------
  // Bucket zero bound

  /** The backend's first bucket is (-inf, first bound); the library's is
      [0, first bound). A leading 0 bound is needed exactly when the first
      bound is positive. */
  function ShouldInsertZeroBound(bounds: seq<real>): bool {
    |bounds| > 0 && bounds[0] > 0.0
  }

  function AddZeroBucketCountOnCondition(insert: bool, counts: seq<int>): (r: seq<int>)
    ensures insert ==> |r| == |counts| + 1 && r[0] == 0 && r[1..] == counts
    ensures !insert ==> r == counts
  {
    if insert then [0] + counts else counts
  }

  function AddZeroBoundOnCondition(insert: bool, bounds: seq<real>): (r: seq<real>)
    ensures insert ==> |r| == |bounds| + 1 && r[0] == 0.0 && r[1..] == bounds
    ensures !insert ==> r == bounds
  {
    if insert then [0.0] + bounds else bounds
  }

  /** Applying the policy keeps bounds and counts aligned, inserts a zero
      bound only in front of a positive first bound, and never asks for a
      second zero bound afterwards. */
  lemma ZeroBoundPolicy(bounds: seq<real>, counts: seq<int>)
    ensures var ins := ShouldInsertZeroBound(bounds);
            var b := AddZeroBoundOnCondition(ins, bounds);
            var c := AddZeroBucketCountOnCondition(ins, counts);
            && (|bounds| == |counts| ==> |b| == |c|)
            && (ins <==> |b| == |bounds| + 1)
            && !ShouldInsertZeroBound(b)
            && (b != [] ==> b[0] <= 0.0 || b == bounds)
  {
  }

  // ---------------------------------------------------------------------
  // Endpoint routing

  const KnownServiceMetricPrefixes: seq<string> := ["kubernetes.io/"]

  const KnownExternalMetricPrefixes: seq<string> :=
    ["custom.googleapis.com/", "external.googleapis.com/", "workload.googleapis.com/"]

  /** Does s start with one of the prefixes? */
  function HasAnyPrefix(s: string, prefixes: seq<string>): (r: bool)
    ensures r <==> exists i :: 0 <= i < |prefixes| && HasPrefix(s, prefixes[i])
  {
    if prefixes == [] then false
    else HasPrefix(s, prefixes[0]) || HasAnyPrefix(s, prefixes[1..])
  }

  /** Service metrics are written through the service endpoint. */
  function ServiceMetric(metricType: string): (r: bool)
    ensures r <==> HasPrefix(metricType, "kubernetes.io/")
  {
    HasAnyPrefix(metricType, KnownServiceMetricPrefixes)
  }

  /** A metric type is taken for a built-in one unless it lives under one
      of the custom, external or workload domains. */
  function BuiltinMetric(metricType: string): (r: bool)
    ensures !r <==> (HasPrefix(metricType, "custom.googleapis.com/")
                     || HasPrefix(metricType, "external.googleapis.com/")
                     || HasPrefix(metricType, "workload.googleapis.com/"))
  {
    var p := KnownExternalMetricPrefixes;
    assert HasAnyPrefix(metricType, p) == (HasPrefix(metricType, p[0]) || HasAnyPrefix(metricType, p[1..]));
    assert HasAnyPrefix(metricType, p[1..]) == (HasPrefix(metricType, p[1]) || HasAnyPrefix(metricType, p[2..]));
    assert HasAnyPrefix(metricType, p[2..]) == HasPrefix(metricType, p[2]);
    !HasAnyPrefix(metricType, p)
  }

  predicate IsServiceSeries(t: TimeSeries) {
    ServiceMetric(t.metric.metricType)
  }

  /** The series of ts that do (service == true) or do not go through the
      service endpoint, in their order. */
  function ServiceSeries(ts: seq<TimeSeries>, service: bool): (r: seq<TimeSeries>)
    ensures forall k :: 0 <= k < |r| ==> ServiceMetric(r[k].metric.metricType) == service
  {
    Select(ts, IsServiceSeries, service)
  }

  /** The two sides together are the input: each series lands on exactly
      one side, and each side keeps the input order. */
  lemma ServiceSeriesPartition(ts: seq<TimeSeries>)
    ensures multiset(ServiceSeries(ts, true)) + multiset(ServiceSeries(ts, false)) == multiset(ts)
    ensures IsSubseq(ServiceSeries(ts, true), ts) && IsSubseq(ServiceSeries(ts, false), ts)
  {
    SelectPermutes(ts, IsServiceSeries);
    SelectKeepsOrder(ts, IsServiceSeries, true);
    SelectKeepsOrder(ts, IsServiceSeries, false);
  }

  /** splitTimeSeries: walks the series once, appending each to the service
      or the non-service list. */
  method SplitTimeSeries(timeSeries: seq<TimeSeries>) returns (serviceTs: seq<TimeSeries>, nonServiceTs: seq<TimeSeries>)
    ensures serviceTs == ServiceSeries(timeSeries, true)
    ensures nonServiceTs == ServiceSeries(timeSeries, false)
  {
    serviceTs, nonServiceTs := [], [];
    for i := 0 to |timeSeries|
      invariant serviceTs == ServiceSeries(timeSeries[..i], true)
      invariant nonServiceTs == ServiceSeries(timeSeries[..i], false)
    {
      assert timeSeries[..i + 1][..i] == timeSeries[..i];
      if ServiceMetric(timeSeries[i].metric.metricType) {
        serviceTs := serviceTs + [timeSeries[i]];
      } else {
        nonServiceTs := nonServiceTs + [timeSeries[i]];
      }
    }
    assert timeSeries[..|timeSeries|] == timeSeries;
  }

  /** splitCreateTimeSeriesRequest: a request for each non-empty side, with
      the original name. */
  function SplitCreateTimeSeriesRequest(req: CreateTimeSeriesRequest)
    : (r: (Option<CreateTimeSeriesRequest>, Option<CreateTimeSeriesRequest>))
    ensures r.0.Some? <==> ServiceSeries(req.timeSeries, true) != []
    ensures r.1.Some? <==> ServiceSeries(req.timeSeries, false) != []
    ensures r.0.Some? ==> r.0.value == CreateTimeSeriesRequest(req.name, ServiceSeries(req.timeSeries, true))
    ensures r.1.Some? ==> r.1.value == CreateTimeSeriesRequest(req.name, ServiceSeries(req.timeSeries, false))
  {
    var serviceTs := ServiceSeries(req.timeSeries, true);
    var nonServiceTs := ServiceSeries(req.timeSeries, false);
    (if |serviceTs| > 0 then Some(CreateTimeSeriesRequest(req.name, serviceTs)) else None,
     if |nonServiceTs| > 0 then Some(CreateTimeSeriesRequest(req.name, nonServiceTs)) else None)
  }

  // ---------------------------------------------------------------------
  // Naming

  /** path.Join of two non-empty clean elements is the two joined by "/";
      an empty element is skipped. */
  function PathJoin(dir: string, name: string): string {
    if name == "" then dir else if dir == "" then name else dir + "/" + name
  }

  /** displayName: a name that already carries a domain is kept; any other
      name goes under "OpenCensus/". */
  function DisplayName(naming: Naming, suffix: string): (r: string)
    ensures naming.hasDomain(suffix) ==> r == suffix
    ensures !naming.hasDomain(suffix) && suffix != "" ==>
              HasPrefix(r, DefaultDisplayNamePrefix + "/") && r[|DefaultDisplayNamePrefix| + 1..] == suffix
  {
    if naming.hasDomain(suffix) then suffix else PathJoin(DefaultDisplayNamePrefix, suffix)
  }

  /** metricType of a view: the configured formatter, or the view name under
      "custom.googleapis.com/opencensus/". A default type is never taken for
      a built-in metric, so its descriptor is always created remotely. */
  function MetricType(o: Options, v: OC.View): (r: string)
    ensures o.getMetricType.None? ==> HasPrefix(r, "custom.googleapis.com/") && !BuiltinMetric(r)
    ensures o.getMetricType.None? && v.name != "" ==> r == "custom.googleapis.com/opencensus/" + v.name
  {
    match o.getMetricType
    case Some(formatter) => formatter(v)
    case None => PathJoin(PathJoin("custom.googleapis.com", "opencensus"), v.name)
  }

  /** getMonitoredResource: the configured resource, or "global". */
  function DefaultResource(o: Options): (r: MonitoredResource)
    ensures o.resource.None? ==> r == GlobalResource
    ensures o.resource.Some? ==> r == o.resource.value
  {
    o.resource.GetOr(GlobalResource)
  }

  // ---------------------------------------------------------------------
  // Label maps

  /** `labels` is what filling a map from the defaults produces: one entry
      per sanitized default key, holding the value of a default whose key
      sanitizes to it. When two defaults sanitize to the same key, which one
      wins depends on map iteration order, so the choice is left open. */
  ghost predicate FromDefaults(defaults: map<string, DefaultLabel>, sanitize: string -> string, labels: map<string, string>)
  {
    && labels.Keys == (set k | k in defaults :: sanitize(k))
    && forall key :: key in labels ==> exists k :: k in defaults && sanitize(k) == key && labels[key] == defaults[k].val
  }

  /** Tag values under sanitized tag keys; a later tag overrides an earlier one. */
  function TagLabels(tags: seq<OC.Tag>, sanitize: string -> string): (r: map<string, string>)
    ensures r.Keys == set i | 0 <= i < |tags| :: sanitize(tags[i].key)
  {
    if tags == [] then map[]
    else
      var last := tags[|tags| - 1];
      var r := TagLabels(tags[..|tags| - 1], sanitize)[sanitize(last.key) := last.value];
      assert r.Keys == set i | 0 <= i < |tags| :: sanitize(tags[i].key) by {
        forall key | key in r.Keys ensures key in set i | 0 <= i < |tags| :: sanitize(tags[i].key) {
          if key != sanitize(last.key) {
            var i :| 0 <= i < |tags| - 1 && sanitize(tags[..|tags| - 1][i].key) == key;
            assert sanitize(tags[i].key) == key;
          }
        }
        forall i | 0 <= i < |tags| ensures sanitize(tags[i].key) in r.Keys {
          if i < |tags| - 1 { assert tags[i] == tags[..|tags| - 1][i]; }
        }
      }
      r
  }

  /** A tag's value is the label value under its sanitized key unless a
      later tag sanitizes to the same key. */
  lemma {:induction false} TagLabelsLastWins(tags: seq<OC.Tag>, sanitize: string -> string, i: nat)
    requires i < |tags|
    requires forall j :: i < j < |tags| ==> sanitize(tags[j].key) != sanitize(tags[i].key)
    ensures TagLabels(tags, sanitize)[sanitize(tags[i].key)] == tags[i].value
  {
    if i < |tags| - 1 {
      TagLabelsLastWins(tags[..|tags| - 1], sanitize, i);
    }
  }

  /** Puts every default into a fresh map under its sanitized key, walking
      the defaults in map iteration order (any order). */
  method FillDefaults(defaults: map<string, DefaultLabel>, sanitize: string -> string) returns (labels: map<string, string>)
    ensures FromDefaults(defaults, sanitize, labels)
  {
    labels := map[];
    var rest := defaults.Keys;
    while rest != {}
      invariant rest <= defaults.Keys
      invariant labels.Keys == (set k | k in defaults && k !in rest :: sanitize(k))
      invariant forall key :: key in labels ==>
                  exists k :: k in defaults && sanitize(k) == key && labels[key] == defaults[k].val
      decreases rest
    {
      var k :| k in rest;
      labels := labels[sanitize(k) := defaults[k].val];
      rest := rest - {k};
    }
  }

  lemma TagLabelsSnoc(tags: seq<OC.Tag>, sanitize: string -> string, i: nat)
    requires i < |tags|
    ensures TagLabels(tags[..i + 1], sanitize) == TagLabels(tags[..i], sanitize)[sanitize(tags[i].key) := tags[i].value]
  {
    assert tags[..i + 1][..i] == tags[..i];
  }

  lemma UpdateOnTop(a: map<string, string>, b: map<string, string>, k: string, v: string)
    ensures (a + b)[k := v] == a + b[k := v]
  {
  }

  /** newLabels: the defaults first, then the tags on top. */
  method NewLabels(defaults: map<string, DefaultLabel>, tags: seq<OC.Tag>, sanitize: string -> string)
    returns (labels: map<string, string>, ghost fromDefaults: map<string, string>)
    ensures FromDefaults(defaults, sanitize, fromDefaults)
    ensures labels == fromDefaults + TagLabels(tags, sanitize)
  {
    labels := FillDefaults(defaults, sanitize);
    fromDefaults := labels;
    for i := 0 to |tags|
      invariant labels == fromDefaults + TagLabels(tags[..i], sanitize)
    {
      TagLabelsSnoc(tags, sanitize, i);
      UpdateOnTop(fromDefaults, TagLabels(tags[..i], sanitize), sanitize(tags[i].key), tags[i].value);
      labels := labels[sanitize(tags[i].key) := tags[i].value];
    }
    assert tags[..|tags|] == tags;
  }

  // ---------------------------------------------------------------------
  // Time

  const NanosPerSecond := 1_000_000_000
  const NanosPerMillisecond := 1_000_000

  /** timestampProto / the Seconds and Nanos of a time: the instant is
      recovered exactly and Nanos is within a second. */
  function TimestampOf(t: int): (r: Timestamp)
    ensures r.seconds * NanosPerSecond + r.nanos == t
    ensures 0 <= r.nanos < NanosPerSecond
  {
    Timestamp(t / NanosPerSecond, t % NanosPerSecond)
  }

  /** Go's integer division, which truncates toward zero. */
  function GoDiv(a: int, b: int): int
    requires b > 0
  {
    if a >= 0 then a / b else -((-a) / b)
  }

  /** toValidTimeIntervalpb: an interval shorter than two whole milliseconds
      (as Duration.Milliseconds truncates) is replaced by one of exactly one
      millisecond after the start. */
  function ToValidTimeInterval(start: int, end: int): (r: TimeInterval)
    ensures r.startTime == Some(TimestampOf(start))
    ensures var e := r.endTime.seconds * NanosPerSecond + r.endTime.nanos;
            && e >= start + NanosPerMillisecond
            && (end - start >= 2 * NanosPerMillisecond ==> e == end)
            && (end - start < 2 * NanosPerMillisecond ==> e == start + NanosPerMillisecond)
  {
    var e := if GoDiv(end - start, NanosPerMillisecond) <= 1 then start + NanosPerMillisecond else end;
    TimeInterval(Some(TimestampOf(start)), TimestampOf(e))
  }

  // ---------------------------------------------------------------------
  // Points

  /** int64(x) of a float64: truncation toward zero, so the integer lies
      between 0 and x and is less than one away from x. */
  function TruncateToInt(x: real): (n: int)
    ensures x >= 0.0 ==> 0.0 <= n as real <= x && x - (n as real) < 1.0
    ensures x < 0.0 ==> x <= n as real <= 0.0 && (n as real) - x < 1.0
  {
    if x >= 0.0 then x.Floor else -((-x).Floor)
  }

  /** newTypedValue: the row's aggregated value in the backend's terms. Sums
      and last values follow the measure's kind; a distribution gets explicit
      bucket bounds, with a leading 0 bound and a 0 count when the first
      bound is positive. */
  function NewTypedValue(v: OC.View, data: OC.AggregationData): (r: TypedValue)
    ensures data.CountData? ==> r == Int64Value(data.countValue)
    ensures (data.SumData? || data.LastValueData?) ==>
              (v.measure.kind == OC.Int64Measure <==> r.Int64Value?) && (r.DoubleValue? || r.Int64Value?)
    ensures data.DistributionData? ==>
              && r.DistributionValue? && r.count == data.count && r.mean == data.mean && r.bounds.Some?
              && (|v.aggregation.buckets| == |data.countPerBucket| ==> |r.bounds.value| == |r.bucketCounts|)
              && !ShouldInsertZeroBound(r.bounds.value)
              && |r.bucketCounts| >= |data.countPerBucket|
              && r.bucketCounts[|r.bucketCounts| - |data.countPerBucket|..] == data.countPerBucket
              && r.exemplars == []
  {
    match data
    case CountData(n) => Int64Value(n)
    case SumData(x) => if v.measure.kind == OC.Int64Measure then Int64Value(TruncateToInt(x)) else DoubleValue(x)
    case LastValueData(x) => if v.measure.kind == OC.Int64Measure then Int64Value(TruncateToInt(x)) else DoubleValue(x)
    case DistributionData(count, mean, ssd, counts) =>
      var insert := ShouldInsertZeroBound(v.aggregation.buckets);
      ZeroBoundPolicy(v.aggregation.buckets, counts);
      DistributionValue(count, mean, ssd, Some(AddZeroBoundOnCondition(insert, v.aggregation.buckets)),
                        AddZeroBucketCountOnCondition(insert, counts), [])
  }

  /** What newTypedValue's value is, kind by kind: a count as it is; a sum
      or last value as int64(x) of an int64 measure and as x of a float64
      measure; a distribution with its count, mean and sum of squared
      deviations, the view's bucket bounds and the row's bucket counts,
      both behind a leading 0 exactly when the first bound is positive. */
  lemma NewTypedValueSound(v: OC.View, data: OC.AggregationData)
    ensures var r := NewTypedValue(v, data);
            && (data.CountData? ==> r == Int64Value(data.countValue))
            && ((data.SumData? || data.LastValueData?) ==>
                  var x := if data.SumData? then data.sumValue else data.lastValue;
                  && (v.measure.kind == OC.Int64Measure ==> r == Int64Value(TruncateToInt(x)))
                  && (v.measure.kind == OC.Float64Measure ==> r == DoubleValue(x)))
            && (data.DistributionData? ==>
                  var b := v.aggregation.buckets;
                  && r.DistributionValue? && r.count == data.count && r.mean == data.mean
                  && r.sumOfSquaredDeviation == data.sumOfSquaredDev
                  && (ShouldInsertZeroBound(b) ==>
                        r.bounds == Some([0.0] + b) && r.bucketCounts == [0] + data.countPerBucket)
                  && (!ShouldInsertZeroBound(b) ==>
                        r.bounds == Some(b) && r.bucketCounts == data.countPerBucket)
                  && r.exemplars == [])
  {
  }

  /** newPoint: a last-value view gives a gauge point, which has no start
      time; every other view gives a cumulative point over a valid interval. */
  function NewPoint(v: OC.View, row: OC.Row, start: int, end: int): (r: Point)
    ensures v.aggregation.aggType == OC.AggTypeLastValue ==>
              r.interval.startTime.None? && r.interval.endTime == TimestampOf(end)
    ensures v.aggregation.aggType != OC.AggTypeLastValue ==> r.interval == ToValidTimeInterval(start, end)
    ensures r.value == NewTypedValue(v, row.data)
  {
    if v.aggregation.aggType == OC.AggTypeLastValue then
      Point(TimeInterval(None, TimestampOf(end)), NewTypedValue(v, row.data))
    else
      Point(ToValidTimeInterval(start, end), NewTypedValue(v, row.data))
  }

  // ---------------------------------------------------------------------
  // Project ID

  /** unicode.IsSpace */
  predicate IsSpace(c: char) {
    || c == '\t' || c == '\n' || c == '\U{000B}' || c == '\U{000C}' || c == '\r' || c == ' '
    || c == '\U{0085}' || c == '\U{00A0}' || c == '\U{1680}'
    || ('\U{2000}' <= c <= '\U{200A}')
    || c == '\U{2028}' || c == '\U{2029}' || c == '\U{202F}' || c == '\U{205F}' || c == '\U{3000}'
  }

  /** strings.TrimSpace */
  function TrimSpace(s: string): (r: string)
    ensures |r| <= |s|
  {
    if s == [] then s
    else if IsSpace(s[0]) then TrimSpace(s[1..])
    else if IsSpace(s[|s| - 1]) then TrimSpace(s[..|s| - 1])
    else s
  }

  /** A project ID trims to nothing exactly when it is made of white space
      only. */
  lemma {:induction false} BlankProjectID(s: string)
    ensures TrimSpace(s) == "" <==> forall i :: 0 <= i < |s| ==> IsSpace(s[i])
    decreases |s|
  {
    if s != [] {
      if IsSpace(s[0]) {
        BlankProjectID(s[1..]);
        assert forall i :: 0 < i < |s| ==> s[i] == s[1..][i - 1];
      } else if IsSpace(s[|s| - 1]) {
        BlankProjectID(s[..|s| - 1]);
        assert forall i :: 0 <= i < |s| - 1 ==> s[i] == s[..|s| - 1][i];
      }
    }
  }
}
