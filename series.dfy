/** The monitoring backend's time-series schema and the identity the
    exporter gives a series when it deduplicates: its signature. */
module Series {
  import opened Common
  import opened StringSort

  datatype Timestamp = Timestamp(seconds: int, nanos: int)

  /** Start is absent for gauge points. */
  datatype TimeInterval = TimeInterval(startTime: Option<Timestamp>, endTime: Timestamp)

  /** A protobuf `Any`: a type URL and the encoded payload (as text). */
  datatype Any = Any(typeUrl: string, value: string)

  datatype Exemplar = Exemplar(value: real, timestamp: Timestamp, attachments: seq<Any>)

  datatype TypedValue =
    | Int64Value(int64Value: int)
    | DoubleValue(doubleValue: real)
    | DistributionValue(
        count: int,
        mean: real,
        sumOfSquaredDeviation: real,
        bounds: Option<seq<real>>,  // explicit bucket bounds; None when no bucket options
        bucketCounts: seq<int>,
        exemplars: seq<Exemplar>)

  datatype Point = Point(interval: TimeInterval, value: TypedValue)

  /** A monitored resource; a missing label map is kept apart from an empty one. */
  datatype MonitoredResource = MonitoredResource(resourceType: string, labels: Option<map<string, string>>)

  const GlobalResource := MonitoredResource("global", None)

  datatype Metric = Metric(metricType: string, labels: map<string, string>)

  datatype TimeSeries = TimeSeries(metric: Metric, resource: MonitoredResource, points: seq<Point>)

  datatype CreateTimeSeriesRequest = CreateTimeSeriesRequest(name: string, timeSeries: seq<TimeSeries>)

  /** The request name for a project. */
  function ProjectName(projectID: string): string {
    "projects/" + projectID
  }

  // ---------------------------------------------------------------------
  // Signatures

  /** The label values of a label map, with repetitions. */
  ghost function LabelValues(labels: map<string, string>): multiset<string>
    decreases |labels|
  {
    if labels == map[] then multiset{}
    else
      var k :| k in labels;
      multiset{labels[k]} + LabelValues(labels - {k})
  }

  /** Taking any key out of the map takes exactly its value out of the values. */
  lemma {:induction false} LabelValuesRemove(labels: map<string, string>, k: string)
    requires k in labels
    ensures LabelValues(labels) == multiset{labels[k]} + LabelValues(labels - {k})
    decreases |labels|
  {
    var k' :| k' in labels && LabelValues(labels) == multiset{labels[k']} + LabelValues(labels - {k'});
    if k' != k {
      var rest := labels - {k} - {k'};
      assert labels - {k} - {k'} == labels - {k'} - {k};
      LabelValuesRemove(labels - {k}, k');
      LabelValuesRemove(labels - {k'}, k);
      assert (labels - {k})[k'] == labels[k'];
      assert (labels - {k'})[k] == labels[k];
    }
  }

  /** The signature of a metric: its type, ":", then its label values sorted
      and joined by ",". Label keys do not take part. */
  ghost function Signature(m: Metric): string {
    m.metricType + ":" + JoinSorted(LabelValues(m.labels))
  }

  /** The strings of ms in sorted order, joined by ",". */
  ghost function JoinSorted(ms: multiset<string>): string
    decreases |ms|
  {
    if ms == multiset{} then ""
    else
      var x := Least(ms);
      var rest := ms - multiset{x};
      if rest == multiset{} then x else x + "," + JoinSorted(rest)
  }

  lemma {:induction false} JoinSortedIsJoin(ms: multiset<string>)
    ensures JoinSorted(ms) == Join(SortedArrangement(ms), ",")
    decreases |ms|
  {
    if ms != multiset{} {
      var x := Least(ms);
      var rest := ms - multiset{x};
      if rest != multiset{} {
        JoinSortedIsJoin(rest);
        SortedArrangementSound(rest);
        assert SortedArrangement(rest) != [];
        assert ([x] + SortedArrangement(rest))[1..] == SortedArrangement(rest);
      }
    }
  }

  /** metricSignature: collects the label values in map iteration order (any
      order), sorts them and joins them behind the type. Whatever order the
      map is walked in, the result is the signature. */
  method MetricSignature(m: Metric) returns (sig: string)
    ensures sig == Signature(m)
  {
    var labelValues: seq<string> := [];
    var rest := m.labels;
    while rest != map[]
      invariant multiset(labelValues) + LabelValues(rest) == LabelValues(m.labels)
      decreases |rest|
    {
      var k :| k in rest;
      LabelValuesRemove(rest, k);
      labelValues := labelValues + [rest[k]];
      rest := rest - {k};
    }
    var sorted := SortStrings(labelValues);
    SortedJoin(m, sorted);
    sig := m.metricType + ":" + Join(sorted, ",");
  }

  /** Any sorted arrangement of the label values, joined behind the type,
      is the signature. */
  lemma SortedJoin(m: Metric, sorted: seq<string>)
    requires Sorted(sorted) && multiset(sorted) == LabelValues(m.labels)
    ensures m.metricType + ":" + Join(sorted, ",") == Signature(m)
  {
    SortedArrangementSound(LabelValues(m.labels));
    SortedUnique(sorted, SortedArrangement(LabelValues(m.labels)));
    JoinSortedIsJoin(LabelValues(m.labels));
  }

  /** The signature sees only the type and the values: series whose label
      maps hold the same values under different keys collide. */
  lemma SignatureIgnoresKeys(m1: Metric, m2: Metric)
    requires m1.metricType == m2.metricType
    requires LabelValues(m1.labels) == LabelValues(m2.labels)
    ensures Signature(m1) == Signature(m2)
  {
  }

  /** A metric whose type has no ":" is told apart from every other type by
      its signature. */
  lemma SignatureSeparatesTypes(m1: Metric, m2: Metric)
    requires ':' !in m1.metricType && ':' !in m2.metricType
    requires m1.metricType != m2.metricType
    ensures Signature(m1) != Signature(m2)
  {
    if Signature(m1) == Signature(m2) {
      ColonSeparated(m1.metricType, JoinSorted(LabelValues(m1.labels)),
                     m2.metricType, JoinSorted(LabelValues(m2.labels)));
    }
  }

  lemma ColonSeparated(t1: string, r1: string, t2: string, r2: string)
    requires ':' !in t1 && ':' !in t2
    requires t1 + ":" + r1 == t2 + ":" + r2
    ensures t1 == t2
  {
    var s := t1 + ":" + r1;
    FirstColonAt(t1, r1);
    FirstColonAt(t2, r2);
    assert t1 == s[..|t1|] == t2;
  }

  /** Index of the first ':' in s, or |s| when there is none. */
  function FirstColon(s: string): nat
    ensures FirstColon(s) <= |s|
  {
    if s == [] || s[0] == ':' then 0 else 1 + FirstColon(s[1..])
  }

  lemma {:induction false} FirstColonAt(t: string, r: string)
    requires ':' !in t
    ensures FirstColon(t + ":" + r) == |t|
  {
    if t != [] {
      assert (t + ":" + r)[1..] == t[1..] + ":" + r;
      FirstColonAt(t[1..], r);
    }
  }
}
