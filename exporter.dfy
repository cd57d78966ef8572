/** The stats exporter object: its sanitized default labels, the cache of
    metric descriptors already created remotely, and the upload of metrics
    (descriptors first, then conversion, then batched requests). The remote
    calls are given as functions from the request to the error they
    return, if any. */
module Exporter {
  import opened Common
  import opened Series
  import opened Config
  import opened Stats
  import opened Metrics
  import opened RequestBuilder
  import OC = OpenCensus

  const ErrBlankProjectID := Error("expecting a non-blank ProjectID")
  const OpencensusTaskKey := "opencensus_task"
  const OpencensusTaskDescription := "Opencensus task identifier"

  /** A label descriptor; every label the exporter declares is a string. */
  datatype LabelDescriptor = LabelDescriptor(key: string, description: string)

  datatype MetricDescriptor = MetricDescriptor(
    name: string,
    displayName: string,
    description: string,
    unit: string,
    metricType: string,
    metricKind: MetricKind,
    valueType: ValueType,
    labels: seq<LabelDescriptor>)

  /** The remote call createMetricDescriptor, as the error it returns. */
  type CreateDescriptorCall = MetricDescriptor -> Option<Error>

  /** The remote calls createTimeSeries and createServiceTimeSeries. */
  type CreateSeriesCall = CreateTimeSeriesRequest -> Option<Error>

  // ---------------------------------------------------------------------
  // Default labels

  /** `sanitized` holds one entry per sanitized key of `raw`, with the label
      of a raw key that sanitizes to it (which one, when several do, depends
      on map iteration order). */
  ghost predicate SanitizedDefaults(raw: map<string, DefaultLabel>, sanitize: string -> string,
                                    sanitized: map<string, DefaultLabel>)
  {
    && sanitized.Keys == (set k | k in raw :: sanitize(k))
    && forall key :: key in sanitized ==> exists k :: k in raw && sanitize(k) == key && sanitized[key] == raw[k]
  }

  /** The defaults newStatsExporter starts from: the configured ones, or a
      single task label. */
  function ConfiguredDefaults(configured: Option<map<string, DefaultLabel>>, taskValue: string)
    : (r: map<string, DefaultLabel>)
    ensures configured.Some? ==> r == configured.value
    ensures configured.None? ==> r.Keys == {OpencensusTaskKey} && r[OpencensusTaskKey].val == taskValue
  {
    match configured
    case Some(m) => m
    case None => map[OpencensusTaskKey := DefaultLabel(taskValue, OpencensusTaskDescription)]
  }

  // ---------------------------------------------------------------------
  // Label descriptors

  /** `order` lists the keys of a map once each, as a map iteration does. */
  ghost predicate Lists<K>(order: seq<K>, keys: set<K>) {
    && (forall i, j :: 0 <= i < j < |order| ==> order[i] != order[j])
    && (forall i :: 0 <= i < |order| ==> order[i] in keys)
    && (forall k :: k in keys ==> k in order)
  }

  /** The descriptors of the defaults, in the given order. */
  function DefaultDescriptors(defaults: map<string, DefaultLabel>, order: seq<string>, sanitize: string -> string)
    : (r: seq<LabelDescriptor>)
    requires forall i :: 0 <= i < |order| ==> order[i] in defaults
    ensures |r| == |order|
  {
    seq(|order|, i requires 0 <= i < |order| =>
      LabelDescriptor(sanitize(order[i]), defaults[order[i]].desc))
  }

  /** The descriptors of a view's tag keys: no description. */
  function TagKeyDescriptors(keys: seq<string>, sanitize: string -> string): (r: seq<LabelDescriptor>)
    ensures |r| == |keys|
  {
    seq(|keys|, i requires 0 <= i < |keys| => LabelDescriptor(sanitize(keys[i]), ""))
  }

  /** The descriptors of a metric's label keys, with their descriptions. */
  function LabelKeyDescriptors(keys: seq<OC.LabelKey>, sanitize: string -> string): (r: seq<LabelDescriptor>)
    ensures |r| == |keys|
  {
    seq(|keys|, i requires 0 <= i < |keys| => LabelDescriptor(sanitize(keys[i].key), keys[i].description))
  }

  function Keys(ds: seq<LabelDescriptor>): set<string> {
    set i | 0 <= i < |ds| :: ds[i].key
  }

  lemma KeysAppend(a: seq<LabelDescriptor>, b: seq<LabelDescriptor>)
    ensures Keys(a + b) == Keys(a) + Keys(b)
  {
    forall key | key in Keys(a) ensures key in Keys(a + b) {
      var i :| 0 <= i < |a| && a[i].key == key;
      assert (a + b)[i] == a[i];
    }
    forall key | key in Keys(b) ensures key in Keys(a + b) {
      var i :| 0 <= i < |b| && b[i].key == key;
      assert (a + b)[|a| + i] == b[i];
    }
    forall key | key in Keys(a + b) ensures key in Keys(a) + Keys(b) {
      var i :| 0 <= i < |a + b| && (a + b)[i].key == key;
      if i >= |a| { assert (a + b)[i] == b[i - |a|]; }
    }
  }

  /** The default descriptors carry the sanitized default keys, one each. */
  lemma DefaultKeys(defaults: map<string, DefaultLabel>, order: seq<string>, sanitize: string -> string)
    requires Lists(order, defaults.Keys)
    ensures |DefaultDescriptors(defaults, order, sanitize)| == |defaults|
    ensures Keys(DefaultDescriptors(defaults, order, sanitize)) == set k | k in defaults :: sanitize(k)
  {
    ListsCardinality(order, defaults.Keys);
    var a := DefaultDescriptors(defaults, order, sanitize);
    forall key | key in (set k | k in defaults :: sanitize(k)) ensures key in Keys(a) {
      var k :| k in defaults && sanitize(k) == key;
      var i :| 0 <= i < |order| && order[i] == k;
      assert a[i].key == key;
    }
  }

  /** Whatever the order, a view's descriptors are one per default and then
      one per tag key, covering exactly the sanitized default keys and the
      sanitized tag keys. */
  lemma DescriptorsCover(defaults: map<string, DefaultLabel>, order: seq<string>, keys: seq<string>,
                         sanitize: string -> string)
    requires Lists(order, defaults.Keys)
    ensures var ds := DefaultDescriptors(defaults, order, sanitize) + TagKeyDescriptors(keys, sanitize);
            && |ds| == |defaults| + |keys|
            && Keys(ds) == (set k | k in defaults :: sanitize(k)) + (set i | 0 <= i < |keys| :: sanitize(keys[i]))
  {
    DefaultKeys(defaults, order, sanitize);
    KeysAppend(DefaultDescriptors(defaults, order, sanitize), TagKeyDescriptors(keys, sanitize));
    var b := TagKeyDescriptors(keys, sanitize);
    forall key | key in (set i | 0 <= i < |keys| :: sanitize(keys[i])) ensures key in Keys(b) {
      var i :| 0 <= i < |keys| && sanitize(keys[i]) == key;
      assert b[i].key == key;
    }
  }

  /** Whatever the order, a metric's descriptors are one per default and
      then one per label key, covering exactly the sanitized default keys
      and the sanitized label keys, each label key with its description. */
  lemma LabelDescriptorsCover(defaults: map<string, DefaultLabel>, order: seq<string>, keys: seq<OC.LabelKey>,
                              sanitize: string -> string)
    requires Lists(order, defaults.Keys)
    ensures var ds := DefaultDescriptors(defaults, order, sanitize) + LabelKeyDescriptors(keys, sanitize);
            && |ds| == |defaults| + |keys|
            && Keys(ds) == (set k | k in defaults :: sanitize(k)) + (set i | 0 <= i < |keys| :: sanitize(keys[i].key))
            && forall i :: 0 <= i < |keys| ==> ds[|defaults| + i].description == keys[i].description
  {
    DefaultKeys(defaults, order, sanitize);
    KeysAppend(DefaultDescriptors(defaults, order, sanitize), LabelKeyDescriptors(keys, sanitize));
    var b := LabelKeyDescriptors(keys, sanitize);
    forall key | key in (set i | 0 <= i < |keys| :: sanitize(keys[i].key)) ensures key in Keys(b) {
      var i :| 0 <= i < |keys| && sanitize(keys[i].key) == key;
      assert b[i].key == key;
    }
  }

  /** A listing of a set's elements is as long as the set is large. */
  lemma {:induction false} ListsCardinality<K>(order: seq<K>, keys: set<K>)
    requires Lists(order, keys)
    ensures |order| == |keys|
    decreases |order|
  {
    if order != [] {
      var last := order[|order| - 1];
      var init := order[..|order| - 1];
      assert Lists(init, keys - {last}) by {
        forall x | x in keys - {last} ensures x in init {
          var i :| 0 <= i < |order| && order[i] == x;
          assert init[i] == x;
        }
      }
      ListsCardinality(init, keys - {last});
    }
  }

  /** The first loop of newLabelDescriptors and metricLableKeysToLabels:
      one descriptor per default, in map iteration order (any order). */
  method FillDefaultDescriptors(defaults: map<string, DefaultLabel>, sanitize: string -> string)
    returns (r: seq<LabelDescriptor>, ghost order: seq<string>)
    ensures Lists(order, defaults.Keys)
    ensures r == DefaultDescriptors(defaults, order, sanitize)
  {
    r, order := [], [];
    var rest := defaults.Keys;
    while rest != {}
      invariant rest <= defaults.Keys
      invariant Lists(order, defaults.Keys - rest)
      invariant r == DefaultDescriptors(defaults, order, sanitize)
      decreases rest
    {
      var key :| key in rest;
      r := r + [LabelDescriptor(sanitize(key), defaults[key].desc)];
      order := order + [key];
      rest := rest - {key};
    }
  }

  /** newLabelDescriptors: the defaults, then the view's tag keys. */
  method NewLabelDescriptors(defaults: map<string, DefaultLabel>, keys: seq<string>, sanitize: string -> string)
    returns (r: seq<LabelDescriptor>, ghost order: seq<string>)
    ensures Lists(order, defaults.Keys)
    ensures r == DefaultDescriptors(defaults, order, sanitize) + TagKeyDescriptors(keys, sanitize)
  {
    var fromDefaults;
    fromDefaults, order := FillDefaultDescriptors(defaults, sanitize);
    r := fromDefaults;
    for i := 0 to |keys|
      invariant r == fromDefaults + TagKeyDescriptors(keys[..i], sanitize)
    {
      r := r + [LabelDescriptor(sanitize(keys[i]), "")];
    }
    assert keys[..|keys|] == keys;
  }

  /** metricLableKeysToLabels: the defaults, then the metric's label keys. */
  method MetricLabelKeysToLabels(defaults: map<string, DefaultLabel>, labelKeys: seq<OC.LabelKey>,
                                 sanitize: string -> string)
    returns (r: seq<LabelDescriptor>, ghost order: seq<string>)
    ensures Lists(order, defaults.Keys)
    ensures r == DefaultDescriptors(defaults, order, sanitize) + LabelKeyDescriptors(labelKeys, sanitize)
  {
    var fromDefaults;
    fromDefaults, order := FillDefaultDescriptors(defaults, sanitize);
    r := fromDefaults;
    for i := 0 to |labelKeys|
      invariant r == fromDefaults + LabelKeyDescriptors(labelKeys[..i], sanitize)
    {
      r := r + [LabelDescriptor(sanitize(labelKeys[i].key), labelKeys[i].description)];
    }
    assert labelKeys[..|labelKeys|] == labelKeys;
  }

  // ---------------------------------------------------------------------
  // Descriptors

  function AggTypeName(t: OC.AggType): string {
    match t
    case AggTypeNone => "None"
    case AggTypeCount => "Count"
    case AggTypeSum => "Sum"
    case AggTypeDistribution => "Distribution"
    case AggTypeLastValue => "LastValue"
  }

  function MeasureValueType(m: OC.Measure): ValueType {
    match m.kind
    case Int64Measure => Int64Type
    case Float64Measure => DoubleType
  }

  function DescriptorName(projectID: string, metricType: string): string {
    "projects/" + projectID + "/metricDescriptors/" + metricType
  }

  /** viewToMetricDescriptor, given the label descriptors. */
  function ViewDescriptor(o: Options, naming: Naming, v: OC.View, labels: seq<LabelDescriptor>)
    : Result<MetricDescriptor>
  {
    var agg := v.aggregation.aggType;
    if agg == OC.AggTypeNone then Failure(Error("unsupported aggregation type: " + AggTypeName(agg)))
    else
      var metricType := MetricType(o, v);
      var valueType := if agg == OC.AggTypeCount then Int64Type
                       else if agg == OC.AggTypeDistribution then DistributionType
                       else MeasureValueType(v.measure);
      var unit := if agg == OC.AggTypeCount then "1" else v.measure.unit;
      var kind := if agg == OC.AggTypeLastValue then Gauge else Cumulative;
      var displayName := match o.getMetricDisplayName
                         case Some(f) => f(v)
                         case None => DisplayName(naming, v.name);
      Success(MetricDescriptor(DescriptorName(o.projectID, metricType), displayName, v.description, unit,
                               metricType, kind, valueType, labels))
  }

  /** Only a view without an aggregation fails; last values are gauges and
      the rest cumulative; counts are dimensionless int64; sums and last
      values take the measure's value type; the descriptor is named after
      the project and the view's metric type. */
  lemma ViewDescriptorSound(o: Options, naming: Naming, v: OC.View, labels: seq<LabelDescriptor>)
    ensures var r := ViewDescriptor(o, naming, v, labels);
            var agg := v.aggregation.aggType;
            && (r.Failure? <==> agg == OC.AggTypeNone)
            && (r.Success? ==>
                  && r.value.name == "projects/" + o.projectID + "/metricDescriptors/" + MetricType(o, v)
                  && r.value.metricType == MetricType(o, v)
                  && (r.value.metricKind == Gauge <==> agg == OC.AggTypeLastValue)
                  && (r.value.metricKind == Cumulative <==> agg != OC.AggTypeLastValue)
                  && (agg == OC.AggTypeCount ==> r.value.unit == "1" && r.value.valueType == Int64Type)
                  && (agg != OC.AggTypeCount ==> r.value.unit == v.measure.unit)
                  && (agg == OC.AggTypeDistribution <==> r.value.valueType == DistributionType)
                  && (agg == OC.AggTypeSum || agg == OC.AggTypeLastValue ==>
                        (r.value.valueType == Int64Type <==> v.measure.kind == OC.Int64Measure))
                  && r.value.labels == labels)
  {
  }

  /** metricToMpbMetricDescriptor, given the label descriptors. */
  function MetricDescriptorOf(o: Options, naming: Naming, metric: Option<OC.Metric>, labels: seq<LabelDescriptor>)
    : (r: Result<MetricDescriptor>)
    ensures metric.None? <==> r.Failure?
    ensures metric.None? ==> r.error == ErrNilMetricOrMetricDescriptor
    ensures metric.Some? ==>
              var d := metric.value.descriptor;
              var metricType := naming.metricTypeFromProto(d.name);
              && r.value.name == DescriptorName(o.projectID, metricType)
              && r.value.metricType == metricType
              && r.value.displayName == DisplayName(naming, d.name)
              && (r.value.metricKind, r.value.valueType) == MetricDescriptorTypeToMetricKind(metric)
              && r.value.description == d.description && r.value.unit == d.unit
              && r.value.labels == labels
  {
    match metric
    case None => Failure(ErrNilMetricOrMetricDescriptor)
    case Some(m) =>
      var metricType := naming.metricTypeFromProto(m.descriptor.name);
      var (kind, valueType) := MetricDescriptorTypeToMetricKind(metric);
      Success(MetricDescriptor(DescriptorName(o.projectID, metricType), DisplayName(naming, m.descriptor.name),
                               m.descriptor.description, m.descriptor.unit, metricType, kind, valueType, labels))
  }

  // ---------------------------------------------------------------------
  // The requests uploadMetrics sends

  /** A create request and the endpoint it goes to. */
  datatype Outgoing = Outgoing(service: bool, request: CreateTimeSeriesRequest)

  function Tagged(service: bool, reqs: seq<CreateTimeSeriesRequest>): (r: seq<Outgoing>)
    ensures |r| == |reqs| && forall k :: 0 <= k < |r| ==> r[k] == Outgoing(service, reqs[k])
  {
    seq(|reqs|, k requires 0 <= k < |reqs| => Outgoing(service, reqs[k]))
  }

  /** The requests for one batch: the custom series combined, then the
      service series combined. */
  ghost function BatchOutgoing(projectID: string, batch: seq<TimeSeries>): seq<Outgoing> {
    Tagged(false, Requests(projectID, Combine(ServiceSeries(batch, false), Sig)))
      + Tagged(true, Requests(projectID, Combine(ServiceSeries(batch, true), Sig)))
  }

  /** The requests for the batches in turn. */
  ghost function UploadOutgoing(projectID: string, batches: seq<seq<TimeSeries>>): seq<Outgoing> {
    if batches == [] then [] else BatchOutgoing(projectID, batches[0]) + UploadOutgoing(projectID, batches[1..])
  }

  /** The remote call each request goes to. */
  function Respond(createTS: CreateSeriesCall, createServiceTS: CreateSeriesCall): Outgoing -> Option<Error> {
    (out: Outgoing) => if out.service then createServiceTS(out.request) else createTS(out.request)
  }

  /** The errors the remote calls return for the requests, in order. */
  function SendErrors(outs: seq<Outgoing>, createTS: CreateSeriesCall, createServiceTS: CreateSeriesCall)
    : seq<Error>
  {
    Failures(outs, Respond(createTS, createServiceTS))
  }

  /** All series of a request of one batch are on the endpoint it goes to,
      carry pairwise different signatures and come from that batch. */
  ghost predicate GoodRequest(o: Outgoing, limit: nat) {
    var ts := o.request.timeSeries;
    && 0 < |ts| <= limit
    && (forall i :: 0 <= i < |ts| ==> ServiceMetric(ts[i].metric.metricType) == o.service)
    && (forall i, j :: 0 <= i < j < |ts| ==> Sig(ts[i]) != Sig(ts[j]))
  }

  lemma GoodAppend(a: seq<Outgoing>, b: seq<Outgoing>, limit: nat)
    requires forall k :: 0 <= k < |a| ==> GoodRequest(a[k], limit)
    requires forall k :: 0 <= k < |b| ==> GoodRequest(b[k], limit)
    ensures forall k :: 0 <= k < |a + b| ==> GoodRequest((a + b)[k], limit)
  {
    forall k | 0 <= k < |a + b| ensures GoodRequest((a + b)[k], limit) {
      if k >= |a| { assert (a + b)[k] == b[k - |a|]; }
    }
  }

  /** The series each request carries. */
  function Payloads(outs: seq<Outgoing>): (r: seq<seq<TimeSeries>>)
    ensures |r| == |outs| && forall k :: 0 <= k < |outs| ==> r[k] == outs[k].request.timeSeries
  {
    seq(|outs|, k requires 0 <= k < |outs| => outs[k].request.timeSeries)
  }

  /** The series the requests carry, in order. */
  function SentSeries(outs: seq<Outgoing>): seq<TimeSeries> {
    Flatten(Payloads(outs))
  }

  lemma SentSeriesAppend(a: seq<Outgoing>, b: seq<Outgoing>)
    ensures SentSeries(a + b) == SentSeries(a) + SentSeries(b)
  {
    assert Payloads(a + b) == Payloads(a) + Payloads(b);
    FlattenAppend(Payloads(a), Payloads(b));
  }

  lemma SentSeriesTagged(service: bool, projectID: string, groups: seq<seq<TimeSeries>>)
    ensures SentSeries(Tagged(service, Requests(projectID, groups))) == Flatten(groups)
  {
    RequestsCarryGroups(projectID, groups);
    assert Payloads(Tagged(service, Requests(projectID, groups))) == groups;
  }

  lemma GoodTagged(service: bool, projectID: string, ts: seq<TimeSeries>, limit: nat)
    requires |ts| <= limit
    requires forall i :: 0 <= i < |ts| ==> ServiceMetric(ts[i].metric.metricType) == service
    ensures forall k :: 0 <= k < |Tagged(service, Requests(projectID, Combine(ts, Sig)))| ==>
              GoodRequest(Tagged(service, Requests(projectID, Combine(ts, Sig)))[k], limit)
  {
    var groups := Combine(ts, Sig);
    RequestsCarryGroups(projectID, groups);
    CombineBounded(ts, Sig);
    CombineUnique(ts, Sig);
    CombineKeepsOrder(ts, Sig);
    forall k | 0 <= k < |groups|
      ensures forall i :: 0 <= i < |groups[k]| ==> ServiceMetric(groups[k][i].metric.metricType) == service
    {
      var f :| Embeds(f, groups[k], ts);
      forall i | 0 <= i < |groups[k]| ensures ServiceMetric(groups[k][i].metric.metricType) == service {
        assert groups[k][i] == ts[f[i]];
      }
    }
  }

  /** The requests of one batch are good. */
  lemma BatchGood(projectID: string, batch: seq<TimeSeries>, limit: nat)
    requires |batch| <= limit
    ensures forall k :: 0 <= k < |BatchOutgoing(projectID, batch)| ==> GoodRequest(BatchOutgoing(projectID, batch)[k], limit)
  {
    var custom, service := ServiceSeries(batch, false), ServiceSeries(batch, true);
    ServiceSeriesPartition(batch);
    IsSubseqLength(custom, batch);
    IsSubseqLength(service, batch);
    var a := Tagged(false, Requests(projectID, Combine(custom, Sig)));
    var b := Tagged(true, Requests(projectID, Combine(service, Sig)));
    GoodTagged(false, projectID, custom, limit);
    GoodTagged(true, projectID, service, limit);
    GoodAppend(a, b, limit);
  }

  /** The requests of one batch carry the batch's series, each once. */
  lemma BatchPermutes(projectID: string, batch: seq<TimeSeries>)
    ensures multiset(SentSeries(BatchOutgoing(projectID, batch))) == multiset(batch)
  {
    var custom, service := ServiceSeries(batch, false), ServiceSeries(batch, true);
    ServiceSeriesPartition(batch);
    SentSeriesAppend(Tagged(false, Requests(projectID, Combine(custom, Sig))),
                     Tagged(true, Requests(projectID, Combine(service, Sig))));
    SentSeriesTagged(false, projectID, Combine(custom, Sig));
    SentSeriesTagged(true, projectID, Combine(service, Sig));
    CombinePermutes(custom, Sig);
    CombinePermutes(service, Sig);
  }

  /** What uploadMetrics sends for a list of series: requests of at most 200
      series each, every one on the endpoint its series belong to and free
      of signature clashes, and every series sent exactly once. */
  lemma {:induction false} UploadSound(projectID: string, all: seq<TimeSeries>)
    ensures var outs := UploadOutgoing(projectID, Chunks(all, MaxTimeSeriesPerUpload));
            && (forall k :: 0 <= k < |outs| ==> GoodRequest(outs[k], MaxTimeSeriesPerUpload))
            && multiset(SentSeries(outs)) == multiset(all)
    decreases |all|
  {
    var chunks := Chunks(all, MaxTimeSeriesPerUpload);
    if all != [] {
      var batch := chunks[0];
      var rest := if |all| >= MaxTimeSeriesPerUpload then all[MaxTimeSeriesPerUpload..] else [];
      assert chunks[1..] == Chunks(rest, MaxTimeSeriesPerUpload);
      assert all == batch + rest;
      UploadSound(projectID, rest);
      BatchGood(projectID, batch, MaxTimeSeriesPerUpload);
      BatchPermutes(projectID, batch);
      var a, b := BatchOutgoing(projectID, batch), UploadOutgoing(projectID, chunks[1..]);
      assert UploadOutgoing(projectID, chunks) == a + b;
      GoodAppend(a, b, MaxTimeSeriesPerUpload);
      SentSeriesAppend(a, b);
    }
  }

  /** The errors of sending the series in batches of 200. */
  ghost function UploadErrors(projectID: string, all: seq<TimeSeries>, createTS: CreateSeriesCall,
                              createServiceTS: CreateSeriesCall): seq<Error>
  {
    SendErrors(UploadOutgoing(projectID, Chunks(all, MaxTimeSeriesPerUpload)), createTS, createServiceTS)
  }

  /** The upload loop's invariant survives one batch: the errors so far,
      the batch's errors and those still to come are all the errors. */
  lemma UploadAccumulates(projectID: string, all: seq<TimeSeries>, start: nat, end: nat,
                          errs: seq<Error>, errsBatch: seq<Error>,
                          createTS: CreateSeriesCall, createServiceTS: CreateSeriesCall)
    requires start < end <= |all|
    requires end == start + MaxTimeSeriesPerUpload || (end == |all| && |all| - start < MaxTimeSeriesPerUpload)
    requires errs + UploadErrors(projectID, all[start..], createTS, createServiceTS)
             == UploadErrors(projectID, all, createTS, createServiceTS)
    requires errsBatch == SendErrors(BatchOutgoing(projectID, all[start..end]), createTS, createServiceTS)
    ensures (errs + errsBatch) + UploadErrors(projectID, all[end..], createTS, createServiceTS)
            == UploadErrors(projectID, all, createTS, createServiceTS)
  {
    UploadStep(projectID, all, start, end, createTS, createServiceTS);
    assert errs + (errsBatch + UploadErrors(projectID, all[end..], createTS, createServiceTS))
           == (errs + errsBatch) + UploadErrors(projectID, all[end..], createTS, createServiceTS);
  }

  /** The requests for the series from `start` on are those of the batch
      up to `end`, then those for the series from `end` on. */
  lemma UploadStep(projectID: string, all: seq<TimeSeries>, start: nat, end: nat,
                   createTS: CreateSeriesCall, createServiceTS: CreateSeriesCall)
    requires start < end <= |all|
    requires end == start + MaxTimeSeriesPerUpload || (end == |all| && |all| - start < MaxTimeSeriesPerUpload)
    ensures UploadErrors(projectID, all[start..], createTS, createServiceTS)
         == SendErrors(BatchOutgoing(projectID, all[start..end]), createTS, createServiceTS)
            + UploadErrors(projectID, all[end..], createTS, createServiceTS)
  {
    var batch := all[start..end];
    var rest := Chunks(all[end..], MaxTimeSeriesPerUpload);
    assert Chunks(all[start..], MaxTimeSeriesPerUpload) == [batch] + rest by {
      if end == start + MaxTimeSeriesPerUpload {
        ChunksFull(all, start, MaxTimeSeriesPerUpload);
      } else {
        ChunksRemainder(all, start, MaxTimeSeriesPerUpload);
        assert all[start..] == batch;
        assert all[end..] == [];
        assert rest == [];
      }
    }
    assert ([batch] + rest)[1..] == rest;
    FailuresAppend(BatchOutgoing(projectID, batch), UploadOutgoing(projectID, rest), Respond(createTS, createServiceTS));
  }

  /** Converting one metric gives an error for a missing metric, no series
      for one of unspecified kind, and otherwise its converted series,
      `fds` being the maps filled from the defaults. */
  ghost predicate ConvertsWith(o: Options, naming: Naming, defaults: map<string, DefaultLabel>,
                               metric: Option<OC.Metric>, r: Result<seq<TimeSeries>>, fds: seq<map<string, string>>)
  {
    match metric
    case None => r == Failure(ErrNilMetricOrMetricDescriptor)
    case Some(m) =>
      var kind := MetricDescriptorTypeToMetricKind(metric).0;
      if kind == MetricKindUnspecified then r == Success([])
      else && |fds| == |m.timeSeries|
           && (forall i :: 0 <= i < |fds| ==> FillsDefaults(o, naming, defaults, m, kind, m.timeSeries[i], fds[i]))
           && r == Success(ConvertedSeries(o, naming, defaults, m, kind, m.timeSeries, fds))
  }

  /** What converting one metric gives, for some maps filled from the
      defaults. */
  ghost predicate MetricConverts(o: Options, naming: Naming, defaults: map<string, DefaultLabel>,
                                 metric: Option<OC.Metric>, r: Result<seq<TimeSeries>>)
  {
    exists fds :: ConvertsWith(o, naming, defaults, metric, r, fds)
  }

  /** metricToMpbTs, as uploadMetrics sees it. */
  method ConvertMetric(o: Options, naming: Naming, defaults: map<string, DefaultLabel>, metric: Option<OC.Metric>)
    returns (r: Result<seq<TimeSeries>>)
    ensures MetricConverts(o, naming, defaults, metric, r)
  {
    ghost var fds;
    r, fds := MetricToMpbTs(o, naming, defaults, metric);
    assert ConvertsWith(o, naming, defaults, metric, r, fds);
  }

  /** The series of a conversion, if it succeeded. */
  function SeriesOfResult(r: Result<seq<TimeSeries>>): seq<TimeSeries> {
    if r.Success? then r.value else []
  }

  /** The error of a conversion, if it failed. */
  function ErrorsOfResult(r: Result<seq<TimeSeries>>): seq<Error> {
    if r.Failure? then [r.error] else []
  }

  /** The series of the conversions that succeeded, in order. */
  function Converted(rs: seq<Result<seq<TimeSeries>>>): seq<TimeSeries> {
    if rs == [] then [] else Converted(rs[..|rs| - 1]) + SeriesOfResult(rs[|rs| - 1])
  }

  /** The errors of the conversions that failed, in order. */
  function ConversionErrors(rs: seq<Result<seq<TimeSeries>>>): (r: seq<Error>)
    ensures |r| <= |rs|
  {
    if rs == [] then [] else ConversionErrors(rs[..|rs| - 1]) + ErrorsOfResult(rs[|rs| - 1])
  }

  /** The state of uploadMetrics' conversion loop after i metrics. */
  ghost predicate ConvertedMetricsUpTo(o: Options, naming: Naming, defaults: map<string, DefaultLabel>,
                                       metrics: seq<Option<OC.Metric>>, i: nat, results: seq<Result<seq<TimeSeries>>>,
                                       all: seq<TimeSeries>, errs: seq<Error>)
  {
    && i <= |metrics| && |results| == i
    && (forall k :: 0 <= k < i ==> MetricConverts(o, naming, defaults, metrics[k], results[k]))
    && all == Converted(results) && errs == ConversionErrors(results)
  }

  lemma ConvertedMetricsNext(o: Options, naming: Naming, defaults: map<string, DefaultLabel>,
                             metrics: seq<Option<OC.Metric>>, i: nat, results: seq<Result<seq<TimeSeries>>>,
                             all: seq<TimeSeries>, errs: seq<Error>, r: Result<seq<TimeSeries>>)
    requires ConvertedMetricsUpTo(o, naming, defaults, metrics, i, results, all, errs)
    requires i < |metrics| && MetricConverts(o, naming, defaults, metrics[i], r)
    ensures ConvertedMetricsUpTo(o, naming, defaults, metrics, i + 1, results + [r],
                                 all + SeriesOfResult(r), errs + ErrorsOfResult(r))
  {
    assert (results + [r])[..i] == results;
  }

  /** The second loop of uploadMetrics: every metric converted, the
      series of those that convert gathered in order and the errors of
      the others collected. */
  method ConvertMetrics(o: Options, naming: Naming, defaultLabels: map<string, DefaultLabel>,
                        metrics: seq<Option<OC.Metric>>)
    returns (all: seq<TimeSeries>, errs: seq<Error>, ghost results: seq<Result<seq<TimeSeries>>>)
    ensures |results| == |metrics|
    ensures forall i :: 0 <= i < |metrics| ==> MetricConverts(o, naming, defaultLabels, metrics[i], results[i])
    ensures all == Converted(results) && errs == ConversionErrors(results)
  {
    all, errs, results := [], [], [];
    for i := 0 to |metrics|
      invariant ConvertedMetricsUpTo(o, naming, defaultLabels, metrics, i, results, all, errs)
    {
      var r := ConvertMetric(o, naming, defaultLabels, metrics[i]);
      ConvertedMetricsNext(o, naming, defaultLabels, metrics, i, results, all, errs, r);
      results := results + [r];
      match r
      case Failure(e) =>
        errs := errs + [e];
      case Success(tsl) =>
        all := all + tsl;
    }
  }

  /** Sends requests one by one to one endpoint, collecting the errors. */
  method SendAll(reqs: seq<CreateTimeSeriesRequest>, service: bool, createTS: CreateSeriesCall,
                 createServiceTS: CreateSeriesCall)
    returns (errs: seq<Error>)
    ensures errs == SendErrors(Tagged(service, reqs), createTS, createServiceTS)
  {
    errs := [];
    ghost var outs := Tagged(service, reqs);
    for i := 0 to |reqs|
      invariant errs == SendErrors(outs[..i], createTS, createServiceTS)
    {
      assert outs[..i + 1][..i] == outs[..i];
      var err := if service then createServiceTS(reqs[i]) else createTS(reqs[i]);
      if err.Some? {
        errs := errs + [err.value];
      }
    }
    assert outs[..|reqs|] == outs;
  }

  /** The third loop of uploadMetrics: batches of at most 200 series, each
      split between the endpoints, each side combined into requests. */
  method SendBatches(projectID: string, all: seq<TimeSeries>, createTS: CreateSeriesCall, createServiceTS: CreateSeriesCall)
    returns (errs: seq<Error>)
    ensures errs == UploadErrors(projectID, all, createTS, createServiceTS)
  {
    errs := [];
    var start, end := 0, 0;
    assert all[0..] == all;
    while start < |all|
      invariant 0 <= start <= |all|
      invariant errs + UploadErrors(projectID, all[start..], createTS, createServiceTS)
             == UploadErrors(projectID, all, createTS, createServiceTS)
      decreases |all| - start
    {
      end := start + MaxTimeSeriesPerUpload;
      if end > |all| {
        end := |all|;
      }
      var batch := all[start..end];
      var errsBatch := SendBatch(projectID, batch, createTS, createServiceTS);
      UploadAccumulates(projectID, all, start, end, errs, errsBatch, createTS, createServiceTS);
      errs := errs + errsBatch;
      start := end;
    }
    assert all[start..] == [];
  }

  /** One batch of uploadMetrics: the custom side's requests, then the
      service side's. */
  method SendBatch(projectID: string, batch: seq<TimeSeries>, createTS: CreateSeriesCall, createServiceTS: CreateSeriesCall)
    returns (errs: seq<Error>)
    ensures errs == SendErrors(BatchOutgoing(projectID, batch), createTS, createServiceTS)
  {
    var serviceTsBatch, nonServiceTsBatch := SplitTimeSeries(batch);
    var custom, service: seq<Error> := [], [];
    if |nonServiceTsBatch| > 0 {
      var reqs := CombineTimeSeriesToCreateTimeSeriesRequest(projectID, nonServiceTsBatch, Sig);
      custom := SendAll(reqs, false, createTS, createServiceTS);
    }
    if |serviceTsBatch| > 0 {
      var reqs := CombineTimeSeriesToCreateTimeSeriesRequest(projectID, serviceTsBatch, Sig);
      service := SendAll(reqs, true, createTS, createServiceTS);
    }
    FailuresAppend(Tagged(false, Requests(projectID, Combine(nonServiceTsBatch, Sig))),
                     Tagged(true, Requests(projectID, Combine(serviceTsBatch, Sig))), Respond(createTS, createServiceTS));
    errs := custom + service;
  }

  // ---------------------------------------------------------------------
  // The descriptor loop of uploadMetrics

  /** Every key of a visit order is a default label. */
  predicate InDefaults(order: seq<string>, defaults: map<string, DefaultLabel>) {
    forall i :: 0 <= i < |order| ==> order[i] in defaults
  }

  /** The error is one the remote create can answer with. */
  ghost predicate CreateAnswer(createMD: CreateDescriptorCall, e: Error) {
    exists md :: createMD(md) == Some(e)
  }

  /** One metric's descriptor step: the error it reports and the cache
      after it. */
  datatype DescriptorOutcome = DescriptorOutcome(err: Option<Error>, cache: set<string>)

  /** The errors of the descriptor loop so far, in order, and the cache. */
  datatype DescriptorRun = DescriptorRun(errs: seq<Error>, cache: set<string>)

  /** createMetricDescriptorFromMetric on a cache of names: nothing when
      creation is off or the name is cached, the name cached for a built-in
      type, and otherwise the remote create's answer, whose success alone
      caches the name. `order` is the visit order of the default labels. */
  function DescriptorStep(o: Options, naming: Naming, defaults: map<string, DefaultLabel>, cache: set<string>,
                          metric: Option<OC.Metric>, order: seq<string>, createMD: CreateDescriptorCall)
    : (r: DescriptorOutcome)
    requires o.skipCMD || metric.Some?
    requires InDefaults(order, defaults)
    ensures o.skipCMD ==> r == DescriptorOutcome(None, cache)
    ensures r.err.Some? ==> r.cache == cache && CreateAnswer(createMD, r.err.value)
    ensures r.err.None? && !o.skipCMD ==> r.cache == cache + {metric.value.descriptor.name}
  {
    if o.skipCMD then DescriptorOutcome(None, cache)
    else
      var name := metric.value.descriptor.name;
      if name in cache then DescriptorOutcome(None, cache)
      else if BuiltinMetric(naming.metricTypeFromProto(name)) then DescriptorOutcome(None, cache + {name})
      else
        var md := MetricDescriptorOf(o, naming, metric, DefaultDescriptors(defaults, order, naming.sanitize)
                                                        + LabelKeyDescriptors(metric.value.descriptor.labelKeys,
                                                                              naming.sanitize)).value;
        var e := createMD(md);
        if e.Some? then DescriptorOutcome(e, cache) else DescriptorOutcome(None, cache + {name})
  }

  /** The descriptor loop over a prefix of the metrics, one visit order per
      metric: each step's error, when there is one, is appended. */
  function DescriptorRunOf(o: Options, naming: Naming, defaults: map<string, DefaultLabel>, cache: set<string>,
                           metrics: seq<Option<OC.Metric>>, orders: seq<seq<string>>, createMD: CreateDescriptorCall)
    : (r: DescriptorRun)
    requires |orders| == |metrics| && forall k :: 0 <= k < |orders| ==> InDefaults(orders[k], defaults)
    requires o.skipCMD || forall i :: 0 <= i < |metrics| ==> metrics[i].Some?
    decreases |metrics|
  {
    if metrics == [] then DescriptorRun([], cache)
    else
      var n := |metrics| - 1;
      var prev := DescriptorRunOf(o, naming, defaults, cache, metrics[..n], orders[..n], createMD);
      var step := DescriptorStep(o, naming, defaults, prev.cache, metrics[n], orders[n], createMD);
      DescriptorRun(prev.errs + (if step.err.Some? then [step.err.value] else []), step.cache)
  }

  /** The loop's last step, as the method takes it. */
  lemma DescriptorRunSnoc(o: Options, naming: Naming, defaults: map<string, DefaultLabel>, cache: set<string>,
                          metrics: seq<Option<OC.Metric>>, orders: seq<seq<string>>, order: seq<string>,
                          createMD: CreateDescriptorCall, i: nat)
    requires i < |metrics| && |orders| == i && InDefaults(order, defaults)
    requires forall k :: 0 <= k < |orders| ==> InDefaults(orders[k], defaults)
    requires o.skipCMD || forall k :: 0 <= k < |metrics| ==> metrics[k].Some?
    ensures var prev := DescriptorRunOf(o, naming, defaults, cache, metrics[..i], orders, createMD);
            var step := DescriptorStep(o, naming, defaults, prev.cache, metrics[i], order, createMD);
            DescriptorRunOf(o, naming, defaults, cache, metrics[..i + 1], orders + [order], createMD)
              == DescriptorRun(prev.errs + (if step.err.Some? then [step.err.value] else []), step.cache)
  {
    assert metrics[..i + 1][..i] == metrics[..i];
    assert (orders + [order])[..i] == orders;
    assert (orders + [order])[i] == order;
  }

  /** Every error of the descriptor loop is the answer of a remote create,
      there is at most one per metric, and the cache only grows. */
  lemma {:induction false} DescriptorErrorsAreCalls(o: Options, naming: Naming, defaults: map<string, DefaultLabel>,
                                                    cache: set<string>, metrics: seq<Option<OC.Metric>>,
                                                    orders: seq<seq<string>>, createMD: CreateDescriptorCall)
    requires |orders| == |metrics| && forall k :: 0 <= k < |orders| ==> InDefaults(orders[k], defaults)
    requires o.skipCMD || forall i :: 0 <= i < |metrics| ==> metrics[i].Some?
    ensures var r := DescriptorRunOf(o, naming, defaults, cache, metrics, orders, createMD);
            && |r.errs| <= |metrics| && cache <= r.cache
            && forall k :: 0 <= k < |r.errs| ==> CreateAnswer(createMD, r.errs[k])
    decreases |metrics|
  {
    if metrics != [] {
      var n := |metrics| - 1;
      DescriptorErrorsAreCalls(o, naming, defaults, cache, metrics[..n], orders[..n], createMD);
      var prev := DescriptorRunOf(o, naming, defaults, cache, metrics[..n], orders[..n], createMD);
      var step := DescriptorStep(o, naming, defaults, prev.cache, metrics[n], orders[n], createMD);
      var r := DescriptorRunOf(o, naming, defaults, cache, metrics, orders, createMD);
      assert r.errs == prev.errs + (if step.err.Some? then [step.err.value] else []);
      forall k | 0 <= k < |r.errs|
        ensures CreateAnswer(createMD, r.errs[k])
      {
        if k < |prev.errs| {
          assert r.errs[k] == prev.errs[k];
        } else {
          assert r.errs[k] == step.err.value;
        }
      }
    }
  }

  /** With creation switched off the loop does nothing; otherwise, when it
      reports no error, every metric's name ends up cached. */
  lemma {:induction false} DescriptorRunCovers(o: Options, naming: Naming, defaults: map<string, DefaultLabel>,
                                               cache: set<string>, metrics: seq<Option<OC.Metric>>,
                                               orders: seq<seq<string>>, createMD: CreateDescriptorCall)
    requires |orders| == |metrics| && forall k :: 0 <= k < |orders| ==> InDefaults(orders[k], defaults)
    requires o.skipCMD || forall i :: 0 <= i < |metrics| ==> metrics[i].Some?
    ensures var r := DescriptorRunOf(o, naming, defaults, cache, metrics, orders, createMD);
            && (o.skipCMD ==> r == DescriptorRun([], cache))
            && (!o.skipCMD && r.errs == [] ==>
                  forall i :: 0 <= i < |metrics| ==> metrics[i].value.descriptor.name in r.cache)
    decreases |metrics|
  {
    if metrics != [] {
      var n := |metrics| - 1;
      DescriptorRunCovers(o, naming, defaults, cache, metrics[..n], orders[..n], createMD);
      var prev := DescriptorRunOf(o, naming, defaults, cache, metrics[..n], orders[..n], createMD);
      var step := DescriptorStep(o, naming, defaults, prev.cache, metrics[n], orders[n], createMD);
      var r := DescriptorRunOf(o, naming, defaults, cache, metrics, orders, createMD);
      assert r.errs == prev.errs + (if step.err.Some? then [step.err.value] else []);
      if !o.skipCMD && r.errs == [] {
        assert prev.cache <= step.cache;
        forall i | 0 <= i < |metrics|
          ensures metrics[i].value.descriptor.name in r.cache
        {
          if i < n {
            assert metrics[..n][i] == metrics[i];
          }
        }
      }
    }
  }

  /** When every remote create succeeds, the descriptor loop reports no
      error, and (creation being on) every metric's name ends up cached. */
  lemma {:induction false} DescriptorRunSucceeds(o: Options, naming: Naming, defaults: map<string, DefaultLabel>,
                                                 cache: set<string>, metrics: seq<Option<OC.Metric>>,
                                                 orders: seq<seq<string>>, createMD: CreateDescriptorCall)
    requires |orders| == |metrics| && forall k :: 0 <= k < |orders| ==> InDefaults(orders[k], defaults)
    requires o.skipCMD || forall i :: 0 <= i < |metrics| ==> metrics[i].Some?
    requires forall md :: createMD(md).None?
    ensures var r := DescriptorRunOf(o, naming, defaults, cache, metrics, orders, createMD);
            && r.errs == []
            && (!o.skipCMD ==> forall i :: 0 <= i < |metrics| ==> metrics[i].value.descriptor.name in r.cache)
    decreases |metrics|
  {
    if metrics != [] {
      var n := |metrics| - 1;
      DescriptorRunSucceeds(o, naming, defaults, cache, metrics[..n], orders[..n], createMD);
      var prev := DescriptorRunOf(o, naming, defaults, cache, metrics[..n], orders[..n], createMD);
      var step := DescriptorStep(o, naming, defaults, prev.cache, metrics[n], orders[n], createMD);
      assert step.err.None?;
      assert prev.cache <= step.cache;
      if !o.skipCMD {
        forall i | 0 <= i < |metrics|
          ensures metrics[i].value.descriptor.name in step.cache
        {
          if i < n {
            assert metrics[..n][i] == metrics[i];
          }
        }
      }
    }
  }

  // ---------------------------------------------------------------------
  // The exporter

  class StatsExporter {
    const o: Options
    const naming: Naming
    const defaultLabels: map<string, DefaultLabel>

    /** Names whose descriptor exists remotely, as far as the exporter knows. */
    var metricDescriptors: set<string>

    /** The cache names of the descriptors this exporter created remotely,
        in the order it did so. */
    ghost var created: seq<string>

    /** Each descriptor is created remotely at most once, and is cached once
        created. */
    ghost predicate Valid()
      reads this
    {
      && (forall i, j :: 0 <= i < j < |created| ==> created[i] != created[j])
      && (forall i :: 0 <= i < |created| ==> created[i] in metricDescriptors)
    }

    /** The state newStatsExporter builds once the project ID is accepted:
        the defaults re-keyed by their sanitized keys and an empty cache. */
    constructor (o: Options, naming: Naming, raw: map<string, DefaultLabel>)
      ensures this.o == o && this.naming == naming
      ensures SanitizedDefaults(raw, naming.sanitize, defaultLabels)
      ensures metricDescriptors == {} && created == []
      ensures Valid()
    {
      var sanitized: map<string, DefaultLabel> := map[];
      var rest := raw.Keys;
      while rest != {}
        invariant rest <= raw.Keys
        invariant sanitized.Keys == (set k | k in raw && k !in rest :: naming.sanitize(k))
        invariant forall key :: key in sanitized ==>
                    exists k :: k in raw && naming.sanitize(k) == key && sanitized[key] == raw[k]
        decreases rest
      {
        var key :| key in rest;
        sanitized := sanitized[naming.sanitize(key) := raw[key]];
        rest := rest - {key};
      }
      this.o := o;
      this.naming := naming;
      defaultLabels := sanitized;
      metricDescriptors := {};
      created := [];
    }

    /** viewToMetricDescriptor */
    method ViewToMetricDescriptor(v: OC.View) returns (r: Result<MetricDescriptor>, ghost order: seq<string>)
      ensures Lists(order, defaultLabels.Keys)
      ensures r == ViewDescriptor(o, naming, v, DefaultDescriptors(defaultLabels, order, naming.sanitize)
                                                 + TagKeyDescriptors(v.tagKeys, naming.sanitize))
    {
      var labels;
      labels, order := NewLabelDescriptors(defaultLabels, v.tagKeys, naming.sanitize);
      r := ViewDescriptor(o, naming, v, labels);
    }

    /** metricToMpbMetricDescriptor */
    method MetricToMpbMetricDescriptor(metric: Option<OC.Metric>) returns (r: Result<MetricDescriptor>, ghost order: seq<string>)
      ensures metric.Some? ==> Lists(order, defaultLabels.Keys)
      ensures metric.None? ==> r == Failure(ErrNilMetricOrMetricDescriptor)
      ensures metric.Some? ==>
                r == MetricDescriptorOf(o, naming, metric, DefaultDescriptors(defaultLabels, order, naming.sanitize)
                                                           + LabelKeyDescriptors(metric.value.descriptor.labelKeys,
                                                                                 naming.sanitize))
    {
      order := [];
      if metric.None? {
        r := Failure(ErrNilMetricOrMetricDescriptor);
        return;
      }
      var labels;
      labels, order := MetricLabelKeysToLabels(defaultLabels, metric.value.descriptor.labelKeys, naming.sanitize);
      r := MetricDescriptorOf(o, naming, metric, labels);
    }

    /** The cache protocol both createMetricDescriptorFrom… share, once the
        descriptor to create (or the error building it) is known: a cached
        name and a built-in type need no remote call; otherwise a build
        error is returned, and a remote create is made whose success, and
        only whose success, caches the name. */
    method CreateIfNeeded(name: string, builtin: bool, md: Result<MetricDescriptor>, createMD: CreateDescriptorCall)
      returns (err: Option<Error>)
      requires Valid()
      modifies this
      ensures Valid()
      ensures name in old(metricDescriptors) ==>
                err.None? && metricDescriptors == old(metricDescriptors) && created == old(created)
      ensures name !in old(metricDescriptors) && builtin ==>
                err.None? && metricDescriptors == old(metricDescriptors) + {name} && created == old(created)
      ensures name !in old(metricDescriptors) && !builtin && md.Failure? ==>
                err == Some(md.error) && metricDescriptors == old(metricDescriptors) && created == old(created)
      ensures name !in old(metricDescriptors) && !builtin && md.Success? ==>
                && err == createMD(md.value)
                && (err.Some? ==> metricDescriptors == old(metricDescriptors) && created == old(created))
                && (err.None? ==> metricDescriptors == old(metricDescriptors) + {name}
                                  && created == old(created) + [name])
    {
      if name in metricDescriptors {
        return None;
      }
      if builtin {
        metricDescriptors := metricDescriptors + {name};
        return None;
      }
      if md.Failure? {
        return Some(md.error);
      }
      err := createMD(md.value);
      if err.Some? {
        return;
      }
      metricDescriptors := metricDescriptors + {name};
      created := created + [name];
    }

    /** createMetricDescriptorFromView: nothing when descriptor creation is
        switched off; otherwise the cache protocol on the view's name, with
        the built-in test on the view's metric type. `order` is the order
        the default labels were visited in. */
    method CreateMetricDescriptorFromView(v: OC.View, createMD: CreateDescriptorCall)
      returns (err: Option<Error>, ghost order: seq<string>)
      requires Valid()
      modifies this
      ensures Valid()
      ensures o.skipCMD ==> err.None? && metricDescriptors == old(metricDescriptors) && created == old(created)
      ensures v.name in old(metricDescriptors) ==>
                err.None? && metricDescriptors == old(metricDescriptors) && created == old(created)
      ensures !o.skipCMD && v.name !in old(metricDescriptors) && BuiltinMetric(MetricType(o, v)) ==>
                err.None? && metricDescriptors == old(metricDescriptors) + {v.name} && created == old(created)
      ensures !o.skipCMD && v.name !in old(metricDescriptors) && !BuiltinMetric(MetricType(o, v)) ==>
                && Lists(order, defaultLabels.Keys)
                && var md := ViewDescriptor(o, naming, v, DefaultDescriptors(defaultLabels, order, naming.sanitize)
                                                          + TagKeyDescriptors(v.tagKeys, naming.sanitize));
                   && err == (if md.Failure? then Some(md.error) else createMD(md.value))
                   && (err.Some? ==> metricDescriptors == old(metricDescriptors) && created == old(created))
                   && (err.None? ==> metricDescriptors == old(metricDescriptors) + {v.name}
                                     && created == old(created) + [v.name])
    {
      order := [];
      if o.skipCMD {
        return None, order;
      }
      var md;
      md, order := ViewToMetricDescriptor(v);
      err := CreateIfNeeded(v.name, BuiltinMetric(MetricType(o, v)), md, createMD);
    }

    /** createMetricDescriptorFromMetric: the same protocol on the metric's
        name, with the built-in test on the type its name maps to. The
        metric is read before anything else is looked at, so a missing one
        is only allowed when creation is switched off. */
    method CreateMetricDescriptorFromMetric(metric: Option<OC.Metric>, createMD: CreateDescriptorCall)
      returns (err: Option<Error>, ghost order: seq<string>)
      requires Valid()
      requires o.skipCMD || metric.Some?
      modifies this
      ensures Valid()
      ensures InDefaults(order, defaultLabels)
      ensures DescriptorStep(o, naming, defaultLabels, old(metricDescriptors), metric, order, createMD)
                == DescriptorOutcome(err, metricDescriptors)
      ensures o.skipCMD ==> err.None? && metricDescriptors == old(metricDescriptors) && created == old(created)
      ensures !o.skipCMD ==>
                var name := metric.value.descriptor.name;
                && (name in old(metricDescriptors) ==>
                      err.None? && metricDescriptors == old(metricDescriptors) && created == old(created))
                && (name !in old(metricDescriptors) && BuiltinMetric(naming.metricTypeFromProto(name)) ==>
                      err.None? && metricDescriptors == old(metricDescriptors) + {name} && created == old(created))
                && (name !in old(metricDescriptors) && !BuiltinMetric(naming.metricTypeFromProto(name)) ==>
                      && Lists(order, defaultLabels.Keys)
                      && err == createMD(MetricDescriptorOf(o, naming, metric,
                                                            DefaultDescriptors(defaultLabels, order, naming.sanitize)
                                                            + LabelKeyDescriptors(metric.value.descriptor.labelKeys,
                                                                                  naming.sanitize)).value)
                      && (err.Some? ==> metricDescriptors == old(metricDescriptors) && created == old(created))
                      && (err.None? ==> metricDescriptors == old(metricDescriptors) + {name}
                                        && created == old(created) + [name]))
    {
      order := [];
      if o.skipCMD {
        return None, order;
      }
      var name := metric.value.descriptor.name;
      var md;
      md, order := MetricToMpbMetricDescriptor(metric);
      err := CreateIfNeeded(name, BuiltinMetric(naming.metricTypeFromProto(name)), md, createMD);
    }

    /** The first loop of uploadMetrics: a descriptor for every metric, the
        errors collected in order. The errors and the cache are those of
        the descriptor protocol run over the metrics, one default-label
        visit order per metric. Once no error was reported, every metric's
        name is cached; the cache only grows and each descriptor is still
        created at most once. */
    method CreateDescriptors(metrics: seq<Option<OC.Metric>>, createMD: CreateDescriptorCall)
      returns (errs: seq<Error>, ghost orders: seq<seq<string>>)
      requires Valid()
      requires o.skipCMD || forall i :: 0 <= i < |metrics| ==> metrics[i].Some?
      modifies this
      ensures Valid()
      ensures |orders| == |metrics| && forall k :: 0 <= k < |orders| ==> InDefaults(orders[k], defaultLabels)
      ensures DescriptorRunOf(o, naming, defaultLabels, old(metricDescriptors), metrics, orders, createMD)
                == DescriptorRun(errs, metricDescriptors)
      ensures (forall md :: createMD(md).None?) ==> errs == []
      ensures forall k :: 0 <= k < |errs| ==> CreateAnswer(createMD, errs[k])
      ensures |errs| <= |metrics|
      ensures old(metricDescriptors) <= metricDescriptors
      ensures |old(created)| <= |created| && created[..|old(created)|] == old(created)
      ensures o.skipCMD ==> errs == [] && metricDescriptors == old(metricDescriptors) && created == old(created)
      ensures !o.skipCMD && errs == [] ==>
                forall i :: 0 <= i < |metrics| ==> metrics[i].value.descriptor.name in metricDescriptors
    {
      errs := [];
      orders := [];
      for i := 0 to |metrics|
        invariant Valid()
        invariant |orders| == i && forall k :: 0 <= k < i ==> InDefaults(orders[k], defaultLabels)
        invariant DescriptorRunOf(o, naming, defaultLabels, old(metricDescriptors), metrics[..i], orders, createMD)
                    == DescriptorRun(errs, metricDescriptors)
        invariant |old(created)| <= |created| && created[..|old(created)|] == old(created)
        invariant o.skipCMD ==> created == old(created)
      {
        ghost var before := created;
        var err, order := CreateMetricDescriptorFromMetric(metrics[i], createMD);
        DescriptorRunSnoc(o, naming, defaultLabels, old(metricDescriptors), metrics, orders, order, createMD, i);
        assert created[..|before|] == before;
        if err.Some? {
          errs := errs + [err.value];
        }
        orders := orders + [order];
      }
      assert metrics[..|metrics|] == metrics;
      DescriptorErrorsAreCalls(o, naming, defaultLabels, old(metricDescriptors), metrics, orders, createMD);
      DescriptorRunCovers(o, naming, defaultLabels, old(metricDescriptors), metrics, orders, createMD);
      if forall md :: createMD(md).None? {
        DescriptorRunSucceeds(o, naming, defaultLabels, old(metricDescriptors), metrics, orders, createMD);
      }
    }

    /** uploadMetrics: descriptors, conversion and sending each report their
        errors and go on; the errors are folded into one at the end. */
    method UploadMetrics(metrics: seq<Option<OC.Metric>>, createMD: CreateDescriptorCall,
                         createTS: CreateSeriesCall, createServiceTS: CreateSeriesCall)
      returns (err: Option<Error>, ghost cmdErrs: seq<Error>, ghost orders: seq<seq<string>>,
               ghost results: seq<Result<seq<TimeSeries>>>)
      requires Valid()
      requires o.skipCMD || forall i :: 0 <= i < |metrics| ==> metrics[i].Some?
      modifies this
      ensures Valid()
      ensures |orders| == |metrics| && forall k :: 0 <= k < |orders| ==> InDefaults(orders[k], defaultLabels)
      ensures DescriptorRunOf(o, naming, defaultLabels, old(metricDescriptors), metrics, orders, createMD)
                == DescriptorRun(cmdErrs, metricDescriptors)
      ensures (forall md :: createMD(md).None?) ==> cmdErrs == []
      ensures |cmdErrs| <= |metrics| && (o.skipCMD ==> cmdErrs == [])
      ensures |results| == |metrics|
      ensures forall i :: 0 <= i < |metrics| ==> MetricConverts(o, naming, defaultLabels, metrics[i], results[i])
      ensures err == FoldErrors(cmdErrs + ConversionErrors(results)
                                + UploadErrors(o.projectID, Converted(results), createTS, createServiceTS))
    {
      var errors;
      errors, orders := CreateDescriptors(metrics, createMD);
      cmdErrs := errors;
      var allTimeSeries, convErrs;
      allTimeSeries, convErrs, results := ConvertMetrics(o, naming, defaultLabels, metrics);
      var sendErrs := SendBatches(o.projectID, allTimeSeries, createTS, createServiceTS);
      err := FoldErrors(errors + convErrs + sendErrs);
    }
  }

  /** newStatsExporter: a blank project ID is refused, as is a failure to
      make the monitoring client; otherwise the exporter starts with the
      configured defaults, or the task label, under sanitized keys. */
  method NewStatsExporter(o: Options, naming: Naming, configured: Option<map<string, DefaultLabel>>, taskValue: string,
                          clientErr: Option<Error>)
    returns (r: Result<StatsExporter>)
    ensures TrimSpace(o.projectID) == "" ==> r == Failure(ErrBlankProjectID)
    ensures TrimSpace(o.projectID) != "" && clientErr.Some? ==> r == Failure(clientErr.value)
    ensures TrimSpace(o.projectID) != "" && clientErr.None? ==>
              && r.Success? && fresh(r.value) && r.value.Valid()
              && r.value.o == o && r.value.metricDescriptors == {}
              && SanitizedDefaults(ConfiguredDefaults(configured, taskValue), naming.sanitize, r.value.defaultLabels)
  {
    if TrimSpace(o.projectID) == "" {
      return Failure(ErrBlankProjectID);
    }
    if clientErr.Some? {
      return Failure(clientErr.value);
    }
    var raw := ConfiguredDefaults(configured, taskValue);
    var e := new StatsExporter(o, naming, raw);
    r := Success(e);
  }
}
