# Stackdriver exporter core, modelled in Dafny

This project models the core of the OpenCensus exporter for Stackdriver (Google
Cloud Monitoring and Cloud Trace). The core covers four parts:

- **Building `CreateTimeSeriesRequest`s from stats views** (`stats.go`):
  - labels built from defaults and tags;
  - points and typed values, including the zero-bound insertion for distributions;
  - chunking into at most `limit` series;
  - splitting each chunk into requests that never hold two series with the same metric signature;
  - routing `kubernetes.io/` series to the service endpoint;
  - the descriptor cache, which creates each custom descriptor remotely at most once.
- **Converting metrics to the Monitoring schema** (`metrics.go`):
  - label merging with an arity check;
  - metric kind and value type;
  - resource fallback to `global`;
  - points, distributions, exemplars and attachments;
  - `uploadMetrics`: descriptor creation, conversion, batches of 200, and the error fold.
- **The batching uploader** (`metrics_batcher.go`):
  - an accumulator that emits a request at exactly 200 series and the remainder on close;
  - workers that send requests and account for dropped series and errors;
  - the parser that reads `: timeSeries[0-3,7]` ranges from a partial-failure message.
- **Span conversion for Cloud Trace** (`trace_proto.go`):
  - UTF-8-safe truncation and int32 clamping;
  - the attribute copy with the HTTP key renames and the over-long-key drop;
  - resource labels as `g.co/r/<type>/<key>` attributes;
  - the agent label;
  - annotation and message-event caps with dropped counters;
  - the `Sent.`/`Recv.` display-name prefix.

The modules, one per file:

- `Common`: Option/Result, errors and the error fold, joins, sums and flattening.
- `StringSort`: the lexicographic order and sorting used by the signature.
- `OC`: the OpenCensus input data.
- `Series`: the Monitoring data model and `metricSignature`.
- `Stats`: the pure helpers of `stats.go`.
- `RequestBuilder`: `combineTimeSeriesToCreateTimeSeriesRequest` and `makeReq`.
- `Metrics`: the conversion in `metrics.go`.
- `Exporter`: the `StatsExporter` class, with its descriptor cache, `uploadMetrics` and `newStatsExporter`.
- `DroppedSeries`: the partial-failure parser.
- `Batcher`: the `Worker` and `MetricsBatcher` classes.
- `Utf8`: the part of Go's `unicode/utf8` that `trunc` relies on.
- `TraceProto`: the span conversion.

Code that mutates state is modelled as classes or as methods with loops:

- the exporter's descriptor cache;
- the batcher's accumulator and counters;
- the workers' responses;
- the loops of `combine`, `makeReq`, `trunc`, `copyAttributes` and the span event caps.

Each of these is proved against a specification function, and the properties are proved about that function. Remote calls (`createMetricDescriptor`, `createTimeSeries`, `createServiceTimeSeries`) are oracle parameters: a function from the request to an optional error.

## Model

| member | source | states |
|---|---|---|
| Stats.AddZeroBucketCountOnCondition | stats.go:560-565 | when asked to insert, the result is a single 0 followed by the counts unchanged; otherwise the counts as given |
| Stats.AddZeroBoundOnCondition | stats.go:567-572 | when asked to insert, the result is a single 0.0 followed by the bounds unchanged; otherwise the bounds as given |
| Stats.ZeroBoundPolicy | stats.go:553-572 | bounds grow by one exactly when a zero bound is inserted; equal-length bounds and counts stay equal in length; after insertion no further insertion is called for, and a changed list starts at 0 |
| Stats.ServiceMetric | stats.go:671-682 | a type is a service metric iff it starts with `kubernetes.io/` |
| Stats.BuiltinMetric | stats.go:684-699 | a type is not builtin iff it starts with the custom, external or workload prefix |
| Stats.ServiceSeriesPartition | stats.go:659-669 | the service and non-service selections together are a permutation of the input, and each keeps input order |
| Stats.SplitTimeSeries | stats.go:659-669 | the loop returns exactly the service selection and the non-service selection |
| Stats.SplitCreateTimeSeriesRequest | stats.go:640-657 | each side is absent iff it has no series; a present side keeps the request name and carries exactly that side's series |
| Stats.DisplayName | stats.go:368-374 | a name with a domain is kept; otherwise the default prefix, a slash, then the name |
| Stats.MetricType | stats.go:574-579 | without a `GetMetricType` hook the type is `custom.googleapis.com/opencensus/<view name>`, which, without path.Join's cleaning of `..` segments, is never builtin |
| Stats.DefaultResource | stats.go:157-167 | the configured resource, or the `global` resource when none is configured |
| Stats.TagLabels | stats.go:586-588 | the label keys are exactly the sanitized tag keys |
| Stats.TagLabelsLastWins | stats.go:586-588 | when several tags share a sanitized key, the last one's value is the label value |
| Stats.FillDefaults | stats.go:582-585 | the map holds every default under its sanitized key with its value |
| Stats.NewLabels | stats.go:581-590 | the labels are the sanitized defaults overridden by the tag labels |
| Stats.TimestampOf | stats.go:466-475 | seconds and nanoseconds recompose the instant, and the nanoseconds are in [0, 1e9) |
| Stats.ToValidTimeInterval | stats.go:460-477 | the start is kept; the end is kept when at least 2 ms after the start, and becomes start + 1 ms otherwise |
| Stats.NewTypedValue | stats.go:499-551 | a count is its int64; a sum or last value is an int64 exactly for an int64 measure; a distribution keeps count and mean and has explicit bounds |
| Stats.NewTypedValueSound | stats.go:499-551 | a count is its int64; a sum or last value is int64(x) of an int64 measure and x itself of a float64 measure; a distribution keeps count, mean and sum of squared deviations, and its bounds are the view's buckets and its counts the row's counts, both behind a leading 0 exactly when the first bucket bound is positive |
| Stats.TruncateToInt | stats.go:506-510 | int64 of a float64 truncates toward zero: the result lies between 0 and x and less than 1 away from x |
| Stats.NewPoint | stats.go:451-497 | last-value views give a gauge point with no start time; other views use the corrected interval; the value is the typed value |
| Stats.BlankProjectID | stats.go:84-86 | the trimmed project ID is empty iff every character is white space |
| StringSort.SortStrings | stats.go:447 | the result is sorted and a permutation of the input |
| StringSort.SortedUnique | stats.go:447 | two sorted permutations of the same values are equal |
| StringSort.SortIgnoresOrder | stats.go:440-449 | sorting inputs that are permutations of each other gives one and the same sequence |
| Series.MetricSignature | stats.go:440-449 | the loop returns the signature: the type, a colon, then the sorted label values joined by commas |
| Series.JoinSortedIsJoin | stats.go:446-448 | the signature's value part is the comma join of the sorted arrangement of the label values |
| Series.SignatureIgnoresKeys | stats.go:440-449 | metrics with the same type and the same multiset of label values have the same signature, whatever the keys and map order |
| Series.SignatureSeparatesTypes | stats.go:440-449 | metrics of different colon-free types never share a signature |
| RequestBuilder.CombineTimeSeriesToCreateTimeSeriesRequest | stats.go:376-438 | the loop with its recursion returns one request per group of the specification `Combine` |
| RequestBuilder.CombineUnique | stats.go:393-413 | no group holds two series with the same signature |
| RequestBuilder.CombinePermutes | stats.go:377-379 | the groups together are a permutation of the input, and there are no groups iff the input is empty |
| RequestBuilder.CombineKeepsOrder | stats.go:397-405 | every group is non-empty and keeps input order |
| RequestBuilder.CombineCounts | stats.go:397-432 | a signature occurring n times appears once in each of the first n groups and in no later group |
| RequestBuilder.CombineFirstOccurrences | stats.go:397-413 | the first group holds the first occurrence of every signature |
| RequestBuilder.CombineCountIsMaxMultiplicity | stats.go:397-432 | the number of groups equals the largest multiplicity of any signature |
| RequestBuilder.CombineExample | stats.go:376-438 | signatures [A,B,C,A,D] give the groups [[0,1,2,4],[3]], of sizes 4 and 1 |
| RequestBuilder.ChunksSound | stats.go:256-266 | chunks concatenate back to the input, and each chunk is non-empty and holds at most `limit` series |
| RequestBuilder.MakeReqSound | stats.go:237-271 | the requests together are a permutation of the series; each holds 1 to `limit` series and no signature twice |
| RequestBuilder.MakeReqExample | stats.go:237-271 | four series with two signatures give 3 requests for limit 3 and 2 requests for limits 4 and 5 |
| RequestBuilder.RunIsChunked | stats.go:256-270 | the accumulate-and-flush loop equals combining each `limit`-sized chunk |
| RequestBuilder.ChunkAndCombine | stats.go:256-270 | the loop returns the requests of the combined chunks |
| RequestBuilder.BuildTimeSeries | stats.go:240-254 | one time series per view row, in order, from the row's labels, resource and point |
| RequestBuilder.ViewSeries | stats.go:242-253 | the inner loop: one time series per row of one view data, in row order |
| RequestBuilder.RowSeries | stats.go:243-252 | the series of one row: the view's metric type, the default labels under the row's tag labels, the resource and the row's single point |
| RequestBuilder.SeriesOfRowsAppend | stats.go:241-254 | series built for two runs of rows concatenate to the series of the concatenated rows |
| RequestBuilder.MakeReq | stats.go:237-271 | `makeReq` builds the rows' series, then chunks and combines them |
| Metrics.MetricDescriptorTypeToMetricKind | metrics.go:319-351 | the six gauge/cumulative × int64/double/distribution types map to the matching pair; every other type and a nil metric map to (UNSPECIFIED, UNSPECIFIED) |
| Metrics.MetricRscToMpbRsc | metrics.go:353-378 | a nil resource gives the default resource; otherwise the labels are kept and an empty type becomes `global` |
| Metrics.HookResource | metrics.go:186-196 | a hook resource with a type is kept; one with an empty type becomes `global` with no labels |
| Metrics.PresentLabelsKeys | metrics.go:226-231 | the metric labels have exactly the sanitized keys whose values are present |
| Metrics.PresentLabelsLastWins | metrics.go:226-231 | a present value is stored under its sanitized key unless a later present value has the same key |
| Metrics.AddPresentLabels | metrics.go:226-231 | the loop adds the present labels on top of the given map |
| Metrics.MetricLabelsToTsLabels | metrics.go:210-234 | an error iff key and value counts differ; nil when there are no defaults and no keys; otherwise the sanitized defaults overridden by the present values |
| Metrics.AttachmentsToPbAttachments | metrics.go:503-515 | one attachment per input, in order; the span-context type URL iff the attachment is a span context |
| Metrics.MetricExemplarToPbExemplar | metrics.go:495-501 | the exemplar keeps value, time and the converted attachments |
| Metrics.BucketExemplarsInOrder | metrics.go:483-493 | there is one exemplar per bucket that has one, in bucket order |
| Metrics.MetricBucketToBucketCountsAndExemplars | metrics.go:483-493 | the counts copy the bucket counts in order, and the exemplars are those of the buckets that carry one |
| Metrics.PointValueSound | metrics.go:419-481 | an error iff the value is not int64, double or distribution; int64 and double values are copied |
| Metrics.DistributionPointValueSound | metrics.go:440-481 | count and sum of squared deviations are kept; mean is 0 for count 0 and sum/count otherwise; with bucket options the bounds are the metric's bounds behind a 0 exactly when the first bound is positive, and without them there are no bounds and no 0; bucket counts are copied in order behind that same 0 |
| Metrics.MetricPointToMpbValue | metrics.go:419-481 | the method returns the specified point value |
| Metrics.MetricPointToMpbPoint | metrics.go:399-417 | the point has the given start time, the point's time as its end, and the converted value, or the value's error |
| Metrics.SeriesPointsSound | metrics.go:380-397 | the series fails iff some point fails; otherwise one point per input, in order, with the given start time |
| Metrics.SeriesPointsFailFrom | metrics.go:387-393 | once a point has failed, later points do not change the outcome |
| Metrics.MetricTsToMpbPoint | metrics.go:380-397 | the loop returns the series' points, with no start time for gauges |
| Metrics.SeriesOfSound | metrics.go:169-205 | a converted series has the metric's type, a non-empty resource type, one point per input point, and no start times for gauges |
| Metrics.ConvertedSeriesSound | metrics.go:168-207 | at most one series per input series, each as in `SeriesOfSound` |
| Metrics.ConvertOne | metrics.go:169-205 | one input series converts to its output series, or is skipped when its points or labels fail |
| Metrics.ConvertSeries | metrics.go:168-207 | the loop returns the converted series in input order |
| Metrics.MetricToMpbTs | metrics.go:151-208 | a nil metric is an error; an unspecified kind gives no series and no error; otherwise the converted series, skipping the ones that fail |
| Exporter.ConfiguredDefaults | stats.go:104-112 | the configured default labels, or only the task label with the task value |
| Exporter.DefaultKeys | stats.go:594-600 | one descriptor per default label, keyed by the sanitized keys |
| Exporter.DescriptorsCover | stats.go:592-608 | the view descriptors are the defaults followed by the tag keys, all sanitized |
| Exporter.LabelDescriptorsCover | metrics.go:296-317 | the metric descriptors are the defaults followed by the label keys, with the keys' descriptions |
| Exporter.FillDefaultDescriptors | stats.go:594-600 | the loop lists every default label once |
| Exporter.NewLabelDescriptors | stats.go:592-608 | the loop returns the default descriptors followed by the tag-key descriptors |
| Exporter.MetricLabelKeysToLabels | metrics.go:296-317 | the loop returns the default descriptors followed by the label-key descriptors |
| Exporter.ViewDescriptorSound | stats.go:273-332 | an error iff the aggregation is unknown; otherwise the name, type, kind and value type follow the aggregation and measure |
| Exporter.MetricDescriptorOf | metrics.go:273-294 | a nil metric gives the nil-metric error; otherwise the name, type, display name, kind and value type come from the descriptor |
| Exporter.StatsExporter.ViewToMetricDescriptor | stats.go:273-332 | the method returns the specified view descriptor, with the defaults listed in some map order |
| Exporter.StatsExporter.MetricToMpbMetricDescriptor | metrics.go:273-294 | the method returns the specified metric descriptor |
| Exporter.StatsExporter.constructor | stats.go:97-118 | the exporter starts with an empty cache and the defaults under sanitized keys |
| Exporter.StatsExporter.CreateIfNeeded | stats.go:345-365 | a cached name, or a builtin type, makes no remote call; a failed conversion or create returns its error and leaves the cache unchanged; a successful create caches the name |
| Exporter.StatsExporter.CreateMetricDescriptorFromView | stats.go:334-366 | SkipCMD returns nil and leaves the cache untouched; otherwise the cache rules above apply, so each name is created remotely at most once |
| Exporter.StatsExporter.CreateMetricDescriptorFromMetric | metrics.go:238-271 | the same skip, cache and builtin rules for metrics; the error and new cache are those of DescriptorStep |
| Exporter.DescriptorStep | metrics.go:238-271 | one metric's step on a cache of names: an error only as a remote create's answer and then nothing cached; no error and creation on means the name is cached; creation off changes nothing |
| Exporter.DescriptorErrorsAreCalls | metrics.go:85-92 | every error of the descriptor loop is an answer of the remote create, at most one per metric, and the cache only grows |
| Exporter.DescriptorRunSucceeds | metrics.go:85-92 | when every remote create succeeds, the descriptor loop reports no error and every metric's name is cached |
| Exporter.DescriptorRunCovers | metrics.go:85-92 | with creation off the loop reports nothing and leaves the cache alone; otherwise no error means every metric's name is cached |
| Exporter.StatsExporter.CreateDescriptors | metrics.go:85-92 | the errors and the cache are those of the per-metric step folded over the metrics in order; so every error is a remote create's answer, all creates succeeding means no error, and without errors every metric's name is cached |
| Exporter.ConvertMetric | metrics.go:95-104 | a metric converts to its series, or to the conversion error |
| Exporter.ConvertMetrics | metrics.go:94-105 | the series of all metrics that converted, in order, and one error per metric that did not |
| Exporter.UploadSound | metrics.go:108-134 | every request sent holds at most 200 series with unique signatures and targets the right endpoint; together they are a permutation of the series |
| Exporter.BatchGood | metrics.go:109-133 | each request of one batch is well formed for its endpoint |
| Exporter.BatchPermutes | metrics.go:109-133 | the requests of one batch together are a permutation of the batch |
| Exporter.UploadStep | metrics.go:108-134 | the upload errors are those of the first batch of 200 followed by those of the rest |
| Exporter.SendBatch | metrics.go:109-133 | the errors are those of sending the batch's non-service requests, then its service requests |
| Exporter.SendBatches | metrics.go:108-134 | the start/end loop yields the errors of uploading all series in batches of 200 |
| Exporter.SendAll | metrics.go:113-131 | one error per failed request, in request order |
| Exporter.StatsExporter.UploadMetrics | metrics.go:72-147 | the folded error of the descriptor errors (those of the descriptor loop, so none when every create succeeds), the conversion errors and the send errors, in that order |
| Exporter.NewStatsExporter | stats.go:83-136 | a blank project ID is refused, and so is a client error; otherwise a fresh exporter with an empty cache and the configured or task defaults |
| Common.FoldErrorsKeepsMessages | metrics_batcher.go:110-123 | the fold is nil iff there are no errors, and its message contains every error's message |
| Batcher.SendReq | metrics_batcher.go:141-165 | a nil client gives (0, no errors); at most one error per sub-request; the dropped count is an int64 |
| Batcher.SendReqErrors | metrics_batcher.go:147-164 | no errors iff neither the service nor the non-service sub-request failed; then nothing is dropped |
| Batcher.SendReqDropsAll | metrics_batcher.go:147-170 | when every non-empty side fails with an unrecognised message, the whole request counts as dropped |
| Batcher.Worker.constructor | metrics_batcher.go:206-221 | a worker starts with no requests handled and an empty response |
| Batcher.Worker.RecordDroppedTimeseries | metrics_batcher.go:238-243 | adds to the dropped count (int64) and appends all given errors |
| Batcher.Worker.SendReqWithTimeout | metrics_batcher.go:231-236 | the worker records the request's response and keeps its accounting invariant |
| Batcher.Dispatch | metrics_batcher.go:223-229 | every queued request is taken by exactly one worker, and each worker's response accounts for what it sent |
| Batcher.BatchesAreChunks | metrics_batcher.go:88-100 | full batches of 200 plus the remainder are exactly the 200-chunks of all added series |
| Batcher.MetricsBatcher.constructor | metrics_batcher.go:50-77 | max(numWorkers, 1) workers, a queue of capacity max(workers, 5), and nothing pending |
| Batcher.NewWorkers | metrics_batcher.go:54-67 | the worker loop makes n fresh, pairwise distinct workers, none of which has sent or reported anything |
| Batcher.MetricsBatcher.RecordDroppedTimeseries | metrics_batcher.go:79-86 | adds to the dropped count (int64) and appends only the non-nil errors |
| Batcher.MetricsBatcher.SendReqToChan | metrics_batcher.go:128-134 | queues one request holding the accumulated series under the project name |
| Batcher.MetricsBatcher.AddTimeSeries | metrics_batcher.go:88-94 | the series is added; at 200 series exactly one request of 200 is queued and the accumulator is emptied; below that nothing is queued |
| Batcher.MetricsBatcher.SendRemainder | metrics_batcher.go:97-100 | afterwards the queued requests are the 200-chunks of everything added |
| Batcher.MetricsBatcher.RecordResponses | metrics_batcher.go:104-107 | the dropped count and errors are the sums and concatenation of all workers' responses |
| Batcher.SentAreResponses | metrics_batcher.go:102-107 | the workers' responses together are a permutation of the responses to all queued requests |
| Batcher.PresentWrapped | metrics_batcher.go:79-86 | forwarding a worker's errors to the batcher keeps every one of them |
| Batcher.ClosedBatcherSound | metrics_batcher.go:88-134 | the requests of a closed batcher hold all added series in order, each request 1 to 200 series under the project name |
| Batcher.MetricsBatcher.Close | metrics_batcher.go:96-124 | the queued requests are the 200-chunks of all added series; the dropped count is the int64 sum over their responses; the errors are theirs as a multiset; the result is their fold |
| DroppedSeries.Wrap64 | metrics_batcher.go:186 | the int64 value of a sum, equal to it when it fits |
| DroppedSeries.Atoi | metrics_batcher.go:180-184 | a digit string's value, clamped to MaxInt64 as `strconv.Atoi` does on overflow |
| DroppedSeries.SplitJoin | metrics_batcher.go:176-177 | joining the parts of `strings.Split` with the separator gives the input back |
| DroppedSeries.JoinSplit | metrics_batcher.go:176-177 | splitting a join of separator-free parts gives the parts back |
| DroppedSeries.Groups | metrics_batcher.go:137 | every match of the range pattern is a comma-separated list of ranges |
| DroppedSeries.DroppedTimeSeriesFromMonitoringAPIError | metrics_batcher.go:167-191 | the nested loops compute the specified dropped count |
| DroppedSeries.DroppedFallback | metrics_batcher.go:168-171 | without the prefix, or without a match, the whole request counts as dropped |
| DroppedSeries.DroppedFromRanges | metrics_batcher.go:173-190 | a message listing ranges counts max − min + 1 per range, a single index as 1 |
| DroppedSeries.DroppedExample | metrics_batcher.go:167-191 | `timeSeries[0-3,7]` gives 5 |
| Utf8.DecodeRune | trace_proto.go:268-269 | decodes as `utf8.DecodeRune`: empty iff size 0; a bad leading byte gives RuneError with size 1 |
| Utf8.DecodeLastRune | trace_proto.go:268-269 | as `utf8.DecodeLastRune`: size 0 iff empty, never more than the input |
| Utf8.LastRuneFrom | trace_proto.go:268-269 | the last rune is decoded from the last possible leading byte |
| Utf8.WholeRuneNotBroken | trace_proto.go:268-274 | a complete multi-byte encoding at the end never counts as broken |
| TraceProto.Clip32 | trace_proto.go:287-295 | x when it fits in int32, MinInt32 or MaxInt32 otherwise |
| TraceProto.Trimmed | trace_proto.go:267-274 | the longest prefix whose end is not a broken encoding |
| TraceProto.TruncOf | trace_proto.go:264-284 | a short string is kept with count 0; a long one becomes the longest prefix of at most `limit` bytes that does not end broken, with count clip32(len − kept) |
| TraceProto.Trunc | trace_proto.go:264-284 | the byte-dropping loop returns exactly that truncation |
| TraceProto.TruncAfterAscii | trace_proto.go:265-278 | a cut just after an ASCII byte keeps exactly `limit` bytes |
| TraceProto.TruncAfterWholeRune | trace_proto.go:265-278 | a cut just after a complete multi-byte rune keeps exactly `limit` bytes |
| TraceProto.TruncSplitRuneExample | trace_proto.go:264-284 | `a` + `é` cut at 2 keeps `a` and counts 2 truncated bytes |
| TraceProto.AttributeValueOf | trace_proto.go:238-261 | only bool, int64, float64 and string values are usable; strings are truncated prefixes of at most 256 bytes |
| TraceProto.Target | trace_proto.go:216-232 | the five HTTP keys are renamed; other keys over 128 bytes have no target; every target is at most 128 bytes |
| TraceProto.PlacementOf | trace_proto.go:211-233 | unsupported values are skipped, over-long keys dropped, and the rest stored under their target |
| TraceProto.CopyAttributes | trace_proto.go:200-236 | empty input leaves `out` untouched; otherwise every usable attribute is written under its target, other keys are unchanged, and the dropped count is the number of over-long keys |
| TraceProto.CopiedKeys | trace_proto.go:200-236 | every new key is at most 128 bytes, and every usable attribute with a target is present |
| TraceProto.ResourceKeyInjective | trace_proto.go:193 | distinct resource labels get distinct `g.co/r/<type>/<key>` attribute keys |
| TraceProto.ResourceLabelsStored | trace_proto.go:181-196 | every resource label is stored truncated under its resource key, and other attributes are kept |
| TraceProto.CopyMonitoredResourceAttributes | trace_proto.go:181-196 | the loop returns the attributes with the resource labels added, or `out` unchanged for a nil resource |
| TraceProto.WithAgent | trace_proto.go:103-122 | the agent label is always present, an existing one is not overwritten, and other attributes are kept |
| TraceProto.TimestampProto | trace_proto.go:172-177 | seconds and nanoseconds recompose the instant, and the nanoseconds are in [0, 1e9) |
| TraceProto.Excess | trace_proto.go:86-88 | the number over the cap, or 0 |
| TraceProto.AnnotationEvents | trace_proto.go:84-101 | the first min(len, 32) annotations become events in order; the dropped count is the excess |
| TraceProto.MessageEvents | trace_proto.go:124-145 | the first min(len, 128) message events become events in order; the dropped count is the excess |
| TraceProto.ProtoLinks | trace_proto.go:155-167 | no links gives none; otherwise one link per input, in order |
| TraceProto.KindName | trace_proto.go:55-61 | client and server span names get the five-byte `Sent.`/`Recv.` prefix; other kinds are unchanged |
| TraceProto.SpanAttributes | trace_proto.go:79-122 | the copied attributes, then the resource labels, then the agent label |
| TraceProto.SpanTimeEvents | trace_proto.go:84-153 | the annotation events, then the message events, with clipped dropped counters set only when one is non-zero |
| TraceProto.ProtoFromSpanData | trace_proto.go:47-169 | a nil span gives nil; otherwise the span proto with name, times, parent, status, attributes, events and links as specified |
| TraceProto.SpanProtoBounds | trace_proto.go:63-153 | the display name is at most 128 bytes; at most 32 + 128 events with non-negative dropped counters; the agent label is present |

## Left out

- Goroutines, channels, the WaitGroup and the per-request timeouts of the batcher.
  - Workers take requests from the queue only at `close`, and which worker takes a request is a nondeterministic choice.
  - Responses are recorded in worker order rather than arrival order, so the batcher's errors are stated as a multiset.
  - Channel capacity and blocking are not modelled.
- The remote calls `createMetricDescriptor`, `createTimeSeries` and `createServiceTimeSeries`, and `monitoring.NewMetricClient`, are oracle parameters; contexts are not modelled.
- The bundler, the metrics interval reader, `ExportView`, `handleUpload`, `Flush`, `uploadStats` and the tracing spans around uploads are not part of this model.
- Floating point:
  - bounds, sums and means are reals;
  - the distribution mean is exact real division;
  - `strconv.FormatFloat` is not modelled, so a float attribute arrives as its text.
- Protobuf `Clone`/`Marshal`, the `any.Any` encoding of attachments and `fmt.Sprintf("%v")` of arbitrary attachments: an attachment is kept as its type URL and a value.
- `time.Time` is an integer count of nanoseconds since the epoch.
- `getTaskValue`, `sanitize`, `metricTypeFromProto`, `hasDomain` and `convertMonitoredResourceToPB` are not in the files modelled; they are function parameters.
- `path.Join` is modelled as concatenation with `/`, without cleaning the path.
- Stats.MetricType: a view name with `..` segments (such as `../../x`) would be cleaned by Go into a type outside the custom domain, which could then count as builtin; the model keeps the uncleaned text.
- The text of `errNilMetricOrMetricDescriptor` is not in the files modelled; it is a placeholder constant.
- Go `int` is taken as 64-bit: the batcher's dropped counts wrap around as int64 values.
- Stats.TruncateToInt: a float64 outside the int64 range converts to an implementation-specific value in Go; the model truncates to an unbounded integer.
- TraceProto.CopyAttributes: the `int32` dropped-attribute counter is a mathematical integer, so its overflow past 2^31 − 1 keys is not modelled.
- Span attribute maps are values rather than shared pointers. The five `ochttp` attribute key constants are not in the files modelled; their values are taken as `http.path`, `http.host`, `http.method`, `http.user_agent` and `http.status_code`.
- Trace and span IDs arrive as their hex text; a zero parent span ID is an absent parent.
- Exporter.StatsExporter.CreateMetricDescriptorFromMetric: a nil metric without SkipCMD dereferences nil in Go; the model requires a metric in that case.
- Go's map iteration order is unspecified. Loops over maps pick keys by nondeterministic choice, and the contracts hold for every order: when two keys collide after renaming or sanitizing, which one wins is left open.
- The `monitoredresource` package and the test files are not part of this model.
