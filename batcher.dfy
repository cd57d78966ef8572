/** The metrics batcher: series are gathered into requests of at most 200,
    the requests are queued for a pool of workers, each worker sends what
    it takes from the queue and keeps a running count of dropped series
    and a list of errors, and closing the batcher sends the remainder and
    folds the workers' responses into one count and one error. */
module Batcher {
  import opened Common
  import opened Series
  import opened Stats
  import opened RequestBuilder
  import opened DroppedSeries
  import Exporter

  const MinNumWorkers := 1
  const MinReqsChanSize := 5

  /** The monitoring client the workers share: absent only in unit tests,
      otherwise the two create calls, each answering an error or nothing. */
  datatype Client = NoClient | MetricClient(createTS: Exporter.CreateSeriesCall, createServiceTS: Exporter.CreateSeriesCall)

  /** What a worker reports back when the queue is closed. */
  datatype Response = Response(droppedTimeSeries: int, errs: seq<Error>)

  // ---------------------------------------------------------------------
  // Sending one request

  /** The count and errors one create call contributes. */
  function CallOutcome(req: CreateTimeSeriesRequest, err: Option<Error>): Response {
    match err
    case None => Response(0, [])
    case Some(e) => Response(DroppedCount(req, e.msg), [e])
  }

  /** sendReq: the request split into its non-service and service halves,
      each sent when non-empty, non-service first; every failure adds its
      dropped count and its error. */
  function SendReq(c: Client, req: CreateTimeSeriesRequest): (r: Response)
    ensures c.NoClient? ==> r == Response(0, [])
    ensures |r.errs| <= 2
    ensures MinInt64 <= r.droppedTimeSeries <= MaxInt64
  {
    if c.NoClient? then Response(0, [])
    else
      var (serviceReq, nonServiceReq) := SplitCreateTimeSeriesRequest(req);
      var a := if nonServiceReq.Some? then CallOutcome(nonServiceReq.value, c.createTS(nonServiceReq.value)) else Response(0, []);
      var b := if serviceReq.Some? then CallOutcome(serviceReq.value, c.createServiceTS(serviceReq.value)) else Response(0, []);
      Response(Wrap64(Wrap64(a.droppedTimeSeries) + b.droppedTimeSeries), a.errs + b.errs)
  }

  /** The half of a request that holds the service (or the other) series,
      and whether sending it failed. */
  predicate HalfFails(c: Client, req: CreateTimeSeriesRequest, service: bool) {
    var half := CreateTimeSeriesRequest(req.name, ServiceSeries(req.timeSeries, service));
    && c.MetricClient?
    && half.timeSeries != []
    && (if service then c.createServiceTS(half) else c.createTS(half)).Some?
  }

  /** The request reports an error exactly when some non-empty half failed,
      and nothing dropped without an error. */
  lemma {:induction false} SendReqErrors(c: Client, req: CreateTimeSeriesRequest)
    ensures SendReq(c, req).errs == [] <==> !HalfFails(c, req, false) && !HalfFails(c, req, true)
    ensures SendReq(c, req).errs == [] ==> SendReq(c, req).droppedTimeSeries == 0
  {
  }

  /** When every non-empty half fails with an error that is not a
      partial-failure report, the whole request counts as dropped. */
  lemma {:induction false} SendReqDropsAll(c: Client, req: CreateTimeSeriesRequest)
    requires c.MetricClient? && |req.timeSeries| <= MaxInt64
    requires forall service: bool :: ServiceSeries(req.timeSeries, service) != [] ==> HalfFails(c, req, service)
    requires forall e :: e in SendReq(c, req).errs ==> !HasPrefix(e.msg, WritePrefix)
    ensures SendReq(c, req).droppedTimeSeries == |req.timeSeries|
  {
    var service := ServiceSeries(req.timeSeries, true);
    var other := ServiceSeries(req.timeSeries, false);
    ServiceSeriesPartition(req.timeSeries);
    assert |multiset(service)| + |multiset(other)| == |multiset(req.timeSeries)|;
    var (serviceReq, nonServiceReq) := SplitCreateTimeSeriesRequest(req);
    if other != [] {
      var e := c.createTS(nonServiceReq.value).value;
      assert e in SendReq(c, req).errs;
      DroppedFallback(nonServiceReq.value, e.msg);
    }
    if service != [] {
      var e := c.createServiceTS(serviceReq.value).value;
      assert e in SendReq(c, req).errs;
      DroppedFallback(serviceReq.value, e.msg);
    }
  }

  /** sendReq as a function value, for the requests a worker has sent. */
  function SendOf(c: Client): CreateTimeSeriesRequest -> Response {
    req => SendReq(c, req)
  }

  /** The responses to several requests, in order. */
  function Responses(c: Client, reqs: seq<CreateTimeSeriesRequest>): (r: seq<Response>)
    ensures Maps(reqs, r, SendOf(c))
  {
    seq(|reqs|, k requires 0 <= k < |reqs| => SendReq(c, reqs[k]))
  }

  function DroppedOf(r: Response): int {
    r.droppedTimeSeries
  }

  function ErrorsOf(r: Response): seq<Error> {
    r.errs
  }

  /** Dropped series over several responses, before the 64-bit wrap. */
  function TotalDropped(rs: seq<Response>): int {
    SumOf(rs, DroppedOf)
  }

  /** Errors over several responses, in order. */
  function AllErrors(rs: seq<Response>): seq<Error> {
    ConcatOf(rs, ErrorsOf)
  }

  /** Recording one more response keeps the running count and errors those
      of all responses so far. */
  lemma RecordStep(resp: Response, sent: seq<Response>, r: Response)
    requires resp == Response(Wrap64(TotalDropped(sent)), AllErrors(sent))
    ensures Wrap64(resp.droppedTimeSeries + r.droppedTimeSeries) == Wrap64(TotalDropped(sent + [r]))
    ensures resp.errs + r.errs == AllErrors(sent + [r])
  {
    WrapSumSnoc(sent, r, DroppedOf);
    ConcatOfSnoc(sent, r, ErrorsOf);
  }

  /** The answers are those to the requests, and the response is their
      wrapped count and their errors. */
  ghost predicate Accounted(mc: Client, handled: seq<CreateTimeSeriesRequest>, sent: seq<Response>, resp: Response) {
    && Maps(handled, sent, SendOf(mc))
    && resp == Response(Wrap64(TotalDropped(sent)), AllErrors(sent))
  }

  // ---------------------------------------------------------------------
  // Workers

  class Worker {
    const mc: Client
    var resp: Response
    /** The requests this worker has taken from the queue, in order, and
        the answers to them. */
    ghost var handled: seq<CreateTimeSeriesRequest>
    ghost var sent: seq<Response>

    /** The response is the wrapped count and the errors of every request
        the worker has sent. */
    ghost predicate Valid()
      reads this
    {
      Accounted(mc, handled, sent, resp)
    }

    /** The worker took exactly these requests and sent them with these
        answers. */
    ghost predicate Holds(handled: seq<CreateTimeSeriesRequest>, sent: seq<Response>, mc: Client)
      reads this
    {
      this.mc == mc && this.handled == handled && this.sent == sent && Valid()
    }

    /** newWorker: an empty response. */
    constructor (mc: Client)
      ensures this.mc == mc && handled == [] && sent == [] && resp == Response(0, [])
      ensures Valid()
    {
      this.mc := mc;
      resp := Response(0, []);
      handled := [];
      sent := [];
    }

    /** recordDroppedTimeseries: the count added, the errors appended. */
    method RecordDroppedTimeseries(numTimeSeries: int, errors: seq<Error>)
      modifies this
      ensures resp == Response(Wrap64(old(resp.droppedTimeSeries) + numTimeSeries), old(resp.errs) + errors)
      ensures handled == old(handled) && sent == old(sent)
    {
      resp := Response(Wrap64(resp.droppedTimeSeries + numTimeSeries), resp.errs + errors);
    }

    /** sendReqWithTimeout: one request sent and its answer recorded. */
    method SendReqWithTimeout(req: CreateTimeSeriesRequest)
      requires Valid()
      modifies this
      ensures handled == old(handled) + [req] && sent == old(sent) + [SendReq(mc, req)]
      ensures Valid()
    {
      var r := SendReq(mc, req);
      assert SendOf(mc)(req) == r;
      MapsSnoc(handled, sent, req, SendOf(mc));
      RecordStep(resp, sent, r);
      RecordDroppedTimeseries(r.droppedTimeSeries, r.errs);
      handled := handled + [req];
      sent := sent + [r];
    }
  }

  /** Every worker took the requests listed for it, and no more, and sent
      them with the answers listed for it. */
  ghost predicate Took(workers: seq<Worker>, taken: seq<seq<CreateTimeSeriesRequest>>, sents: seq<seq<Response>>, mc: Client)
    reads workers
  {
    && |taken| == |workers| && |sents| == |workers|
    && forall k :: 0 <= k < |workers| ==> workers[k].Holds(taken[k], sents[k], mc)
  }

  /** The workers draining the queue: each request goes to whichever worker
      is free, and every request is sent exactly once. */
  method Dispatch(workers: seq<Worker>, reqs: seq<CreateTimeSeriesRequest>, ghost mc: Client)
      returns (ghost taken: seq<seq<CreateTimeSeriesRequest>>, ghost sents: seq<seq<Response>>)
    requires |workers| > 0
    requires forall i, j :: 0 <= i < j < |workers| ==> workers[i] != workers[j]
    requires Took(workers, seq(|workers|, k => []), seq(|workers|, k => []), mc)
    modifies workers
    ensures Took(workers, taken, sents, mc)
    ensures multiset(Flatten(taken)) == multiset(reqs)
  {
    taken := seq(|workers|, k => []);
    sents := seq(|workers|, k => []);
    assert Flatten(taken) == [] by {
      EmptiesFlatten(taken);
    }
    for i := 0 to |reqs|
      invariant Took(workers, taken, sents, mc)
      invariant multiset(Flatten(taken)) == multiset(reqs[..i])
    {
      var w :| 0 <= w < |workers|;
      TakeStep(taken, w, reqs, i);
      taken, sents := TakeOne(workers, w, reqs[i], taken, sents, mc);
    }
    assert reqs[..|reqs|] == reqs;
  }

  /** Worker w takes one request from the queue and sends it. */
  method TakeOne(workers: seq<Worker>, w: nat, req: CreateTimeSeriesRequest,
                 ghost taken: seq<seq<CreateTimeSeriesRequest>>, ghost sents: seq<seq<Response>>, ghost mc: Client)
      returns (ghost taken': seq<seq<CreateTimeSeriesRequest>>, ghost sents': seq<seq<Response>>)
    requires w < |workers|
    requires forall i, j :: 0 <= i < j < |workers| ==> workers[i] != workers[j]
    requires Took(workers, taken, sents, mc)
    modifies workers[w]
    ensures Took(workers, taken', sents', mc)
    ensures taken' == taken[w := taken[w] + [req]]
  {
    workers[w].SendReqWithTimeout(req);
    taken' := taken[w := taken[w] + [req]];
    sents' := sents[w := workers[w].sent];
  }

  /** One more request taken by worker w. */
  lemma TakeStep<T>(taken: seq<seq<T>>, w: nat, reqs: seq<T>, i: nat)
    requires w < |taken| && i < |reqs|
    requires multiset(Flatten(taken)) == multiset(reqs[..i])
    ensures multiset(Flatten(taken[w := taken[w] + [reqs[i]]])) == multiset(reqs[..i + 1])
  {
    FlattenSnocAt(taken, w, reqs[i]);
    assert reqs[..i + 1] == reqs[..i] + [reqs[i]];
  }

  lemma {:induction false} EmptiesFlatten<T>(ss: seq<seq<T>>)
    requires forall k :: 0 <= k < |ss| ==> ss[k] == []
    ensures Flatten(ss) == []
  {
    if ss != [] {
      EmptiesFlatten(ss[1..]);
    }
  }

  // ---------------------------------------------------------------------
  // The batcher

  /** Full batches followed by a short remainder are exactly the chunks
      makeReq cuts. */
  lemma {:induction false} BatchesAreChunks(batches: seq<seq<TimeSeries>>, rest: seq<TimeSeries>, limit: nat)
    requires limit > 0 && |rest| < limit
    requires forall k :: 0 <= k < |batches| ==> |batches[k]| == limit
    ensures Chunks(Flatten(batches) + rest, limit) == batches + (if rest == [] then [] else [rest])
  {
    if batches == [] {
      assert Flatten(batches) + rest == rest;
    } else {
      var all := Flatten(batches) + rest;
      assert all == batches[0] + (Flatten(batches[1..]) + rest);
      assert all[..limit] == batches[0];
      assert all[limit..] == Flatten(batches[1..]) + rest;
      BatchesAreChunks(batches[1..], rest, limit);
      assert batches == [batches[0]] + batches[1..];
    }
  }

  /** The workers newMetricsBatcher starts: n fresh, distinct workers that
      have sent nothing. */
  method NewWorkers(n: nat, mc: Client) returns (ws: seq<Worker>)
    ensures |ws| == n
    ensures forall k :: 0 <= k < n ==> fresh(ws[k])
    ensures forall a, b :: 0 <= a < b < n ==> ws[a] != ws[b]
    ensures Took(ws, seq(n, k => []), seq(n, k => []), mc)
  {
    ws := [];
    for i := 0 to n
      invariant |ws| == i
      invariant forall k :: 0 <= k < i ==> fresh(ws[k])
      invariant forall a, b :: 0 <= a < b < i ==> ws[a] != ws[b]
      invariant Took(ws, seq(i, k => []), seq(i, k => []), mc)
    {
      var w := new Worker(mc);
      ws := ws + [w];
    }
  }

  class MetricsBatcher {
    ghost const projectID: string
    const projectName: string
    var allTss: seq<TimeSeries>
    var allErrs: seq<Error>
    var droppedTimeSeries: int
    const workers: seq<Worker>
    const reqsChanSize: int
    const mc: Client
    /** The requests put on the queue so far, in order. */
    var reqsChan: seq<CreateTimeSeriesRequest>
    /** Every series added, and the series of each queued request. */
    ghost var added: seq<TimeSeries>
    ghost var batches: seq<seq<TimeSeries>>

    /** While open: every queued request holds a full batch, the pending
        series are what follows them, and the workers have sent nothing
        and reported nothing. */
    ghost predicate Valid()
      reads this, workers
    {
      && |workers| >= MinNumWorkers
      && (forall i, j :: 0 <= i < j < |workers| ==> workers[i] != workers[j])
      && Took(workers, seq(|workers|, k => []), seq(|workers|, k => []), mc)
      && projectName == ProjectName(projectID)
      && |allTss| < MaxTimeSeriesPerUpload
      && (forall k :: 0 <= k < |batches| ==> |batches[k]| == MaxTimeSeriesPerUpload)
      && added == Flatten(batches) + allTss
      && reqsChan == Requests(projectID, batches)
      && droppedTimeSeries == 0 && allErrs == []
    }

    /** newMetricsBatcher: at least one worker, a queue of at least five. */
    constructor (projectID: string, numWorkers: int, mc: Client)
      ensures Valid()
      ensures this.projectID == projectID && this.mc == mc
      ensures |workers| == (if numWorkers < MinNumWorkers then MinNumWorkers else numWorkers)
      ensures reqsChanSize == (if |workers| < MinReqsChanSize then MinReqsChanSize else |workers|)
      ensures forall k :: 0 <= k < |workers| ==> fresh(workers[k])
      ensures added == [] && reqsChan == [] && allTss == []
    {
      var n := numWorkers;
      if n < MinNumWorkers {
        n := MinNumWorkers;
      }
      var size := n;
      if size < MinReqsChanSize {
        size := MinReqsChanSize;
      }
      var ws := NewWorkers(n, mc);
      this.projectID := projectID;
      projectName := ProjectName(projectID);
      allTss := [];
      allErrs := [];
      droppedTimeSeries := 0;
      workers := ws;
      reqsChanSize := size;
      this.mc := mc;
      reqsChan := [];
      added := [];
      batches := [];
    }

    /** recordDroppedTimeseries: the count added, the errors that are not
        nil appended. */
    method RecordDroppedTimeseries(numTimeSeries: int, errs: seq<Option<Error>>)
      modifies this
      ensures droppedTimeSeries == Wrap64(old(droppedTimeSeries) + numTimeSeries)
      ensures allErrs == old(allErrs) + Present(errs)
      ensures allTss == old(allTss) && reqsChan == old(reqsChan) && added == old(added) && batches == old(batches)
    {
      droppedTimeSeries := Wrap64(droppedTimeSeries + numTimeSeries);
      for i := 0 to |errs|
        invariant allErrs == old(allErrs) + Present(errs[..i])
        invariant droppedTimeSeries == Wrap64(old(droppedTimeSeries) + numTimeSeries)
        invariant allTss == old(allTss) && reqsChan == old(reqsChan) && added == old(added) && batches == old(batches)
      {
        if errs[i].Some? {
          allErrs := allErrs + [errs[i].value];
        }
        assert errs[..i + 1][..i] == errs[..i];
      }
      assert errs[..|errs|] == errs;
    }

    /** sendReqToChan: the pending series queued as one request. */
    method SendReqToChan()
      modifies this
      ensures reqsChan == old(reqsChan) + [CreateTimeSeriesRequest(projectName, allTss)]
      ensures batches == old(batches) + [allTss]
      ensures allTss == old(allTss) && added == old(added)
      ensures allErrs == old(allErrs) && droppedTimeSeries == old(droppedTimeSeries)
    {
      reqsChan := reqsChan + [CreateTimeSeriesRequest(projectName, allTss)];
      batches := batches + [allTss];
    }

    /** addTimeSeries: the series is appended, and the 200th pending series
        sends the batch and starts a new one. */
    method AddTimeSeries(ts: TimeSeries)
      requires Valid()
      modifies this
      ensures Valid()
      ensures added == old(added) + [ts]
      ensures |old(allTss)| + 1 == MaxTimeSeriesPerUpload ==>
                allTss == [] && reqsChan == old(reqsChan) + [CreateTimeSeriesRequest(projectName, old(allTss) + [ts])]
      ensures |old(allTss)| + 1 < MaxTimeSeriesPerUpload ==>
                allTss == old(allTss) + [ts] && reqsChan == old(reqsChan)
    {
      allTss := allTss + [ts];
      added := added + [ts];
      if |allTss| == MaxTimeSeriesPerUpload {
        SendReqToChan();
        RequestsAppend(projectID, old(batches), [allTss]);
        FlattenAppend(old(batches), [allTss]);
        assert Flatten([allTss]) == allTss;
        allTss := [];
      }
    }

    /** close: the remainder sent, the queue drained by the workers, their
        responses recorded, and the errors folded. Whichever worker took a
        request, the count is that of every queued request and the errors
        are theirs, in some order. */
    method Close() returns (err: Option<Error>)
      requires Valid()
      modifies this, workers
      ensures reqsChan == Requests(projectID, Chunks(old(added), MaxTimeSeriesPerUpload))
      ensures droppedTimeSeries == Wrap64(TotalDropped(Responses(mc, reqsChan)))
      ensures multiset(allErrs) == multiset(AllErrors(Responses(mc, reqsChan)))
      ensures err == FoldErrors(allErrs)
    {
      SendRemainder();
      ghost var taken, sents := Dispatch(workers, reqsChan, mc);
      RecordResponses(sents);
      SentAreResponses(mc, reqsChan, taken, sents);
      SumOfPermutation(Flatten(sents), Responses(mc, reqsChan), DroppedOf);
      ConcatOfPermutation(Flatten(sents), Responses(mc, reqsChan), ErrorsOf);
      err := FoldErrors(allErrs);
    }

    /** The first step of close: the pending series, if any, queued as the
        last request, so that the queue holds makeReq's chunks of every
        series added. */
    method SendRemainder()
      requires Valid()
      modifies this
      ensures reqsChan == Requests(projectID, Chunks(added, MaxTimeSeriesPerUpload))
      ensures added == old(added) && droppedTimeSeries == 0 && allErrs == []
    {
      BatchesAreChunks(batches, allTss, MaxTimeSeriesPerUpload);
      if |allTss| > 0 {
        SendReqToChan();
        RequestsAppend(projectID, old(batches), [allTss]);
        assert Requests(projectID, [allTss]) == [CreateTimeSeriesRequest(projectName, allTss)];
      } else {
        assert batches + [] == batches;
      }
    }

    /** The responses of the workers, one after the other, recorded. */
    method RecordResponses(ghost sents: seq<seq<Response>>)
      requires droppedTimeSeries == 0 && allErrs == []
      requires |sents| == |workers|
      requires forall k :: 0 <= k < |workers| ==> workers[k].resp == Response(Wrap64(TotalDropped(sents[k])), AllErrors(sents[k]))
      modifies this
      ensures droppedTimeSeries == Wrap64(TotalDropped(Flatten(sents)))
      ensures allErrs == AllErrors(Flatten(sents))
      ensures reqsChan == old(reqsChan)
    {
      assert Flatten(sents[..0]) == [];
      for i := 0 to |workers|
        invariant droppedTimeSeries == Wrap64(TotalDropped(Flatten(sents[..i])))
        invariant allErrs == AllErrors(Flatten(sents[..i]))
        invariant reqsChan == old(reqsChan)
      {
        var resp := workers[i].resp;
        CollectStep(sents, i);
        RecordDroppedTimeseries(resp.droppedTimeSeries, Wrapped(resp.errs));
        PresentWrapped(resp.errs);
      }
      assert sents[..|workers|] == sents;
    }
  }

  /** Whatever worker sent each request, the answers are those to the
      queued requests, in some order. */
  lemma SentAreResponses(mc: Client, reqs: seq<CreateTimeSeriesRequest>, taken: seq<seq<CreateTimeSeriesRequest>>, sents: seq<seq<Response>>)
    requires |taken| == |sents| && forall k :: 0 <= k < |taken| ==> Maps(taken[k], sents[k], SendOf(mc))
    requires multiset(Flatten(taken)) == multiset(reqs)
    ensures multiset(Flatten(sents)) == multiset(Responses(mc, reqs))
  {
    MapsFlatten(taken, sents, SendOf(mc));
    MapsPermutation(Flatten(taken), Flatten(sents), reqs, Responses(mc, reqs), SendOf(mc));
  }

  /** One more worker's response folded in. */
  lemma {:induction false} CollectStep(sents: seq<seq<Response>>, i: nat)
    requires i < |sents|
    ensures Wrap64(Wrap64(TotalDropped(Flatten(sents[..i]))) + Wrap64(TotalDropped(sents[i])))
         == Wrap64(TotalDropped(Flatten(sents[..i + 1])))
    ensures AllErrors(Flatten(sents[..i])) + AllErrors(sents[i]) == AllErrors(Flatten(sents[..i + 1]))
  {
    var before := Flatten(sents[..i]);
    assert sents[..i + 1] == sents[..i] + [sents[i]];
    FlattenAppend(sents[..i], [sents[i]]);
    assert Flatten([sents[i]]) == sents[i];
    SumOfAppend(before, sents[i], DroppedOf);
    ConcatOfAppend(before, sents[i], ErrorsOf);
    WrapAdd(TotalDropped(before), Wrap64(TotalDropped(sents[i])));
    WrapAdd(TotalDropped(sents[i]), TotalDropped(before));
  }

  /** The errors that are not nil, in order. */
  function Present(errs: seq<Option<Error>>): (r: seq<Error>)
    ensures |r| <= |errs|
  {
    if errs == [] then []
    else Present(errs[..|errs| - 1]) + (if errs[|errs| - 1].Some? then [errs[|errs| - 1].value] else [])
  }

  /** Errors passed on as a variadic list of error values. */
  function Wrapped(errs: seq<Error>): (r: seq<Option<Error>>)
    ensures |r| == |errs| && forall k :: 0 <= k < |errs| ==> r[k] == Some(errs[k])
  {
    seq(|errs|, k requires 0 <= k < |errs| => Some(errs[k]))
  }

  lemma {:induction false} PresentWrapped(errs: seq<Error>)
    ensures Present(Wrapped(errs)) == errs
  {
    if errs != [] {
      PresentWrapped(errs[..|errs| - 1]);
      assert Wrapped(errs)[..|errs| - 1] == Wrapped(errs[..|errs| - 1]);
    }
  }

  /** A closed batcher has sent every added series exactly once, in order,
      in requests of at most 200 series named after the project. */
  lemma {:induction false} ClosedBatcherSound(projectID: string, added: seq<TimeSeries>)
    ensures Flatten(Chunks(added, MaxTimeSeriesPerUpload)) == added
    ensures forall k :: 0 <= k < |Requests(projectID, Chunks(added, MaxTimeSeriesPerUpload))| ==>
              && Requests(projectID, Chunks(added, MaxTimeSeriesPerUpload))[k].name == ProjectName(projectID)
              && 0 < |Requests(projectID, Chunks(added, MaxTimeSeriesPerUpload))[k].timeSeries| <= MaxTimeSeriesPerUpload
  {
    ChunksSound(added, MaxTimeSeriesPerUpload);
    RequestsCarryGroups(projectID, Chunks(added, MaxTimeSeriesPerUpload));
  }
}
