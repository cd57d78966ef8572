/** How the view-data exporter cuts time series into create requests: chunks
    of at most `limit` series, each chunk split further so that no request
    holds two series with the same signature, and each request split again
    between the service and the custom endpoint. */
module RequestBuilder {
  import opened Common
  import opened Series
  import opened Config
  import opened Stats
  import OC = OpenCensus

  /** The signature of a series' metric: the key deduplication uses. */
  ghost function Sig(t: TimeSeries): string {
    Signature(t.metric)
  }

  /** How many series of ts have key s. */
  ghost function CountKey(ts: seq<TimeSeries>, s: string, key: TimeSeries -> string): nat {
    if ts == [] then 0 else (if key(ts[0]) == s then 1 else 0) + CountKey(ts[1..], s, key)
  }

  /** key is the signature. Only a signature in the context brings this
      fact into play, so proofs that never look inside the key do not pay
      for the signature's definition. */
  ghost predicate IsSignature(key: TimeSeries -> string) {
    forall t {:trigger Sig(t)} :: key(t) == Sig(t)
  }

  // ---------------------------------------------------------------------
  // Deduplication
  //
  // The specification is stated for any key function; the exporter's key is
  // Sig. Keeping the key abstract keeps the signature's definition out of
  // the proofs about grouping.

  /** One pass over ts: the series whose key was not seen before (each
      such key becoming seen as the pass goes) ... */
  ghost function Firsts(ts: seq<TimeSeries>, seen: set<string>, key: TimeSeries -> string): seq<TimeSeries> {
    if ts == [] then []
    else if key(ts[0]) in seen then Firsts(ts[1..], seen, key)
    else [ts[0]] + Firsts(ts[1..], seen + {key(ts[0])}, key)
  }

  /** ... and the series set aside because their key was already seen. */
  ghost function Repeats(ts: seq<TimeSeries>, seen: set<string>, key: TimeSeries -> string): (r: seq<TimeSeries>)
    ensures |r| <= |ts|
    ensures ts != [] && key(ts[0]) !in seen ==> |r| < |ts|
  {
    if ts == [] then []
    else if key(ts[0]) in seen then [ts[0]] + Repeats(ts[1..], seen, key)
    else Repeats(ts[1..], seen + {key(ts[0])}, key)
  }

  /** The groups combineTimeSeriesToCreateTimeSeriesRequest sends: the first
      occurrences, then the combination of the rest. */
  ghost function Combine(ts: seq<TimeSeries>, key: TimeSeries -> string): seq<seq<TimeSeries>>
    decreases |ts|
  {
    if ts == [] then [] else [Firsts(ts, {}, key)] + Combine(Repeats(ts, {}, key), key)
  }

  /** One request per group, all named after the project. */
  function Requests(projectID: string, groups: seq<seq<TimeSeries>>): (r: seq<CreateTimeSeriesRequest>)
    ensures |r| == |groups|
  {
    if groups == [] then []
    else [CreateTimeSeriesRequest(ProjectName(projectID), groups[0])] + Requests(projectID, groups[1..])
  }

  /** Request k is named after the project and carries group k. */
  lemma {:induction false} RequestsCarryGroups(projectID: string, groups: seq<seq<TimeSeries>>)
    ensures forall k :: 0 <= k < |groups| ==>
              Requests(projectID, groups)[k] == CreateTimeSeriesRequest(ProjectName(projectID), groups[k])
  {
    if groups != [] {
      RequestsCarryGroups(projectID, groups[1..]);
    }
  }

  lemma {:induction false} RequestsAppend(projectID: string, a: seq<seq<TimeSeries>>, b: seq<seq<TimeSeries>>)
    ensures Requests(projectID, a + b) == Requests(projectID, a) + Requests(projectID, b)
    decreases |a|
  {
    if a == [] {
      assert a + b == b;
    } else {
      var first := CreateTimeSeriesRequest(ProjectName(projectID), a[0]);
      assert (a + b)[0] == a[0];
      assert (a + b)[1..] == a[1..] + b;
      RequestsAppend(projectID, a[1..], b);
      calc {
        Requests(projectID, a + b);
        [first] + Requests(projectID, a[1..] + b);
        [first] + (Requests(projectID, a[1..]) + Requests(projectID, b));
        ([first] + Requests(projectID, a[1..])) + Requests(projectID, b);
      }
    }
  }

  /** combineTimeSeriesToCreateTimeSeriesRequest: one pass with a set of
      seen signatures, then the same on what was set aside. The result is
      the combination by the signature. */
  method CombineTimeSeriesToCreateTimeSeriesRequest(projectID: string, ts: seq<TimeSeries>, ghost key: TimeSeries -> string)
    returns (reqs: seq<CreateTimeSeriesRequest>)
    requires IsSignature(key)
    ensures reqs == Requests(projectID, Combine(ts, key))
    decreases |ts|
  {
    if |ts| == 0 {
      return [];
    }
    var unique: seq<TimeSeries> := [];
    var nonUnique: seq<TimeSeries> := [];
    var seen: set<string> := {};
    for i := 0 to |ts|
      invariant Firsts(ts, {}, key) == unique + Firsts(ts[i..], seen, key)
      invariant Repeats(ts, {}, key) == nonUnique + Repeats(ts[i..], seen, key)
    {
      PassStep(ts, i, seen, key);
      var sig := MetricSignature(ts[i].metric);
      assert sig == Sig(ts[i]);
      if sig !in seen {
        unique := unique + [ts[i]];
        seen := seen + {sig};
      } else {
        nonUnique := nonUnique + [ts[i]];
      }
    }
    assert ts[|ts|..] == [];
    assert unique == Firsts(ts, {}, key) && nonUnique == Repeats(ts, {}, key);
    var rest := CombineTimeSeriesToCreateTimeSeriesRequest(projectID, nonUnique, key);
    reqs := [CreateTimeSeriesRequest(ProjectName(projectID), unique)] + rest;
    CombineUnfold(ts, key);
    RequestsAppend(projectID, [unique], Combine(nonUnique, key));
  }

  lemma PassStep(ts: seq<TimeSeries>, i: nat, seen: set<string>, key: TimeSeries -> string)
    requires i < |ts|
    ensures key(ts[i]) in seen ==>
              && Firsts(ts[i..], seen, key) == Firsts(ts[i + 1..], seen, key)
              && Repeats(ts[i..], seen, key) == [ts[i]] + Repeats(ts[i + 1..], seen, key)
    ensures key(ts[i]) !in seen ==>
              && Firsts(ts[i..], seen, key) == [ts[i]] + Firsts(ts[i + 1..], seen + {key(ts[i])}, key)
              && Repeats(ts[i..], seen, key) == Repeats(ts[i + 1..], seen + {key(ts[i])}, key)
  {
    assert ts[i..][0] == ts[i] && ts[i..][1..] == ts[i + 1..];
  }

  lemma CombineUnfold(ts: seq<TimeSeries>, key: TimeSeries -> string)
    requires ts != []
    ensures Combine(ts, key) == [Firsts(ts, {}, key)] + Combine(Repeats(ts, {}, key), key)
  {
  }

  // Facts about one pass

  lemma {:induction false} FirstsUnique(ts: seq<TimeSeries>, seen: set<string>, key: TimeSeries -> string)
    ensures forall i :: 0 <= i < |Firsts(ts, seen, key)| ==> key(Firsts(ts, seen, key)[i]) !in seen
    ensures forall i, j :: 0 <= i < j < |Firsts(ts, seen, key)| ==>
              key(Firsts(ts, seen, key)[i]) != key(Firsts(ts, seen, key)[j])
  {
    if ts != [] && key(ts[0]) in seen {
      FirstsUnique(ts[1..], seen, key);
    } else if ts != [] {
      var seen' := seen + {key(ts[0])};
      FirstsUnique(ts[1..], seen', key);
      var q := Firsts(ts[1..], seen', key);
      var p := [ts[0]] + q;
      forall i | 0 < i < |p| ensures key(p[i]) !in seen' {
        assert p[i] == q[i - 1];
      }
      forall i, j | 0 <= i < j < |p| ensures key(p[i]) != key(p[j]) {
        assert p[j] == q[j - 1];
        if i > 0 {
          assert p[i] == q[i - 1];
        }
      }
    }
  }

  lemma {:induction false} PartitionPermutes(ts: seq<TimeSeries>, seen: set<string>, key: TimeSeries -> string)
    ensures multiset(Firsts(ts, seen, key)) + multiset(Repeats(ts, seen, key)) == multiset(ts)
  {
    if ts != [] {
      assert ts == [ts[0]] + ts[1..];
      if key(ts[0]) in seen {
        PartitionPermutes(ts[1..], seen, key);
      } else {
        PartitionPermutes(ts[1..], seen + {key(ts[0])}, key);
      }
    }
  }

  lemma {:induction false} PartitionKeepsOrder(ts: seq<TimeSeries>, seen: set<string>, key: TimeSeries -> string)
    ensures IsSubseq(Firsts(ts, seen, key), ts) && IsSubseq(Repeats(ts, seen, key), ts)
  {
    if ts == [] {
      IsSubseqEmpty(ts);
    } else {
      assert ts == [ts[0]] + ts[1..];
      var seen' := if key(ts[0]) in seen then seen else seen + {key(ts[0])};
      PartitionKeepsOrder(ts[1..], seen', key);
      IsSubseqCons(ts[0], Firsts(ts[1..], seen', key), ts[1..]);
      IsSubseqCons(ts[0], Repeats(ts[1..], seen', key), ts[1..]);
    }
  }

  lemma {:induction false} PartitionCounts(ts: seq<TimeSeries>, seen: set<string>, key: TimeSeries -> string, s: string)
    ensures CountKey(Firsts(ts, seen, key), s, key) == if s in seen || CountKey(ts, s, key) == 0 then 0 else 1
    ensures CountKey(Firsts(ts, seen, key), s, key) + CountKey(Repeats(ts, seen, key), s, key) == CountKey(ts, s, key)
  {
    if ts != [] {
      var seen' := if key(ts[0]) in seen then seen else seen + {key(ts[0])};
      PartitionCounts(ts[1..], seen', key, s);
      var f, r := Firsts(ts[1..], seen', key), Repeats(ts[1..], seen', key);
      assert ([ts[0]] + f)[1..] == f;
      assert ([ts[0]] + r)[1..] == r;
    }
  }

  lemma {:induction false} FirstsHoldFirstOccurrence(ts: seq<TimeSeries>, seen: set<string>, key: TimeSeries -> string, i: nat)
    requires i < |ts| && key(ts[i]) !in seen
    requires forall j :: 0 <= j < i ==> key(ts[j]) != key(ts[i])
    ensures ts[i] in Firsts(ts, seen, key)
  {
    if i > 0 {
      var seen' := if key(ts[0]) in seen then seen else seen + {key(ts[0])};
      assert ts[1..][i - 1] == ts[i];
      FirstsHoldFirstOccurrence(ts[1..], seen', key, i - 1);
    }
  }

  // Facts about the whole combination

  lemma CombineTail(ts: seq<TimeSeries>, key: TimeSeries -> string)
    requires ts != []
    ensures Combine(ts, key)[0] == Firsts(ts, {}, key)
    ensures forall k :: 0 < k < |Combine(ts, key)| ==> Combine(ts, key)[k] == Combine(Repeats(ts, {}, key), key)[k - 1]
  {
  }

  /** No request holds two series with the same key. */
  lemma {:induction false} CombineUnique(ts: seq<TimeSeries>, key: TimeSeries -> string)
    ensures forall k, i, j :: 0 <= k < |Combine(ts, key)| && 0 <= i < j < |Combine(ts, key)[k]| ==>
              key(Combine(ts, key)[k][i]) != key(Combine(ts, key)[k][j])
    decreases |ts|
  {
    if ts != [] {
      FirstsUnique(ts, {}, key);
      CombineUnique(Repeats(ts, {}, key), key);
      CombineTail(ts, key);
    }
  }

  /** Every series goes out exactly once, and an empty input sends nothing. */
  lemma {:induction false} CombinePermutes(ts: seq<TimeSeries>, key: TimeSeries -> string)
    ensures multiset(Flatten(Combine(ts, key))) == multiset(ts)
    ensures Combine(ts, key) == [] <==> ts == []
    decreases |ts|
  {
    if ts != [] {
      var rest := Repeats(ts, {}, key);
      PartitionPermutes(ts, {}, key);
      CombinePermutes(rest, key);
      assert Combine(ts, key)[1..] == Combine(rest, key);
      assert Flatten(Combine(ts, key)) == Firsts(ts, {}, key) + Flatten(Combine(rest, key));
    }
  }

  /** Every request is non-empty and keeps the input order. */
  lemma {:induction false} CombineKeepsOrder(ts: seq<TimeSeries>, key: TimeSeries -> string)
    ensures forall k :: 0 <= k < |Combine(ts, key)| ==>
              Combine(ts, key)[k] != [] && IsSubseq(Combine(ts, key)[k], ts)
    decreases |ts|
  {
    if ts != [] {
      var rest := Repeats(ts, {}, key);
      PartitionKeepsOrder(ts, {}, key);
      CombineKeepsOrder(rest, key);
      CombineTail(ts, key);
      FirstsHoldFirstOccurrence(ts, {}, key, 0);
      forall k | 0 < k < |Combine(ts, key)| ensures IsSubseq(Combine(ts, key)[k], ts) {
        IsSubseqTrans(Combine(rest, key)[k - 1], rest, ts);
      }
    }
  }

  /** Request k holds one series of key s when s occurs more than k times,
      and none otherwise; no key occurs more often than there are
      requests. */
  lemma {:induction false} CombineCounts(ts: seq<TimeSeries>, key: TimeSeries -> string, s: string)
    ensures forall k :: 0 <= k < |Combine(ts, key)| ==>
              CountKey(Combine(ts, key)[k], s, key) == if k < CountKey(ts, s, key) then 1 else 0
    ensures CountKey(ts, s, key) <= |Combine(ts, key)|
    decreases |ts|
  {
    if ts != [] {
      PartitionCounts(ts, {}, key, s);
      CombineCounts(Repeats(ts, {}, key), key, s);
      CombineTail(ts, key);
    }
  }

  /** The first request holds the first occurrence of every key. */
  lemma CombineFirstOccurrences(ts: seq<TimeSeries>, key: TimeSeries -> string, i: nat)
    requires i < |ts|
    requires forall j :: 0 <= j < i ==> key(ts[j]) != key(ts[i])
    ensures |Combine(ts, key)| > 0 && ts[i] in Combine(ts, key)[0]
  {
    FirstsHoldFirstOccurrence(ts, {}, key, i);
  }

  /** The number of requests is the largest number of series sharing one
      key. */
  lemma CombineCountIsMaxMultiplicity(ts: seq<TimeSeries>, key: TimeSeries -> string)
    ensures forall s :: CountKey(ts, s, key) <= |Combine(ts, key)|
    ensures ts != [] ==> exists i :: 0 <= i < |ts| && CountKey(ts, key(ts[i]), key) == |Combine(ts, key)|
  {
    forall s ensures CountKey(ts, s, key) <= |Combine(ts, key)| {
      CombineCounts(ts, key, s);
    }
    if ts != [] {
      CombinePermutes(ts, key);
      CombineKeepsOrder(ts, key);
      var n := |Combine(ts, key)|;
      var last := Combine(ts, key)[n - 1];
      var x := last[0];
      CountKeyPositive(last, key, 0);
      CombineCounts(ts, key, key(x));
      assert x in multiset(ts) by {
        FlattenHolds(Combine(ts, key), n - 1, 0);
      }
      var i :| 0 <= i < |ts| && ts[i] == x;
    }
  }

  lemma {:induction false} CountKeyPositive(ts: seq<TimeSeries>, key: TimeSeries -> string, i: nat)
    requires i < |ts|
    ensures CountKey(ts, key(ts[i]), key) > 0
  {
    if i > 0 {
      assert ts[1..][i - 1] == ts[i];
      CountKeyPositive(ts[1..], key, i - 1);
    }
  }

  lemma {:induction false} FlattenHolds<T>(ss: seq<seq<T>>, k: nat, i: nat)
    requires k < |ss| && i < |ss[k]|
    ensures ss[k][i] in multiset(Flatten(ss))
  {
    if k > 0 {
      FlattenHolds(ss[1..], k - 1, i);
    }
  }

  /** The deduplication example of the exporter's tests: five series where
      only the first and the fourth share a key give a request of four and
      a request holding the repeated one. */
  lemma CombineExample(ts: seq<TimeSeries>, key: TimeSeries -> string)
    requires |ts| == 5
    requires key(ts[0]) == key(ts[3])
    requires forall i, j :: 0 <= i < j < 5 && (i, j) != (0, 3) ==> key(ts[i]) != key(ts[j])
    ensures Combine(ts, key) == [[ts[0], ts[1], ts[2], ts[4]], [ts[3]]]
  {
    var s0, s1, s2 := key(ts[0]), key(ts[1]), key(ts[2]);
    assert key(ts[4]) !in {s0, s1, s2} by {
      assert key(ts[0]) != key(ts[4]) && key(ts[1]) != key(ts[4]) && key(ts[2]) != key(ts[4]);
    }
    assert key(ts[2]) !in {s0, s1} by {
      assert key(ts[0]) != key(ts[2]) && key(ts[1]) != key(ts[2]);
    }
    assert key(ts[1]) !in {s0} by {
      assert key(ts[0]) != key(ts[1]);
    }
    assert ts[5..] == [];
    assert Firsts(ts[4..], {s0, s1, s2}, key) == [ts[4]] && Repeats(ts[4..], {s0, s1, s2}, key) == [] by {
      assert ts[4..][0] == ts[4] && ts[4..][1..] == ts[5..];
    }
    assert Firsts(ts[3..], {s0, s1, s2}, key) == [ts[4]] && Repeats(ts[3..], {s0, s1, s2}, key) == [ts[3]] by {
      assert ts[3..][0] == ts[3] && ts[3..][1..] == ts[4..];
    }
    assert Firsts(ts[2..], {s0, s1}, key) == [ts[2], ts[4]] && Repeats(ts[2..], {s0, s1}, key) == [ts[3]] by {
      assert ts[2..][0] == ts[2] && ts[2..][1..] == ts[3..];
      assert {s0, s1} + {s2} == {s0, s1, s2};
    }
    assert Firsts(ts[1..], {s0}, key) == [ts[1], ts[2], ts[4]] && Repeats(ts[1..], {s0}, key) == [ts[3]] by {
      assert ts[1..][0] == ts[1] && ts[1..][1..] == ts[2..];
      assert {s0} + {s1} == {s0, s1};
    }
    assert Firsts(ts, {}, key) == [ts[0], ts[1], ts[2], ts[4]] && Repeats(ts, {}, key) == [ts[3]] by {
      assert {} + {s0} == {s0};
    }
    assert Combine([ts[3]], key) == [[ts[3]]] by {
      assert Firsts([ts[3]], {}, key) == [ts[3]] && Repeats([ts[3]], {}, key) == [] by {
        assert [ts[3]][1..] == [];
      }
    }
  }

  // ---------------------------------------------------------------------
  // Chunking (makeReq)

  /** The chunks makeReq hands to the combiner: full chunks of `limit`
      series, then the non-empty remainder. With a limit below 1 the chunk
      never fills up and everything goes in one chunk. */
  function Chunks(ts: seq<TimeSeries>, limit: int): (r: seq<seq<TimeSeries>>)
    decreases |ts|
  {
    if limit > 0 && |ts| >= limit then [ts[..limit]] + Chunks(ts[limit..], limit)
    else if ts == [] then []
    else [ts]
  }

  /** Chunks are non-empty, hold at most `limit` series, and together are
      the input in order. */
  lemma {:induction false} ChunksSound(ts: seq<TimeSeries>, limit: int)
    ensures Flatten(Chunks(ts, limit)) == ts
    ensures forall k :: 0 <= k < |Chunks(ts, limit)| ==>
              && Chunks(ts, limit)[k] != []
              && |Chunks(ts, limit)[k]| <= |ts|
              && (limit > 0 ==> |Chunks(ts, limit)[k]| <= limit)
    decreases |ts|
  {
    if limit > 0 && |ts| >= limit {
      ChunksSound(ts[limit..], limit);
      assert ts == ts[..limit] + ts[limit..];
    }
  }

  lemma ChunksFull(all: seq<TimeSeries>, start: nat, limit: int)
    requires 0 < limit && start + limit <= |all|
    ensures Chunks(all[start..], limit) == [all[start..start + limit]] + Chunks(all[start + limit..], limit)
  {
    assert all[start..][..limit] == all[start..start + limit];
    assert all[start..][limit..] == all[start + limit..];
  }

  lemma ChunksRemainder(all: seq<TimeSeries>, start: nat, limit: int)
    requires start <= |all| && (limit <= 0 || |all| - start < limit)
    ensures Chunks(all[start..], limit) == if start == |all| then [] else [all[start..]]
  {
  }

  /** Chunks in turn, each combined. */
  ghost function CombineAll(chunks: seq<seq<TimeSeries>>, key: TimeSeries -> string): seq<seq<TimeSeries>> {
    if chunks == [] then []
    else CombineAll(chunks[..|chunks| - 1], key) + Combine(chunks[|chunks| - 1], key)
  }

  lemma CombineAllSnoc(done: seq<seq<TimeSeries>>, chunk: seq<TimeSeries>, key: TimeSeries -> string)
    ensures CombineAll(done + [chunk], key) == CombineAll(done, key) + Combine(chunk, key)
  {
    assert (done + [chunk])[..|done|] == done;
  }

  /** Every request of a combination holds at most as many series as its
      input. */
  lemma CombineBounded(ts: seq<TimeSeries>, key: TimeSeries -> string)
    ensures forall k :: 0 <= k < |Combine(ts, key)| ==> 0 < |Combine(ts, key)[k]| <= |ts|
  {
    CombineKeepsOrder(ts, key);
    forall k | 0 <= k < |Combine(ts, key)| ensures |Combine(ts, key)[k]| <= |ts| {
      IsSubseqLength(Combine(ts, key)[k], ts);
    }
  }

  /** Combining chunk after chunk sends every series exactly once. */
  lemma {:induction false} CombineAllPermutes(chunks: seq<seq<TimeSeries>>, key: TimeSeries -> string)
    ensures multiset(Flatten(CombineAll(chunks, key))) == multiset(Flatten(chunks))
  {
    if chunks != [] {
      var init, last := chunks[..|chunks| - 1], chunks[|chunks| - 1];
      assert chunks == init + [last];
      CombineAllPermutes(init, key);
      CombinePermutes(last, key);
      FlattenAppend(CombineAll(init, key), Combine(last, key));
      FlattenAppend(init, [last]);
      assert Flatten([last]) == last;
    }
  }

  /** Every request of the combined chunks is non-empty and no larger than
      the largest chunk. */
  lemma {:induction false} CombineAllBounded(chunks: seq<seq<TimeSeries>>, key: TimeSeries -> string, limit: nat)
    requires forall k :: 0 <= k < |chunks| ==> |chunks[k]| <= limit
    ensures forall k :: 0 <= k < |CombineAll(chunks, key)| ==> 0 < |CombineAll(chunks, key)[k]| <= limit
  {
    if chunks != [] {
      var init, last := chunks[..|chunks| - 1], chunks[|chunks| - 1];
      CombineAllBounded(init, key, limit);
      CombineBounded(last, key);
      var a, b := CombineAll(init, key), Combine(last, key);
      assert CombineAll(chunks, key) == a + b;
      forall k | 0 <= k < |a + b| ensures 0 < |(a + b)[k]| <= limit {
        if k < |a| {
          assert (a + b)[k] == a[k];
        } else {
          assert (a + b)[k] == b[k - |a|];
        }
      }
    }
  }

  /** No request of the combined chunks holds two series with one key. */
  lemma {:induction false} CombineAllUnique(chunks: seq<seq<TimeSeries>>, key: TimeSeries -> string)
    ensures forall k, i, j :: 0 <= k < |CombineAll(chunks, key)| && 0 <= i < j < |CombineAll(chunks, key)[k]| ==>
              key(CombineAll(chunks, key)[k][i]) != key(CombineAll(chunks, key)[k][j])
  {
    if chunks != [] {
      var init, last := chunks[..|chunks| - 1], chunks[|chunks| - 1];
      CombineAllUnique(init, key);
      CombineUnique(last, key);
      var a, b := CombineAll(init, key), Combine(last, key);
      assert CombineAll(chunks, key) == a + b;
      forall k | 0 <= k < |a + b|
        ensures forall i, j :: 0 <= i < j < |(a + b)[k]| ==> key((a + b)[k][i]) != key((a + b)[k][j])
      {
        if k < |a| {
          assert (a + b)[k] == a[k];
        } else {
          assert (a + b)[k] == b[k - |a|];
        }
      }
    }
  }

  /** makeReq's requests: every series once, none over the limit, none with
      two series of one signature. */
  lemma MakeReqSound(all: seq<TimeSeries>, limit: int)
    ensures var groups := CombineAll(Chunks(all, limit), Sig);
            && multiset(Flatten(groups)) == multiset(all)
            && forall k :: 0 <= k < |groups| ==>
                 && groups[k] != []
                 && (limit > 0 ==> |groups[k]| <= limit)
                 && (forall i, j :: 0 <= i < j < |groups[k]| ==> Sig(groups[k][i]) != Sig(groups[k][j]))
  {
    ChunksSound(all, limit);
    CombineAllPermutes(Chunks(all, limit), Sig);
    CombineAllUnique(Chunks(all, limit), Sig);
    if limit > 0 {
      CombineAllBounded(Chunks(all, limit), Sig, limit);
    } else {
      CombineAllBounded(Chunks(all, limit), Sig, |all|);
    }
  }

  /** The batching examples of the exporter's tests: four series with keys
      A, B, A, B give three requests under a limit of 3 and two under a
      limit of 4 or 5. */
  lemma MakeReqExample(ts: seq<TimeSeries>, key: TimeSeries -> string)
    requires |ts| == 4
    requires key(ts[0]) == key(ts[2]) && key(ts[1]) == key(ts[3]) && key(ts[0]) != key(ts[1])
    ensures |CombineAll(Chunks(ts, 3), key)| == 3
    ensures |CombineAll(Chunks(ts, 4), key)| == 2
    ensures |CombineAll(Chunks(ts, 5), key)| == 2
  {
    var a, b := key(ts[0]), key(ts[1]);
    // limit 3: chunks [A, B, A] and [B]
    assert Chunks(ts, 3) == [ts[..3], ts[3..]] by {
      assert Chunks(ts[3..], 3) == [ts[3..]];
    }
    var c := ts[..3];
    assert Firsts(c[2..], {a, b}, key) == [] && Repeats(c[2..], {a, b}, key) == [ts[2]] by {
      assert c[2..][0] == ts[2] && c[2..][1..] == [];
    }
    assert Firsts(c[1..], {a}, key) == [ts[1]] && Repeats(c[1..], {a}, key) == [ts[2]] by {
      assert c[1..][0] == ts[1] && c[1..][1..] == c[2..];
      assert {a} + {b} == {a, b};
    }
    assert Firsts(c, {}, key) == [ts[0], ts[1]] && Repeats(c, {}, key) == [ts[2]] by {
      assert {} + {a} == {a};
    }
    assert |Combine([ts[2]], key)| == 1 by {
      assert Repeats([ts[2]], {}, key) == [] by { assert [ts[2]][1..] == []; }
    }
    assert |Combine(c, key)| == 2;
    assert |Combine(ts[3..], key)| == 1 by {
      assert ts[3..] == [ts[3]];
      assert Repeats([ts[3]], {}, key) == [] by { assert [ts[3]][1..] == []; }
    }
    assert CombineAll([c], key) == Combine(c, key) by {
      var cs: seq<seq<TimeSeries>> := [c];
      assert cs[..0] == [];
    }
    assert |CombineAll(Chunks(ts, 3), key)| == 3;
    // limit 4 and 5: one chunk [A, B, A, B]
    assert Chunks(ts, 4) == [ts] by {
      assert ts[..4] == ts && ts[4..] == [];
    }
    assert Chunks(ts, 5) == [ts];
    assert Firsts(ts[3..], {a, b}, key) == [] && Repeats(ts[3..], {a, b}, key) == [ts[3]] by {
      assert ts[3..][0] == ts[3] && ts[3..][1..] == [];
    }
    assert Firsts(ts[2..], {a, b}, key) == [] && Repeats(ts[2..], {a, b}, key) == [ts[2], ts[3]] by {
      assert ts[2..][0] == ts[2] && ts[2..][1..] == ts[3..];
    }
    assert Firsts(ts[1..], {a}, key) == [ts[1]] && Repeats(ts[1..], {a}, key) == [ts[2], ts[3]] by {
      assert ts[1..][0] == ts[1] && ts[1..][1..] == ts[2..];
      assert {a} + {b} == {a, b};
    }
    assert Firsts(ts, {}, key) == [ts[0], ts[1]] && Repeats(ts, {}, key) == [ts[2], ts[3]] by {
      assert {} + {a} == {a};
    }
    var d := [ts[2], ts[3]];
    assert Firsts(d, {}, key) == [ts[2], ts[3]] && Repeats(d, {}, key) == [] by {
      assert d[1..] == [ts[3]] && [ts[3]][1..] == [];
      assert {} + {a} == {a};
      assert Firsts([ts[3]], {a}, key) == [ts[3]] && Repeats([ts[3]], {a}, key) == [];
    }
    assert |Combine(d, key)| == 1;
    assert |Combine(ts, key)| == 2;
    assert CombineAll([ts], key) == Combine(ts, key) by {
      var tss: seq<seq<TimeSeries>> := [ts];
      assert tss[..0] == [];
    }
  }

  /** A row of view data together with the view and the interval it belongs to. */
  datatype ViewRow = ViewRow(view: OC.View, row: OC.Row, start: int, end: int)

  function RowsOf(vd: OC.ViewData): (r: seq<ViewRow>)
    ensures |r| == |vd.rows|
    ensures forall j :: 0 <= j < |r| ==> r[j] == ViewRow(vd.view, vd.rows[j], vd.start, vd.end)
  {
    seq(|vd.rows|, j requires 0 <= j < |vd.rows| => ViewRow(vd.view, vd.rows[j], vd.start, vd.end))
  }

  /** All rows of all view data, in order. */
  function AllRows(vds: seq<OC.ViewData>): seq<ViewRow> {
    if vds == [] then [] else AllRows(vds[..|vds| - 1]) + RowsOf(vds[|vds| - 1])
  }

  /** The series makeReq builds for one row: the view's metric type, the
      default labels under the row's tags, the configured resource and a
      single point. */
  ghost predicate SeriesOfRow(o: Options, defaults: map<string, DefaultLabel>, sanitize: string -> string,
                              vr: ViewRow, t: TimeSeries)
  {
    && t.metric.metricType == MetricType(o, vr.view)
    && (exists fromDefaults :: FromDefaults(defaults, sanitize, fromDefaults)
          && t.metric.labels == fromDefaults + TagLabels(vr.row.tags, sanitize))
    && t.resource == DefaultResource(o)
    && t.points == [NewPoint(vr.view, vr.row, vr.start, vr.end)]
  }

  ghost predicate SeriesOfRows(o: Options, defaults: map<string, DefaultLabel>, sanitize: string -> string,
                               rows: seq<ViewRow>, ts: seq<TimeSeries>)
  {
    |ts| == |rows| && forall k :: 0 <= k < |ts| ==> SeriesOfRow(o, defaults, sanitize, rows[k], ts[k])
  }

  /** The first half of makeReq: one series per row of every view data. */
  method BuildTimeSeries(o: Options, defaults: map<string, DefaultLabel>, sanitize: string -> string,
                         vds: seq<OC.ViewData>)
    returns (all: seq<TimeSeries>)
    ensures SeriesOfRows(o, defaults, sanitize, AllRows(vds), all)
  {
    all := [];
    for i := 0 to |vds|
      invariant SeriesOfRows(o, defaults, sanitize, AllRows(vds[..i]), all)
    {
      assert vds[..i + 1][..i] == vds[..i];
      var ts := ViewSeries(o, defaults, sanitize, vds[i]);
      SeriesOfRowsAppend(o, defaults, sanitize, AllRows(vds[..i]), RowsOf(vds[i]), all, ts);
      all := all + ts;
    }
    assert vds[..|vds|] == vds;
  }

  /** The inner loop of makeReq: one series per row of one view data. */
  method ViewSeries(o: Options, defaults: map<string, DefaultLabel>, sanitize: string -> string, vd: OC.ViewData)
    returns (all: seq<TimeSeries>)
    ensures SeriesOfRows(o, defaults, sanitize, RowsOf(vd), all)
  {
    all := [];
    for j := 0 to |vd.rows|
      invariant |all| == j
      invariant forall k :: 0 <= k < j ==> SeriesOfRow(o, defaults, sanitize, RowsOf(vd)[k], all[k])
    {
      var ts := RowSeries(o, defaults, sanitize, vd, j);
      all := all + [ts];
    }
  }

  /** Series for two runs of rows, side by side. */
  lemma SeriesOfRowsAppend(o: Options, defaults: map<string, DefaultLabel>, sanitize: string -> string,
                           rows: seq<ViewRow>, more: seq<ViewRow>, all: seq<TimeSeries>, ts: seq<TimeSeries>)
    requires SeriesOfRows(o, defaults, sanitize, rows, all) && SeriesOfRows(o, defaults, sanitize, more, ts)
    ensures SeriesOfRows(o, defaults, sanitize, rows + more, all + ts)
  {
    forall k | 0 <= k < |all + ts|
      ensures SeriesOfRow(o, defaults, sanitize, (rows + more)[k], (all + ts)[k])
    {
      if k < |all| {
        assert (rows + more)[k] == rows[k] && (all + ts)[k] == all[k];
      } else {
        assert (rows + more)[k] == more[k - |all|] && (all + ts)[k] == ts[k - |all|];
      }
    }
  }

  /** The body of the row loop: the series of row j of the view data. */
  method RowSeries(o: Options, defaults: map<string, DefaultLabel>, sanitize: string -> string,
                   vd: OC.ViewData, j: nat)
    returns (ts: TimeSeries)
    requires j < |vd.rows|
    ensures SeriesOfRow(o, defaults, sanitize, RowsOf(vd)[j], ts)
  {
    var row := vd.rows[j];
    var labels, fromDefaults := NewLabels(defaults, row.tags, sanitize);
    ts := TimeSeries(Metric(MetricType(o, vd.view), labels), DefaultResource(o),
                     [NewPoint(vd.view, row, vd.start, vd.end)]);
  }

  lemma {:induction false} CombineAllCons(c: seq<TimeSeries>, rest: seq<seq<TimeSeries>>, key: TimeSeries -> string)
    ensures CombineAll([c] + rest, key) == Combine(c, key) + CombineAll(rest, key)
    decreases |rest|
  {
    if rest == [] {
      assert ([c] + rest)[..0] == [];
    } else {
      var init := rest[..|rest| - 1];
      var last := rest[|rest| - 1];
      assert rest == init + [last];
      assert [c] + rest == ([c] + init) + [last];
      CombineAllSnoc([c] + init, last, key);
      CombineAllSnoc(init, last, key);
      CombineAllCons(c, init, key);
    }
  }

  /** The requests makeReq's second loop sends for the series `rest` when
      its accumulator already holds `acc`, step by step. */
  ghost function Run(projectID: string, rest: seq<TimeSeries>, acc: seq<TimeSeries>, limit: int,
                     key: TimeSeries -> string): seq<CreateTimeSeriesRequest>
    decreases |rest|
  {
    if rest == [] then
      (if acc == [] then [] else Requests(projectID, Combine(acc, key)))
    else if |acc + [rest[0]]| == limit then
      Requests(projectID, Combine(acc + [rest[0]], key)) + Run(projectID, rest[1..], [], limit, key)
    else
      Run(projectID, rest[1..], acc + [rest[0]], limit, key)
  }

  /** Stepping the loop through an accumulator that has not filled up yet
      sends the requests of the chunks of what it holds followed by the
      rest. */
  lemma {:induction false} RunIsChunked(projectID: string, rest: seq<TimeSeries>, acc: seq<TimeSeries>, limit: int,
                                       key: TimeSeries -> string)
    requires limit > 0 ==> |acc| < limit
    ensures Run(projectID, rest, acc, limit, key) == Requests(projectID, CombineAll(Chunks(acc + rest, limit), key))
    decreases |rest|
  {
    if rest == [] {
      assert acc + rest == acc;
      if acc != [] {
        var cs: seq<seq<TimeSeries>> := [acc];
        assert Chunks(acc, limit) == cs;
        assert cs[..0] == [];
        assert CombineAll(cs, key) == [] + Combine(acc, key) == Combine(acc, key);
        assert Run(projectID, rest, acc, limit, key) == Requests(projectID, Combine(acc, key));
      } else {
        assert Chunks(acc, limit) == [];
      }
    } else {
      var acc' := acc + [rest[0]];
      assert acc + rest == acc' + rest[1..];
      if |acc'| == limit {
        RunIsChunked(projectID, rest[1..], [], limit, key);
        assert [] + rest[1..] == rest[1..];
        assert (acc' + rest[1..])[..limit] == acc' && (acc' + rest[1..])[limit..] == rest[1..];
        CombineAllCons(acc', Chunks(rest[1..], limit), key);
        RequestsAppend(projectID, Combine(acc', key), CombineAll(Chunks(rest[1..], limit), key));
      } else {
        RunIsChunked(projectID, rest[1..], acc', limit, key);
      }
    }
  }

  lemma RunStep(projectID: string, all: seq<TimeSeries>, i: nat, acc: seq<TimeSeries>, limit: int,
                key: TimeSeries -> string)
    requires i < |all|
    ensures Run(projectID, all[i..], acc, limit, key)
         == if |acc + [all[i]]| == limit
            then Requests(projectID, Combine(acc + [all[i]], key)) + Run(projectID, all[i + 1..], [], limit, key)
            else Run(projectID, all[i + 1..], acc + [all[i]], limit, key)
  {
    assert all[i..][0] == all[i] && all[i..][1..] == all[i + 1..];
  }

  /** The second half of makeReq: fill an accumulator, hand it to the
      combiner each time it reaches `limit`, and the remainder at the end. */
  method ChunkAndCombine(projectID: string, all: seq<TimeSeries>, limit: int, ghost key: TimeSeries -> string)
    returns (reqs: seq<CreateTimeSeriesRequest>)
    requires IsSignature(key)
    ensures reqs == Requests(projectID, CombineAll(Chunks(all, limit), key))
  {
    reqs := [];
    var timeSeries: seq<TimeSeries> := [];
    assert all[0..] == all;
    for i := 0 to |all|
      invariant |timeSeries| <= i && timeSeries == all[i - |timeSeries|..i]
      invariant limit > 0 ==> |timeSeries| < limit
      invariant reqs + Run(projectID, all[i..], timeSeries, limit, key) == Run(projectID, all, [], limit, key)
    {
      RunStep(projectID, all, i, timeSeries, limit, key);
      ghost var start := i - |timeSeries|;
      timeSeries := timeSeries + [all[i]];
      assert timeSeries == all[start..i + 1];
      if |timeSeries| == limit {
        var chunkReqs := CombineTimeSeriesToCreateTimeSeriesRequest(projectID, timeSeries, key);
        ghost var later := Run(projectID, all[i + 1..], [], limit, key);
        assert (reqs + chunkReqs) + later == reqs + (chunkReqs + later);
        reqs := reqs + chunkReqs;
        timeSeries := [];
      }
    }
    assert all[|all|..] == [];
    if |timeSeries| > 0 {
      var chunkReqs := CombineTimeSeriesToCreateTimeSeriesRequest(projectID, timeSeries, key);
      reqs := reqs + chunkReqs;
    } else {
      assert reqs + [] == reqs;
    }
    RunIsChunked(projectID, all, [], limit, key);
    assert [] + all == all;
  }

  /** makeReq: one series per row, then chunks of `limit` combined into
      requests. */
  method MakeReq(o: Options, defaults: map<string, DefaultLabel>, sanitize: string -> string,
                 vds: seq<OC.ViewData>, limit: int)
    returns (reqs: seq<CreateTimeSeriesRequest>, ghost all: seq<TimeSeries>)
    ensures SeriesOfRows(o, defaults, sanitize, AllRows(vds), all)
    ensures reqs == Requests(o.projectID, CombineAll(Chunks(all, limit), Sig))
  {
    var allTimeSeries := BuildTimeSeries(o, defaults, sanitize, vds);
    all := allTimeSeries;
    reqs := ChunkAndCombine(o.projectID, allTimeSeries, limit, Sig);
  }
}
