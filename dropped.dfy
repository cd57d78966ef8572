/** How many series a failed create request dropped, read from the text of
    the monitoring error: the ranges listed after ": timeSeries[" in a
    partial-failure message, or the whole request otherwise. Go's `int` is
    64 bits wide here, so sums wrap around and out-of-range numbers are
    clamped by strconv.Atoi. */
module DroppedSeries {
  import opened Common
  import opened Series

  const WritePrefix := "One or more TimeSeries could not be written:"
  const Marker := ": timeSeries["
  const MaxInt64 := 0x7fff_ffff_ffff_ffff
  const MinInt64 := -0x8000_0000_0000_0000

  // ---------------------------------------------------------------------
  // 64-bit integers

  /** A mathematical integer reduced to Go's 64-bit `int`. */
  function Wrap64(x: int): (r: int)
    ensures MinInt64 <= r <= MaxInt64
    ensures MinInt64 <= x <= MaxInt64 ==> r == x
  {
    (x - MinInt64) % 0x1_0000_0000_0000_0000 + MinInt64
  }

  /** Wrapping after every addition is wrapping once at the end. */
  lemma WrapAdd(a: int, b: int)
    ensures Wrap64(Wrap64(a) + b) == Wrap64(a + b)
  {
    var m := 0x1_0000_0000_0000_0000;
    var q := (a - MinInt64) / m;
    assert a - MinInt64 == q * m + (a - MinInt64) % m;
    assert Wrap64(a) + b - MinInt64 == (a + b - MinInt64) - q * m;
    ModShift(a + b - MinInt64, q, m);
  }

  /** Summing with a wrap after every element is summing and wrapping once. */
  lemma WrapSumSnoc<T>(xs: seq<T>, x: T, f: T -> int)
    ensures Wrap64(Wrap64(SumOf(xs, f)) + f(x)) == Wrap64(SumOf(xs + [x], f))
  {
    SumOfSnoc(xs, x, f);
    WrapAdd(SumOf(xs, f), f(x));
  }

  lemma ModShift(x: int, q: int, m: int)
    requires m > 0
    ensures (x - q * m) % m == x % m
  {
    var r := x % m;
    var d := x / m;
    assert x == d * m + r;
    assert x - q * m == (d - q) * m + r;
    ModUnique(x - q * m, d - q, r, m);
  }

  lemma ModUnique(y: int, k: int, r: int, m: int)
    requires m > 0 && 0 <= r < m && y == k * m + r
    ensures y % m == r
  {
    var k' := y / m;
    var r' := y % m;
    assert y == k' * m + r';
    if k' < k {
      assert (k - k') * m == r' - r;
      assert (k - k') * m >= m by { MulAtLeast(k - k', m); }
    } else if k' > k {
      assert (k' - k) * m == r - r';
      assert (k' - k) * m >= m by { MulAtLeast(k' - k, m); }
    }
  }

  lemma MulAtLeast(a: int, m: int)
    requires a >= 1 && m > 0
    ensures a * m >= m
  {
  }

  // ---------------------------------------------------------------------
  // strings.Split and strconv.Atoi

  /** strings.Split with a one-character separator: the pieces between
      separators, at least one. */
  function Split(s: string, sep: char): (r: seq<string>)
    ensures |r| >= 1
    ensures forall i :: 0 <= i < |r| ==> sep !in r[i]
  {
    if s == [] then [""]
    else
      var rest := Split(s[1..], sep);
      if s[0] == sep then [""] + rest else [[s[0]] + rest[0]] + rest[1..]
  }

  /** Joining the pieces back with the separator gives the input. */
  lemma {:induction false} SplitJoin(s: string, sep: char)
    ensures Join(Split(s, sep), [sep]) == s
  {
    if s != [] {
      var rest := Split(s[1..], sep);
      SplitJoin(s[1..], sep);
      if s[0] == sep {
        assert Join([""] + rest, [sep]) == "" + [sep] + Join(rest, [sep]) by {
          assert ([""] + rest)[1..] == rest;
        }
      } else {
        JoinHead(rest, [s[0]], [sep]);
      }
    }
  }

  /** Prepending to the first part prepends to the joined text. */
  lemma JoinHead(parts: seq<string>, x: string, sep: string)
    requires |parts| >= 1
    ensures Join([x + parts[0]] + parts[1..], sep) == x + Join(parts, sep)
  {
    var p := [x + parts[0]] + parts[1..];
    if |parts| > 1 {
      assert p[1..] == parts[1..];
    }
  }

  /** Splitting joined pieces that hold no separator gives the pieces back. */
  lemma {:induction false} JoinSplit(parts: seq<string>, sep: char)
    requires |parts| >= 1
    requires forall i :: 0 <= i < |parts| ==> sep !in parts[i]
    ensures Split(Join(parts, [sep]), sep) == parts
    decreases |parts|, |parts[0]|
  {
    var s := Join(parts, [sep]);
    if parts[0] == [] {
      if |parts| > 1 {
        assert s == [sep] + Join(parts[1..], [sep]);
        assert s[1..] == Join(parts[1..], [sep]);
        JoinSplit(parts[1..], sep);
        assert parts == [""] + parts[1..];
      }
    } else {
      var tail := [parts[0][1..]] + parts[1..];
      JoinHead(tail, [parts[0][0]], [sep]);
      assert [[parts[0][0]] + tail[0]] + tail[1..] == parts by {
        assert [parts[0][0]] + parts[0][1..] == parts[0];
        assert tail[1..] == parts[1..];
      }
      assert s == [parts[0][0]] + Join(tail, [sep]);
      assert s[1..] == Join(tail, [sep]);
      assert forall i :: 0 <= i < |tail| ==> sep !in tail[i] by {
        assert forall c :: c in parts[0][1..] ==> c in parts[0];
      }
      JoinSplit(tail, sep);
      assert s[0] == parts[0][0] != sep;
      assert tail[0] == parts[0][1..] && tail[1..] == parts[1..];
    }
  }

  predicate IsDigit(c: char) {
    '0' <= c <= '9'
  }

  /** A non-empty run of decimal digits, the regular expression [0-9]+. */
  predicate AllDigits(s: string) {
    |s| > 0 && forall i :: 0 <= i < |s| ==> IsDigit(s[i])
  }

  /** The number a string of digits denotes. */
  function Value(s: string): nat
    requires forall i :: 0 <= i < |s| ==> IsDigit(s[i])
  {
    if s == [] then 0
    else
      assert IsDigit(s[|s| - 1]);
      Value(s[..|s| - 1]) * 10 + (s[|s| - 1] as int - '0' as int)
  }

  lemma {:induction false} DecimalDigits(n: nat)
    ensures AllDigits(Decimal(n))
    ensures '-' !in Decimal(n) && ',' !in Decimal(n)
    ensures Value(Decimal(n)) == n
    decreases n
  {
    var d := [('0' as int + n % 10) as char];
    if n >= 10 {
      DecimalDigits(n / 10);
      var s := Decimal(n / 10) + d;
      assert s[..|s| - 1] == Decimal(n / 10);
    }
  }

  /** strconv.Atoi on a string of digits: its value, clamped to the
      largest 64-bit integer as ParseInt reports out-of-range input. */
  function Atoi(s: string): (r: int)
    requires AllDigits(s)
    ensures 0 <= r <= MaxInt64
    ensures Value(s) <= MaxInt64 ==> r == Value(s)
  {
    if Value(s) > MaxInt64 then MaxInt64 else Value(s)
  }

  // ---------------------------------------------------------------------
  // The regular expression
  //   : timeSeries\[([0-9]+(?:-[0-9]+)?(?:,[0-9]+(?:-[0-9]+)?)*)\]

  /** One element of the list: N or N-N. */
  predicate IsRange(r: string) {
    var ends := Split(r, '-');
    AllDigits(ends[0]) && (|ends| == 1 || (|ends| == 2 && AllDigits(ends[1])))
  }

  /** The captured group: ranges separated by commas. */
  predicate IsRangeList(g: string) {
    var parts := Split(g, ',');
    forall k :: 0 <= k < |parts| ==> IsRange(parts[k])
  }

  /** A character the captured group may hold. */
  predicate InGroup(c: char) {
    IsDigit(c) || c == ',' || c == '-'
  }

  /** The end of the longest run of group characters from p. A match's
      group must end right before a ']', which is not a group character, so
      it ends exactly here. */
  function RunEnd(s: string, p: nat): (j: nat)
    requires p <= |s|
    ensures p <= j <= |s|
    ensures forall k :: p <= k < j ==> InGroup(s[k])
    ensures j < |s| ==> !InGroup(s[j])
    decreases |s| - p
  {
    if p < |s| && InGroup(s[p]) then RunEnd(s, p + 1) else p
  }

  /** The literal part of the expression starts at position i. */
  predicate MarkerAt(s: string, i: nat) {
    i + |Marker| <= |s| && s[i..i + |Marker|] == Marker
  }

  /** The text holds the marker nowhere. */
  ghost predicate NoMarker(s: string) {
    forall k: nat :: !MarkerAt(s, k)
  }

  /** The expression matches at position i. */
  predicate MatchAt(s: string, i: nat) {
    && MarkerAt(s, i)
    && var j := RunEnd(s, i + |Marker|);
       j < |s| && s[j] == ']' && IsRangeList(s[i + |Marker|..j])
  }

  /** FindAllStringSubmatch(s, -1), reduced to the captured groups: the
      leftmost match from `from`, then the matches after it. */
  function Groups(s: string, from: nat): (r: seq<string>)
    requires from <= |s|
    ensures forall k :: 0 <= k < |r| ==> IsRangeList(r[k])
    decreases |s| - from
  {
    if from == |s| then []
    else if MatchAt(s, from) then
      var j := RunEnd(s, from + |Marker|);
      [s[from + |Marker|..j]] + Groups(s, j + 1)
    else Groups(s, from + 1)
  }

  // ---------------------------------------------------------------------
  // Counting

  /** max - min + 1 for one range, min standing for max when it is alone. */
  function RangeCount(r: string): int
    requires IsRange(r)
  {
    var ends := Split(r, '-');
    var min := Atoi(ends[0]);
    var max := if |ends| > 1 then Atoi(ends[1]) else min;
    max - min + 1
  }

  function ListCount(parts: seq<string>): int
    requires forall k :: 0 <= k < |parts| ==> IsRange(parts[k])
  {
    if parts == [] then 0
    else
      assert IsRange(parts[|parts| - 1]);
      ListCount(parts[..|parts| - 1]) + RangeCount(parts[|parts| - 1])
  }

  function GroupsCount(groups: seq<string>): int
    requires forall k :: 0 <= k < |groups| ==> IsRangeList(groups[k])
  {
    if groups == [] then 0
    else
      assert IsRangeList(groups[|groups| - 1]);
      GroupsCount(groups[..|groups| - 1]) + ListCount(Split(groups[|groups| - 1], ','))
  }

  /** What droppedTimeSeriesFromMonitoringAPIError computes: the whole
      request unless the message is a partial failure listing ranges, and
      then the wrapped sum of the ranges' sizes. */
  function DroppedCount(req: CreateTimeSeriesRequest, msg: string): int {
    var groups := Groups(msg, 0);
    if !HasPrefix(msg, WritePrefix) || |groups| == 0 then |req.timeSeries|
    else Wrap64(GroupsCount(groups))
  }

  /** droppedTimeSeriesFromMonitoringAPIError: the regular expression's
      matches, then each match's ranges, each adding max - min + 1. */
  method DroppedTimeSeriesFromMonitoringAPIError(req: CreateTimeSeriesRequest, msg: string) returns (dropped: int)
    ensures dropped == DroppedCount(req, msg)
  {
    var matches := Groups(msg, 0);
    if !HasPrefix(msg, WritePrefix) || |matches| == 0 {
      return |req.timeSeries|;
    }
    dropped := 0;
    for m := 0 to |matches|
      invariant dropped == Wrap64(GroupsCount(matches[..m]))
    {
      var parts := Split(matches[m], ',');
      var sum := RangesSum(parts);
      GroupsCountStep(matches, m, dropped, sum);
      dropped := Wrap64(dropped + sum);
    }
    assert matches[..|matches|] == matches;
  }

  /** The inner loop over one match's ranges, before the 64-bit wrap. */
  method RangesSum(parts: seq<string>) returns (sum: int)
    requires forall k :: 0 <= k < |parts| ==> IsRange(parts[k])
    ensures sum == ListCount(parts)
  {
    sum := 0;
    for k := 0 to |parts|
      invariant sum == ListCount(parts[..k])
    {
      var rngSlice := Split(parts[k], '-');
      var min := Atoi(rngSlice[0]);
      var max := min;
      if |rngSlice| > 1 {
        max := Atoi(rngSlice[1]);
      }
      sum := sum + (max - min + 1);
      assert parts[..k + 1][..k] == parts[..k];
    }
    assert parts[..|parts|] == parts;
  }

  lemma GroupsCountStep(groups: seq<string>, m: nat, before: int, sum: int)
    requires m < |groups| && forall k :: 0 <= k < |groups| ==> IsRangeList(groups[k])
    requires IsRangeList(groups[m]) && before == Wrap64(GroupsCount(groups[..m])) && sum == ListCount(Split(groups[m], ','))
    ensures Wrap64(before + sum) == Wrap64(GroupsCount(groups[..m + 1]))
  {
    assert groups[..m + 1][..m] == groups[..m];
    WrapAdd(GroupsCount(groups[..m]), ListCount(Split(groups[m], ',')));
  }

  // ---------------------------------------------------------------------
  // Properties

  /** An error that is not a partial failure, or lists no ranges, drops the
      whole request. */
  lemma DroppedFallback(req: CreateTimeSeriesRequest, msg: string)
    requires !HasPrefix(msg, WritePrefix) || Groups(msg, 0) == []
    ensures DroppedCount(req, msg) == |req.timeSeries|
  {
  }

  /** One range as the monitoring service writes it. */
  datatype Span = Single(n: nat) | Between(lo: nat, hi: nat)

  function FormatSpan(sp: Span): string {
    match sp
    case Single(n) => Decimal(n)
    case Between(lo, hi) => Decimal(lo) + "-" + Decimal(hi)
  }

  function FormatParts(spans: seq<Span>): (r: seq<string>)
    ensures |r| == |spans| && forall i :: 0 <= i < |spans| ==> r[i] == FormatSpan(spans[i])
  {
    if spans == [] then [] else FormatParts(spans[..|spans| - 1]) + [FormatSpan(spans[|spans| - 1])]
  }

  /** The ranges, separated by commas. */
  function FormatSpans(spans: seq<Span>): string {
    Join(FormatParts(spans), ",")
  }

  /** How many series a range names, as the exporter counts them. */
  function SpanCount(sp: Span): int {
    match sp
    case Single(_) => 1
    case Between(lo, hi) => hi - lo + 1
  }

  function SpanTotal(spans: seq<Span>): int {
    if spans == [] then 0 else SpanTotal(spans[..|spans| - 1]) + SpanCount(spans[|spans| - 1])
  }

  predicate SpanFits(sp: Span) {
    match sp
    case Single(n) => n <= MaxInt64
    case Between(lo, hi) => lo <= MaxInt64 && hi <= MaxInt64
  }

  lemma FormatSpanSound(sp: Span)
    requires SpanFits(sp)
    ensures ',' !in FormatSpan(sp)
    ensures forall c :: c in FormatSpan(sp) ==> InGroup(c)
    ensures IsRange(FormatSpan(sp)) && RangeCount(FormatSpan(sp)) == SpanCount(sp)
  {
    match sp
    case Single(n) =>
      DecimalDigits(n);
      JoinSplit([Decimal(n)], '-');
    case Between(lo, hi) =>
      DecimalDigits(lo);
      DecimalDigits(hi);
      assert Join([Decimal(lo), Decimal(hi)], "-") == FormatSpan(sp);
      JoinSplit([Decimal(lo), Decimal(hi)], '-');
  }

  lemma {:induction false} ListCountSpans(spans: seq<Span>)
    requires forall k :: 0 <= k < |spans| ==> SpanFits(spans[k])
    ensures forall k :: 0 <= k < |spans| ==> IsRange(FormatSpan(spans[k]))
    ensures ListCount(FormatParts(spans)) == SpanTotal(spans)
  {
    forall k | 0 <= k < |spans| ensures IsRange(FormatSpan(spans[k])) {
      FormatSpanSound(spans[k]);
    }
    if spans != [] {
      ListCountSpans(spans[..|spans| - 1]);
      FormatSpanSound(spans[|spans| - 1]);
      assert FormatParts(spans)[..|spans| - 1] == FormatParts(spans[..|spans| - 1]);
    }
  }

  /** Joined text holds only characters its parts and the separator hold. */
  lemma {:induction false} JoinChars(parts: seq<string>, sep: string, c: char)
    requires c in Join(parts, sep)
    ensures c in sep || exists k :: 0 <= k < |parts| && c in parts[k]
  {
    if |parts| > 1 {
      if c !in parts[0] && c !in sep {
        JoinChars(parts[1..], sep, c);
        var k :| 0 <= k < |parts[1..]| && c in parts[1..][k];
        assert c in parts[k + 1];
      }
    }
  }

  /** The formatted ranges make a capturable group. */
  lemma FormatSpansSound(spans: seq<Span>)
    requires spans != [] && forall k :: 0 <= k < |spans| ==> SpanFits(spans[k])
    ensures forall c :: c in FormatSpans(spans) ==> InGroup(c)
    ensures IsRangeList(FormatSpans(spans))
    ensures GroupsCount([FormatSpans(spans)]) == SpanTotal(spans)
  {
    var parts := FormatParts(spans);
    ListCountSpans(spans);
    forall k | 0 <= k < |parts| ensures ',' !in parts[k] && forall c :: c in parts[k] ==> InGroup(c) {
      FormatSpanSound(spans[k]);
    }
    forall c | c in FormatSpans(spans) ensures InGroup(c) {
      JoinChars(parts, ",", c);
    }
    JoinSplit(parts, ',');
    var g: seq<string> := [FormatSpans(spans)];
    assert g[..0] == [];
  }

  lemma FormatSpansCount(spans: seq<Span>)
    requires spans != [] && forall k :: 0 <= k < |spans| ==> SpanFits(spans[k])
    ensures IsRangeList(FormatSpans(spans)) && GroupsCount([FormatSpans(spans)]) == SpanTotal(spans)
  {
    FormatSpansSound(spans);
  }

  /** No match can start before a marker that follows text without one:
      a marker overlapping the real one would need a second ':' in it. */
  lemma NoEarlyMatch(pt: string, rest: string, k: nat)
    requires NoMarker(pt) && k < |pt|
    ensures !MarkerAt(pt + Marker + rest, k)
  {
    var s := pt + Marker + rest;
    if k + |Marker| <= |pt| {
      assert s[k..k + |Marker|] == pt[k..k + |Marker|];
      assert !MarkerAt(pt, k);
    } else if k + |Marker| <= |s| {
      var d := |pt| - k;
      assert s[k..k + |Marker|][d] == s[|pt|] == ':';
      assert Marker[d] in Marker[1..];
    }
  }

  /** Positions without a match are skipped. */
  lemma {:induction false} GroupsSkip(s: string, from: nat, to: nat)
    requires from <= to <= |s|
    requires forall k: nat :: from <= k < to ==> !MarkerAt(s, k)
    ensures Groups(s, from) == Groups(s, to)
    decreases (to as int) - (from as int)
  {
    if from < to {
      GroupsSkip(s, from + 1, to);
    }
  }

  /** After the last match nothing more is found. */
  lemma GroupsNone(s: string, from: nat)
    requires from <= |s| && NoMarker(s[from..])
    ensures Groups(s, from) == []
  {
    forall k: nat | from <= k < |s| ensures !MarkerAt(s, k) {
      assert MarkerAt(s[from..], k - from) == MarkerAt(s, k);
    }
    GroupsSkip(s, from, |s|);
  }

  lemma RunEndAt(s: string, p: nat, q: nat)
    requires p <= q < |s|
    requires forall k :: p <= k < q ==> InGroup(s[k])
    requires !InGroup(s[q])
    ensures RunEnd(s, p) == q
    decreases q - p
  {
    if p < q {
      RunEndAt(s, p + 1, q);
    }
  }

  /** The expression matches where the marker is followed by a group
      and a ']'. */
  lemma MatchHere(s: string, i: nat, f: string)
    requires MarkerAt(s, i) && i + |Marker| + |f| < |s|
    requires s[i + |Marker|..i + |Marker| + |f|] == f && s[i + |Marker| + |f|] == ']'
    requires IsRangeList(f) && forall c :: c in f ==> InGroup(c)
    ensures MatchAt(s, i) && RunEnd(s, i + |Marker|) == i + |Marker| + |f|
  {
    var p := i + |Marker|;
    forall k | p <= k < p + |f| ensures InGroup(s[k]) {
      assert s[k] == f[k - p];
    }
    RunEndAt(s, p, p + |f|);
  }

  lemma GroupsAtMatch(s: string, i: nat)
    requires i < |s| && MatchAt(s, i)
    ensures Groups(s, i) == [s[i + |Marker|..RunEnd(s, i + |Marker|)]] + Groups(s, RunEnd(s, i + |Marker|) + 1)
  {
  }

  /** The search reaches the first marker without finding anything. */
  lemma GroupsFromMarker(pt: string, rest: string)
    requires NoMarker(pt)
    ensures Groups(pt + Marker + rest, 0) == Groups(pt + Marker + rest, |pt|)
  {
    forall k: nat | k < |pt| ensures !MarkerAt(pt + Marker + rest, k) {
      NoEarlyMatch(pt, rest, k);
    }
    GroupsSkip(pt + Marker + rest, 0, |pt|);
  }

  /** At the marker, the group is found, and nothing after it. */
  lemma GroupsAtMarker(s: string, i: nat, f: string, tail: string)
    requires i + |Marker| + |f| + 1 + |tail| == |s|
    requires MarkerAt(s, i) && s[i + |Marker|..i + |Marker| + |f|] == f
    requires s[i + |Marker| + |f|] == ']' && s[i + |Marker| + |f| + 1..] == tail
    requires IsRangeList(f) && forall c :: c in f ==> InGroup(c)
    requires NoMarker(tail)
    ensures Groups(s, i) == [f]
  {
    MatchHere(s, i, f);
    GroupsAtMatch(s, i);
    GroupsNone(s, i + |Marker| + |f| + 1);
  }

  /** The one match in a message whose only marker comes before the group. */
  lemma GroupsOfMessage(pt: string, f: string, tail: string)
    requires NoMarker(pt) && NoMarker(tail)
    requires IsRangeList(f) && forall c :: c in f ==> InGroup(c)
    ensures Groups(pt + Marker + f + "]" + tail, 0) == [f]
  {
    var rest := f + "]" + tail;
    var s := pt + Marker + rest;
    assert s == pt + Marker + f + "]" + tail;
    GroupsFromMarker(pt, rest);
    var p := |pt| + |Marker|;
    assert s[|pt|..p] == Marker;
    assert s[p..p + |f|] == f;
    assert s[p + |f|] == ']';
    assert s[p + |f| + 1..] == tail;
    GroupsAtMarker(s, |pt|, f, tail);
  }

  /** A partial-failure message listing one set of ranges: the count is the
      (wrapped) total of the ranges' sizes, and so exactly the number of
      series listed whenever that fits in 64 bits. */
  lemma {:induction false} DroppedFromRanges(req: CreateTimeSeriesRequest, msg: string, text: string, spans: seq<Span>, tail: string)
    requires spans != [] && forall k :: 0 <= k < |spans| ==> SpanFits(spans[k])
    requires NoMarker(WritePrefix + text) && NoMarker(tail)
    requires msg == WritePrefix + text + Marker + FormatSpans(spans) + "]" + tail
    ensures DroppedCount(req, msg) == Wrap64(SpanTotal(spans))
    ensures 0 <= SpanTotal(spans) <= MaxInt64 ==> DroppedCount(req, msg) == SpanTotal(spans)
  {
    MessageGroups(msg, text, spans, tail);
    DroppedOneGroup(req, msg, spans);
  }

  lemma MessageGroups(msg: string, text: string, spans: seq<Span>, tail: string)
    requires spans != [] && forall k :: 0 <= k < |spans| ==> SpanFits(spans[k])
    requires NoMarker(WritePrefix + text) && NoMarker(tail)
    requires msg == WritePrefix + text + Marker + FormatSpans(spans) + "]" + tail
    ensures HasPrefix(msg, WritePrefix) && Groups(msg, 0) == [FormatSpans(spans)]
  {
    var f := FormatSpans(spans);
    FormatSpansSound(spans);
    GroupsOfMessage(WritePrefix + text, f, tail);
    PrefixConcat(WritePrefix, text, Marker, f, "]", tail);
  }

  lemma PrefixConcat(a: string, b: string, c: string, d: string, e: string, g: string)
    ensures HasPrefix(a + b + c + d + e + g, a)
  {
    assert (a + b + c + d + e + g)[..|a|] == a;
  }

  lemma DroppedOneGroup(req: CreateTimeSeriesRequest, msg: string, spans: seq<Span>)
    requires spans != [] && forall k :: 0 <= k < |spans| ==> SpanFits(spans[k])
    requires HasPrefix(msg, WritePrefix) && Groups(msg, 0) == [FormatSpans(spans)]
    ensures DroppedCount(req, msg) == Wrap64(SpanTotal(spans))
  {
    FormatSpansCount(spans);
  }

  /** The example "timeSeries[0-3,7]": four series and one more. */
  lemma {:induction false} DroppedExample(req: CreateTimeSeriesRequest, msg: string, text: string, tail: string)
    requires NoMarker(WritePrefix + text) && NoMarker(tail)
    requires msg == WritePrefix + text + Marker + "0-3,7" + "]" + tail
    ensures FormatSpans([Between(0, 3), Single(7)]) == "0-3,7"
    ensures DroppedCount(req, msg) == 5
  {
    var spans := [Between(0, 3), Single(7)];
    assert Decimal(0) == "0" && Decimal(3) == "3" && Decimal(7) == "7";
    assert FormatSpan(spans[0]) == "0-3" && FormatSpan(spans[1]) == "7";
    var parts := FormatParts(spans);
    assert parts[0] == "0-3" && parts[1] == "7";
    assert parts == ["0-3", "7"];
    DroppedFromRanges(req, msg, text, spans, tail);
    assert SpanTotal(spans) == 5 by {
      assert spans[..1] == [Between(0, 3)];
      assert spans[..1][..0] == [];
    }
  }
}
