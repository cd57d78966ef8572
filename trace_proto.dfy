/** Conversion of a finished trace span into the Cloud Trace wire span:
    bounded truncation of strings, int32 clamping, attribute copying with
    renames and a key-length limit, resource labels as attributes, the
    agent label, and capped annotation and message-event lists with
    dropped counters. Strings are Go strings, that is bytes. */
module TraceProto {
  import opened Common
  import opened Utf8

  type Bytes = seq<byte>

  const MaxAnnotationEventsPerSpan := 32
  const MaxMessageEventsPerSpan := 128
  const MaxAttributeStringValue := 256
  /** The display-name limit and the attribute-key limit. */
  const MaxDisplayName := 128
  const MaxAttributeKey := 128

  const MinInt32 := -0x8000_0000
  const MaxInt32 := 0x7fff_ffff

  /** An ASCII literal as the bytes of a Go string. */
  function Ascii(s: string): (b: Bytes)
    ensures |b| == |s|
  {
    seq(|s|, i requires 0 <= i < |s| => (s[i] as int) % 256)
  }

  const AgentLabel: Bytes := Ascii("g.co/agent")
  const LabelHTTPHost: Bytes := Ascii("/http/host")
  const LabelHTTPMethod: Bytes := Ascii("/http/method")
  const LabelHTTPStatusCode: Bytes := Ascii("/http/status_code")
  const LabelHTTPPath: Bytes := Ascii("/http/path")
  const LabelHTTPUserAgent: Bytes := Ascii("/http/user_agent")

  /** The attribute keys the HTTP plugin sets. */
  const PathAttribute: Bytes := Ascii("http.path")
  const HostAttribute: Bytes := Ascii("http.host")
  const MethodAttribute: Bytes := Ascii("http.method")
  const UserAgentAttribute: Bytes := Ascii("http.user_agent")
  const StatusCodeAttribute: Bytes := Ascii("http.status_code")

  // ---------------------------------------------------------------------
  // clip32 and trunc

  /** clip32: an int clamped to the int32 range. */
  function Clip32(x: int): (r: int)
    ensures MinInt32 <= r <= MaxInt32
    ensures MinInt32 <= x <= MaxInt32 ==> r == x
    ensures x < MinInt32 ==> r == MinInt32
    ensures x > MaxInt32 ==> r == MaxInt32
  {
    if x < MinInt32 then MinInt32
    else if x > MaxInt32 then MaxInt32
    else x
  }

  /** A Cloud Trace string: the kept bytes and how many were cut off. */
  datatype TruncatableString = TruncatableString(value: Bytes, truncatedByteCount: int)

  /** The bytes trunc keeps of a cut string: trailing bytes are dropped
      while they do not end in a whole rune. The result is the longest
      prefix whose end is not broken. */
  function Trimmed(b: Bytes): (r: Bytes)
    ensures |r| <= |b| && r == b[..|r|]
    ensures !BrokenEnd(r)
    ensures forall n :: |r| < n <= |b| ==> BrokenEnd(b[..n])
    decreases |b|
  {
    if BrokenEnd(b) then
      var r := Trimmed(b[..|b| - 1]);
      assert b[..|b| - 1][..|r|] == b[..|r|];
      assert forall n :: |r| < n < |b| ==> b[..|b| - 1][..n] == b[..n];
      assert b[..|b|] == b;
      r
    else b
  }

  /** trunc as a value: s itself when it fits, otherwise the trimmed first
      `limit` bytes and the number of bytes cut. */
  function TruncOf(s: Bytes, limit: nat): (t: TruncatableString)
    ensures |s| <= limit ==> t == TruncatableString(s, 0)
    ensures |s| > limit ==>
              && |t.value| <= limit && t.value == s[..|t.value|]
              && !BrokenEnd(t.value)
              && t.truncatedByteCount == Clip32(|s| - |t.value|)
    ensures |s| > limit ==> forall n :: |t.value| < n <= limit ==> BrokenEnd(s[..n])
  {
    if |s| > limit then
      var v := Trimmed(s[..limit]);
      assert forall n :: 0 <= n <= limit ==> s[..limit][..n] == s[..n];
      TruncatableString(v, Clip32(|s| - |v|))
    else TruncatableString(s, 0)
  }

  /** trunc: the byte prefix shrinks one byte at a time while its last
      rune is malformed. */
  method Trunc(s: Bytes, limit: nat) returns (t: TruncatableString)
    ensures t == TruncOf(s, limit)
  {
    if |s| > limit {
      var b := s[..limit];
      while BrokenEnd(b)
        invariant Trimmed(b) == Trimmed(s[..limit])
        decreases |b|
      {
        b := b[..|b| - 1];
      }
      return TruncatableString(b, Clip32(|s| - |b|));
    }
    return TruncatableString(s, 0);
  }

  /** A cut that falls after an ASCII byte keeps exactly `limit` bytes. */
  lemma TruncAfterAscii(s: Bytes, limit: nat)
    requires 0 < limit < |s| && s[limit - 1] < RuneSelf
    ensures TruncOf(s, limit) == TruncatableString(s[..limit], Clip32(|s| - limit))
  {
    AsciiEndNotBroken(s[..limit]);
  }

  /** A cut that falls right after a whole multi-byte rune keeps it. */
  lemma TruncAfterWholeRune(s: Bytes, limit: nat, w: nat)
    requires limit < |s| && 2 <= w <= limit
    requires DecodeRune(s[limit - w..limit]).size == w
    ensures TruncOf(s, limit).value == s[..limit]
  {
    assert s[..limit] == s[..limit - w] + s[limit - w..limit];
    WholeRuneNotBroken(s[..limit - w], s[limit - w..limit]);
  }

  /** "aé" cut at two bytes: the first byte of é is dropped too, and two
      bytes are reported cut. */
  lemma TruncSplitRuneExample()
    ensures TruncOf([0x61, 0xC3, 0xA9], 2) == TruncatableString([0x61], 2)
  {
    var b: Bytes := [0x61, 0xC3];
    assert ScanBack(b, 0, 0) == 0;
    assert DecodeRune(b[0..]) == Decoded(0x61, 1);
    assert BrokenEnd(b);
    assert b[..1] == [0x61];
    AsciiEndNotBroken([0x61]);
    assert [0x61, 0xC3, 0xA9][..2] == b;
  }

  // ---------------------------------------------------------------------
  // Attribute values

  /** A dynamically typed attribute value; a float arrives with its
      shortest decimal text. */
  datatype AttrInput =
    | BoolInput(b: bool)
    | Int64Input(i: int)
    | Float64Input(text: Bytes)
    | StringInput(s: Bytes)
    | OtherInput

  datatype AttributeValue =
    | BoolValue(boolValue: bool)
    | IntValue(intValue: int)
    | StringValue(stringValue: TruncatableString)

  /** A value of a type attributeValue supports. */
  predicate Usable(v: AttrInput) {
    !v.OtherInput?
  }

  /** attributeValue: booleans and integers as they are, floats and strings
      as strings of at most 256 bytes, anything else absent. */
  function AttributeValueOf(v: AttrInput): (r: Option<AttributeValue>)
    ensures r.Some? <==> Usable(v)
    ensures r.Some? && r.value.StringValue? ==> |r.value.stringValue.value| <= MaxAttributeStringValue
    ensures v.StringInput? ==>
              && r.value.StringValue?
              && |r.value.stringValue.value| <= |v.s|
              && r.value.stringValue.value == v.s[..|r.value.stringValue.value|]
  {
    match v
    case BoolInput(b) => Some(BoolValue(b))
    case Int64Input(i) => Some(IntValue(i))
    case Float64Input(text) => Some(StringValue(TruncOf(text, MaxAttributeStringValue)))
    case StringInput(s) => Some(StringValue(TruncOf(s, MaxAttributeStringValue)))
    case OtherInput => None
  }

  /** The key under which copyAttributes stores an attribute: the five HTTP
      keys renamed, any other key as it is unless it is over 128 bytes. */
  function Target(key: Bytes): (r: Option<Bytes>)
    ensures r.Some? ==> |r.value| <= MaxAttributeKey
    ensures r.None? ==> |key| > MaxAttributeKey
  {
    if key == PathAttribute then Some(LabelHTTPPath)
    else if key == HostAttribute then Some(LabelHTTPHost)
    else if key == MethodAttribute then Some(LabelHTTPMethod)
    else if key == UserAgentAttribute then Some(LabelHTTPUserAgent)
    else if key == StatusCodeAttribute then Some(LabelHTTPStatusCode)
    else if |key| > MaxAttributeKey then None
    else Some(key)
  }

  /** A span's attribute map and its dropped-attribute count. */
  datatype Attributes = Attributes(attributeMap: map<Bytes, AttributeValue>, droppedAttributesCount: int)

  /** The map of possibly absent attributes, empty when absent. */
  function MapOf(a: Option<Attributes>): map<Bytes, AttributeValue> {
    if a.Some? then a.value.attributeMap else map[]
  }

  /** What copyAttributes does with one attribute: ignore it for its value
      type, count it as dropped for its key, or store a value under a key. */
  datatype Placement = Unsupported | Dropped | Stored(target: Bytes, value: AttributeValue)

  function PlacementOf(key: Bytes, v: AttrInput): (p: Placement)
    ensures p.Unsupported? <==> !Usable(v)
    ensures p.Dropped? ==> |key| > MaxAttributeKey
    ensures p.Stored? ==> |p.target| <= MaxAttributeKey && Target(key) == Some(p.target)
  {
    var av := AttributeValueOf(v);
    if av.None? then Unsupported
    else
      match Target(key)
      case None => Dropped
      case Some(t) => Stored(t, av.value)
  }

  /** The placement of every input attribute. */
  ghost function Plan(input: map<Bytes, AttrInput>): (plan: map<Bytes, Placement>)
    ensures plan.Keys == input.Keys
  {
    map key | key in input :: PlacementOf(key, input[key])
  }

  /** Input key `key`, among those visited, is stored under `k`. */
  ghost predicate Writes(plan: map<Bytes, Placement>, done: set<Bytes>, key: Bytes, k: Bytes) {
    key in done && key in plan && plan[key].Stored? && plan[key].target == k
  }

  /** The keys written for the visited input keys. */
  ghost function Targets(plan: map<Bytes, Placement>, done: set<Bytes>): set<Bytes> {
    set key | key in done && key in plan && plan[key].Stored? :: plan[key].target
  }

  /** The visited input keys dropped for being too long. */
  ghost function DroppedIn(plan: map<Bytes, Placement>, done: set<Bytes>): set<Bytes> {
    set key | key in done && key in plan && plan[key].Dropped?
  }

  /** `after` is `before` with, for each written key, the value of one input
      key that writes there (`writer` names it: Go visits the map in no fixed
      order, so when two input keys land on one key either may win). */
  ghost predicate CopiedFrom(before: map<Bytes, AttributeValue>, plan: map<Bytes, Placement>, done: set<Bytes>,
                             after: map<Bytes, AttributeValue>, writer: map<Bytes, Bytes>) {
    && writer.Keys == Targets(plan, done)
    && after.Keys == before.Keys + writer.Keys
    && (forall k :: k in writer ==> Writes(plan, done, writer[k], k) && after[k] == plan[writer[k]].value)
    && (forall k :: k in after && k !in writer ==> after[k] == before[k])
  }

  /** What copyAttributes leaves in `res` when asked to copy `input` into
      `out`: nothing changes for an empty input; otherwise the attributes
      exist, hold the copied values and count the keys dropped. */
  ghost predicate CopyResult(out: Option<Attributes>, input: map<Bytes, AttrInput>, res: Option<Attributes>) {
    if |input| == 0 then res == out
    else
      && res.Some?
      && res.value.droppedAttributesCount == |DroppedIn(Plan(input), input.Keys)|
      && exists writer :: CopiedFrom(MapOf(out), Plan(input), input.Keys, res.value.attributeMap, writer)
  }

  lemma TargetsStep(plan: map<Bytes, Placement>, done: set<Bytes>, key: Bytes)
    requires key in plan && key !in done
    ensures Targets(plan, done + {key}) ==
              Targets(plan, done) + (if plan[key].Stored? then {plan[key].target} else {})
    ensures DroppedIn(plan, done + {key}) ==
              DroppedIn(plan, done) + (if plan[key].Dropped? then {key} else {})
  {
  }

  /** Visiting a key that writes nothing keeps the copy as it is. */
  lemma CopySkip(before: map<Bytes, AttributeValue>, plan: map<Bytes, Placement>, done: set<Bytes>,
                 m: map<Bytes, AttributeValue>, writer: map<Bytes, Bytes>, key: Bytes)
    requires key in plan && key !in done && !plan[key].Stored?
    requires CopiedFrom(before, plan, done, m, writer)
    ensures CopiedFrom(before, plan, done + {key}, m, writer)
  {
    TargetsStep(plan, done, key);
    forall k | k in writer
      ensures Writes(plan, done + {key}, writer[k], k)
    {
    }
  }

  /** Visiting a key that writes stores its value under its target. */
  lemma CopyWrite(before: map<Bytes, AttributeValue>, plan: map<Bytes, Placement>, done: set<Bytes>,
                  m: map<Bytes, AttributeValue>, writer: map<Bytes, Bytes>, key: Bytes)
    requires key in plan && key !in done && plan[key].Stored?
    requires CopiedFrom(before, plan, done, m, writer)
    ensures CopiedFrom(before, plan, done + {key}, m[plan[key].target := plan[key].value], writer[plan[key].target := key])
  {
    TargetsStep(plan, done, key);
    var t := plan[key].target;
    var m' := m[t := plan[key].value];
    var writer' := writer[t := key];
    forall k | k in writer'
      ensures Writes(plan, done + {key}, writer'[k], k)
      ensures m'[k] == plan[writer'[k]].value
    {
      if k != t {
        assert Writes(plan, done, writer[k], k);
      }
    }
  }

  /** One turn of copyAttributes' loop: the attribute under `key` is
      skipped, counted as dropped, or stored under its target. */
  method CopyOne(ghost before: map<Bytes, AttributeValue>, ghost plan: map<Bytes, Placement>, ghost done: set<Bytes>,
                 input: map<Bytes, AttrInput>, key: Bytes,
                 m: map<Bytes, AttributeValue>, dropped: int, ghost writer: map<Bytes, Bytes>)
      returns (m': map<Bytes, AttributeValue>, dropped': int, ghost writer': map<Bytes, Bytes>)
    requires key in input && key in plan && key !in done && plan[key] == PlacementOf(key, input[key])
    requires CopiedFrom(before, plan, done, m, writer) && dropped == |DroppedIn(plan, done)|
    ensures CopiedFrom(before, plan, done + {key}, m', writer') && dropped' == |DroppedIn(plan, done + {key})|
  {
    TargetsStep(plan, done, key);
    m', dropped', writer' := m, dropped, writer;
    var av := AttributeValueOf(input[key]);
    if av.Some? {
      var target := Target(key);
      if target.None? {
        CopySkip(before, plan, done, m, writer, key);
        dropped' := dropped + 1;
      } else {
        CopyWrite(before, plan, done, m, writer, key);
        m' := m[target.value := av.value];
        writer' := writer[target.value := key];
      }
    } else {
      CopySkip(before, plan, done, m, writer, key);
    }
  }

  /** copyAttributes: every attribute with a supported value is stored
      under its target key, and those whose key is too long are counted as
      dropped; the count replaces the previous one. */
  method CopyAttributes(out: Option<Attributes>, input: map<Bytes, AttrInput>) returns (res: Option<Attributes>)
    ensures CopyResult(out, input, res)
  {
    if |input| == 0 {
      return out;
    }
    ghost var plan := Plan(input);
    var m := MapOf(out);
    var dropped := 0;
    var rest := input.Keys;
    ghost var done: set<Bytes> := {};
    ghost var writer: map<Bytes, Bytes> := map[];
    while rest != {}
      invariant rest <= input.Keys && done == input.Keys - rest
      invariant CopiedFrom(MapOf(out), plan, done, m, writer)
      invariant dropped == |DroppedIn(plan, done)|
      decreases |rest|
    {
      var key :| key in rest;
      m, dropped, writer := CopyOne(MapOf(out), plan, done, input, key, m, dropped, writer);
      rest := rest - {key};
      done := done + {key};
    }
    assert done == input.Keys;
    assert CopiedFrom(MapOf(out), plan, input.Keys, m, writer);
    assert dropped == |DroppedIn(plan, input.Keys)|;
    res := Some(Attributes(m, dropped));
  }

  /** Every key copyAttributes adds is at most 128 bytes long, and every
      supported attribute whose key is not too long is present. */
  lemma CopiedKeys(out: Option<Attributes>, input: map<Bytes, AttrInput>, res: Option<Attributes>)
    requires |input| > 0 && CopyResult(out, input, res)
    ensures forall k :: k in res.value.attributeMap && k !in MapOf(out) ==> |k| <= MaxAttributeKey
    ensures forall key :: key in input && Usable(input[key]) && Target(key).Some? ==>
              Target(key).value in res.value.attributeMap
  {
    var plan := Plan(input);
    var writer :| CopiedFrom(MapOf(out), plan, input.Keys, res.value.attributeMap, writer);
    forall k | k in res.value.attributeMap && k !in MapOf(out)
      ensures |k| <= MaxAttributeKey
    {
      assert Writes(plan, input.Keys, writer[k], k);
    }
    forall key | key in input && Usable(input[key]) && Target(key).Some?
      ensures Target(key).value in res.value.attributeMap
    {
      assert plan[key] == PlacementOf(key, input[key]);
    }
  }

  // ---------------------------------------------------------------------
  // Resource labels

  datatype MonitoredResource = MonitoredResource(typ: Bytes, labels: map<Bytes, Bytes>)

  /** The attribute key of resource label k: "g.co/r/<type>/<k>". */
  function ResourceKey(typ: Bytes, k: Bytes): Bytes {
    Ascii("g.co/r/") + typ + Ascii("/") + k
  }

  /** Different labels of one resource land on different keys. */
  lemma ResourceKeyInjective(typ: Bytes, a: Bytes, b: Bytes)
    requires ResourceKey(typ, a) == ResourceKey(typ, b)
    ensures a == b
  {
    var n := |Ascii("g.co/r/") + typ + Ascii("/")|;
    assert a == ResourceKey(typ, a)[n..];
    assert b == ResourceKey(typ, b)[n..];
  }

  lemma ResourceKeysInjective(typ: Bytes)
    ensures forall a, b :: ResourceKey(typ, a) == ResourceKey(typ, b) ==> a == b
  {
    forall a, b | ResourceKey(typ, a) == ResourceKey(typ, b)
      ensures a == b
    {
      ResourceKeyInjective(typ, a, b);
    }
  }

  /** The attributes of the visited labels. */
  function ResourceMap(r: MonitoredResource, done: set<Bytes>): map<Bytes, AttributeValue> {
    ResourceKeysInjective(r.typ);
    map k | k in done && k in r.labels :: ResourceKey(r.typ, k) := StringValue(TruncOf(r.labels[k], MaxAttributeStringValue))
  }

  /** copyMonitoredResourceAttributes as a value: with a resource, the
      attributes exist and every label is stored under its resource key,
      over any attribute already there. */
  function WithResource(out: Option<Attributes>, mr: Option<MonitoredResource>): Option<Attributes> {
    if mr.None? then out
    else
      var count := if out.Some? then out.value.droppedAttributesCount else 0;
      Some(Attributes(MapOf(out) + ResourceMap(mr.value, mr.value.labels.Keys), count))
  }

  /** Each label is stored, truncated to 256 bytes, under its own key, and
      no other key changes. */
  lemma ResourceLabelsStored(out: Option<Attributes>, r: MonitoredResource)
    ensures forall k :: k in r.labels ==>
              WithResource(out, Some(r)).value.attributeMap[ResourceKey(r.typ, k)] ==
              StringValue(TruncOf(r.labels[k], MaxAttributeStringValue))
    ensures forall key :: key in MapOf(out) && (forall k :: k in r.labels ==> key != ResourceKey(r.typ, k)) ==>
              WithResource(out, Some(r)).value.attributeMap[key] == MapOf(out)[key]
  {
    var m := ResourceMap(r, r.labels.Keys);
    forall k | k in r.labels
      ensures ResourceKey(r.typ, k) in m
      ensures m[ResourceKey(r.typ, k)] == StringValue(TruncOf(r.labels[k], MaxAttributeStringValue))
    {
      ResourceLabelAt(r, k);
    }
    forall key | key in MapOf(out) && (forall k :: k in r.labels ==> key != ResourceKey(r.typ, k))
      ensures key !in m
    {
      if key in m {
        ResourceMapKey(r, key);
      }
    }
  }

  /** The entry of one label in the map of all labels. */
  lemma ResourceLabelAt(r: MonitoredResource, k: Bytes)
    requires k in r.labels
    ensures ResourceKey(r.typ, k) in ResourceMap(r, r.labels.Keys)
    ensures ResourceMap(r, r.labels.Keys)[ResourceKey(r.typ, k)] ==
              StringValue(TruncOf(r.labels[k], MaxAttributeStringValue))
  {
    var m := ResourceMap(r, r.labels.Keys);
    var j :| j in r.labels && ResourceKey(r.typ, j) == ResourceKey(r.typ, k) &&
             m[ResourceKey(r.typ, k)] == StringValue(TruncOf(r.labels[j], MaxAttributeStringValue));
    ResourceKeyInjective(r.typ, j, k);
  }

  /** Every key of the map of all labels is the key of some label. */
  lemma ResourceMapKey(r: MonitoredResource, key: Bytes)
    requires key in ResourceMap(r, r.labels.Keys)
    ensures exists k :: k in r.labels && key == ResourceKey(r.typ, k)
  {
  }

  lemma ResourceMapStep(r: MonitoredResource, done: set<Bytes>, k: Bytes)
    requires k in r.labels && k !in done
    ensures ResourceMap(r, done + {k}) ==
              ResourceMap(r, done)[ResourceKey(r.typ, k) := StringValue(TruncOf(r.labels[k], MaxAttributeStringValue))]
  {
    var left := ResourceMap(r, done + {k});
    var right := ResourceMap(r, done)[ResourceKey(r.typ, k) := StringValue(TruncOf(r.labels[k], MaxAttributeStringValue))];
    forall key | key in left
      ensures key in right && left[key] == right[key]
    {
      var j :| j in done + {k} && j in r.labels && ResourceKey(r.typ, j) == key &&
               left[key] == StringValue(TruncOf(r.labels[j], MaxAttributeStringValue));
      if key == ResourceKey(r.typ, k) {
        ResourceKeyInjective(r.typ, j, k);
      }
    }
    forall key | key in right
      ensures key in left
    {
    }
  }

  lemma UnionUpdate<K, V>(a: map<K, V>, b: map<K, V>, k: K, v: V)
    ensures a + b[k := v] == (a + b)[k := v]
  {
  }

  /** copyMonitoredResourceAttributes: the labels are written one by one. */
  method CopyMonitoredResourceAttributes(out: Option<Attributes>, mr: Option<MonitoredResource>) returns (res: Option<Attributes>)
    ensures res == WithResource(out, mr)
  {
    if mr.None? {
      return out;
    }
    var r := mr.value;
    var m := MapOf(out);
    var count := if out.Some? then out.value.droppedAttributesCount else 0;
    var rest := r.labels.Keys;
    ghost var done: set<Bytes> := {};
    while rest != {}
      invariant rest <= r.labels.Keys && done == r.labels.Keys - rest
      invariant m == MapOf(out) + ResourceMap(r, done)
      decreases |rest|
    {
      var k :| k in rest;
      var av := StringValue(TruncOf(r.labels[k], MaxAttributeStringValue));
      ResourceMapStep(r, done, k);
      UnionUpdate(MapOf(out), ResourceMap(r, done), ResourceKey(r.typ, k), av);
      m := m[ResourceKey(r.typ, k) := av];
      rest := rest - {k};
      done := done + {k};
    }
    assert done == r.labels.Keys;
    res := Some(Attributes(m, count));
  }

  /** The agent label added with the user agent unless already present. */
  function WithAgent(attrs: Option<Attributes>, userAgent: Bytes): (r: Attributes)
    ensures AgentLabel in r.attributeMap
    ensures attrs.Some? && AgentLabel in attrs.value.attributeMap ==> r == attrs.value
    ensures forall k :: k in MapOf(attrs) ==> k in r.attributeMap && r.attributeMap[k] == MapOf(attrs)[k]
  {
    var a := if attrs.Some? then attrs.value else Attributes(map[], 0);
    if AgentLabel in a.attributeMap then a
    else Attributes(a.attributeMap[AgentLabel := StringValue(TruncOf(userAgent, MaxAttributeStringValue))], a.droppedAttributesCount)
  }

  // ---------------------------------------------------------------------
  // Time events

  /** A wire timestamp: whole seconds and the nanoseconds within. */
  datatype Timestamp = Timestamp(seconds: int, nanos: int)

  /** timestampProto of an instant given in nanoseconds since the epoch. */
  function TimestampProto(t: int): (ts: Timestamp)
    ensures 0 <= ts.nanos < 1_000_000_000
    ensures ts.seconds * 1_000_000_000 + ts.nanos == t
  {
    Timestamp(t / 1_000_000_000, t % 1_000_000_000)
  }

  datatype Annotation = Annotation(time: int, message: Bytes, attributes: map<Bytes, AttrInput>)
  datatype MessageEvent = MessageEvent(time: int, eventType: int, messageID: int, uncompressedByteSize: int, compressedByteSize: int)

  datatype TimeEvent =
    | AnnotationEvent(time: Timestamp, description: TruncatableString, attributes: Option<Attributes>)
    | MessageEventEvent(time: Timestamp, eventType: int, id: int, uncompressedSizeBytes: int, compressedSizeBytes: int)

  datatype TimeEvents = TimeEvents(timeEvent: seq<TimeEvent>, droppedAnnotationsCount: int, droppedMessageEventsCount: int)

  /** The wire event of an annotation: its time, its message cut to 256
      bytes, its attributes copied. */
  ghost predicate AnnotationEventOf(a: Annotation, ev: TimeEvent) {
    && ev.AnnotationEvent?
    && ev.time == TimestampProto(a.time)
    && ev.description == TruncOf(a.message, MaxAttributeStringValue)
    && CopyResult(None, a.attributes, ev.attributes)
  }

  /** The wire event of a message event: every field carried over. */
  function MessageEventOf(e: MessageEvent): TimeEvent {
    MessageEventEvent(TimestampProto(e.time), e.eventType, e.messageID, e.uncompressedByteSize, e.compressedByteSize)
  }

  function Min(a: int, b: int): int {
    if a < b then a else b
  }

  /** How many items a cap of `cap` leaves out. */
  function Excess(n: int, cap: int): (r: int)
    ensures r >= 0 && (n > cap ==> r == n - cap) && (n <= cap ==> r == 0)
  {
    if n > cap then n - cap else 0
  }

  /** The annotation loop of protoFromSpanData: at most 32 annotations
      become events, and the rest are counted as dropped. */
  method AnnotationEvents(annots: seq<Annotation>) returns (events: seq<TimeEvent>, dropped: int)
    ensures |events| == Min(|annots|, MaxAnnotationEventsPerSpan)
    ensures forall k :: 0 <= k < |events| ==> AnnotationEventOf(annots[k], events[k])
    ensures dropped == Excess(|annots|, MaxAnnotationEventsPerSpan)
  {
    events := [];
    dropped := 0;
    var annotations := 0;
    var i := 0;
    while i < |annots|
      invariant 0 <= i <= |annots| && annotations == i <= MaxAnnotationEventsPerSpan
      invariant |events| == i && forall k :: 0 <= k < i ==> AnnotationEventOf(annots[k], events[k])
      invariant dropped == 0
    {
      if annotations >= MaxAnnotationEventsPerSpan {
        dropped := |annots| - i;
        break;
      }
      var a := annots[i];
      var description := Trunc(a.message, MaxAttributeStringValue);
      var attrs := CopyAttributes(None, a.attributes);
      events := events + [AnnotationEvent(TimestampProto(a.time), description, attrs)];
      annotations := annotations + 1;
      i := i + 1;
    }
  }

  /** The message-event loop of protoFromSpanData: at most 128 message
      events are carried over, and the rest are counted as dropped. */
  method MessageEvents(es: seq<MessageEvent>) returns (events: seq<TimeEvent>, dropped: int)
    ensures |events| == Min(|es|, MaxMessageEventsPerSpan)
    ensures forall k :: 0 <= k < |events| ==> events[k] == MessageEventOf(es[k])
    ensures dropped == Excess(|es|, MaxMessageEventsPerSpan)
  {
    events := [];
    dropped := 0;
    var messageEvents := 0;
    var i := 0;
    while i < |es|
      invariant 0 <= i <= |es| && messageEvents == i <= MaxMessageEventsPerSpan
      invariant |events| == i && forall k :: 0 <= k < i ==> events[k] == MessageEventOf(es[k])
      invariant dropped == 0
    {
      if messageEvents >= MaxMessageEventsPerSpan {
        dropped := |es| - i;
        break;
      }
      messageEvents := messageEvents + 1;
      events := events + [MessageEventOf(es[i])];
      i := i + 1;
    }
  }

  // ---------------------------------------------------------------------
  // Links and the span

  datatype Link = Link(traceID: Bytes, spanID: Bytes, linkType: int, attributes: map<Bytes, AttrInput>)
  datatype SpanLink = SpanLink(traceId: Bytes, spanId: Bytes, linkType: int, attributes: Option<Attributes>)

  ghost predicate LinkOf(l: Link, sl: SpanLink) {
    sl.traceId == l.traceID && sl.spanId == l.spanID && sl.linkType == l.linkType && CopyResult(None, l.attributes, sl.attributes)
  }

  /** The links of protoFromSpanData: absent when there are none, else one
      wire link per link, in order. */
  method ProtoLinks(links: seq<Link>) returns (r: Option<seq<SpanLink>>)
    ensures links == [] <==> r.None?
    ensures r.Some? ==> |r.value| == |links| && forall k :: 0 <= k < |links| ==> LinkOf(links[k], r.value[k])
  {
    if |links| == 0 {
      return None;
    }
    var out: seq<SpanLink> := [];
    for i := 0 to |links|
      invariant |out| == i && forall k :: 0 <= k < i ==> LinkOf(links[k], out[k])
    {
      var l := links[i];
      var attrs := CopyAttributes(None, l.attributes);
      out := out + [SpanLink(l.traceID, l.spanID, l.linkType, attrs)];
    }
    return Some(out);
  }

  datatype SpanKind = SpanKindUnspecified | SpanKindServer | SpanKindClient

  datatype Status = Status(code: int, message: Bytes)

  /** A finished span; the identifiers arrive as their hex text and a
      zero parent identifier as None. */
  datatype SpanData = SpanData(
    traceID: Bytes, spanID: Bytes, parentSpanID: Option<Bytes>,
    name: Bytes, spanKind: SpanKind,
    startTime: int, endTime: int,
    attributes: map<Bytes, AttrInput>,
    annotations: seq<Annotation>, messageEvents: seq<MessageEvent>, links: seq<Link>,
    status: Status, hasRemoteParent: bool)

  datatype Span = Span(
    name: Bytes, spanId: Bytes, displayName: TruncatableString,
    startTime: Timestamp, endTime: Timestamp,
    sameProcessAsParentSpan: bool, parentSpanId: Bytes,
    status: Option<Status>, attributes: Attributes,
    timeEvents: Option<TimeEvents>, links: Option<seq<SpanLink>>)

  /** The display name before truncation: client spans are "Sent.",
      server spans "Recv." */
  function KindName(kind: SpanKind, name: Bytes): (r: Bytes)
    ensures kind.SpanKindUnspecified? ==> r == name
    ensures !kind.SpanKindUnspecified? ==> |r| == |name| + 5 && r[5..] == name
  {
    match kind
    case SpanKindClient => Ascii("Sent.") + name
    case SpanKindServer => Ascii("Recv.") + name
    case SpanKindUnspecified => name
  }

  /** The wire name "projects/<project>/traces/<trace>/spans/<span>". */
  function SpanName(projectID: Bytes, traceID: Bytes, spanID: Bytes): Bytes {
    Ascii("projects/") + projectID + Ascii("/traces/") + traceID + Ascii("/spans/") + spanID
  }

  /** The time events: the kept annotations, then the kept message
      events; absent when the span has neither, and the dropped counters
      are those of the caps. */
  ghost predicate TimeEventsOf(s: SpanData, te: Option<TimeEvents>) {
    var nA := Min(|s.annotations|, MaxAnnotationEventsPerSpan);
    var nM := Min(|s.messageEvents|, MaxMessageEventsPerSpan);
    && (te.None? <==> s.annotations == [] && s.messageEvents == [])
    && (te.Some? ==>
          && |te.value.timeEvent| == nA + nM
          && (forall k :: 0 <= k < nA ==> AnnotationEventOf(s.annotations[k], te.value.timeEvent[k]))
          && (forall k :: 0 <= k < nM ==> te.value.timeEvent[nA + k] == MessageEventOf(s.messageEvents[k]))
          && te.value.droppedAnnotationsCount == Clip32(Excess(|s.annotations|, MaxAnnotationEventsPerSpan))
          && te.value.droppedMessageEventsCount == Clip32(Excess(|s.messageEvents|, MaxMessageEventsPerSpan)))
  }

  /** sp is a conversion of s: every field as protoFromSpanData sets it. */
  ghost predicate IsSpanProto(s: SpanData, projectID: Bytes, mr: Option<MonitoredResource>, userAgent: Bytes, sp: Span) {
    && sp.name == SpanName(projectID, s.traceID, s.spanID)
    && sp.spanId == s.spanID
    && sp.displayName == TruncOf(KindName(s.spanKind, s.name), MaxDisplayName)
    && sp.startTime == TimestampProto(s.startTime)
    && sp.endTime == TimestampProto(s.endTime)
    && sp.sameProcessAsParentSpan == !s.hasRemoteParent
    && sp.parentSpanId == (if s.parentSpanID.Some? then s.parentSpanID.value else [])
    && sp.status == (if s.status.code != 0 || s.status.message != [] then Some(s.status) else None)
    && (exists copied :: CopyResult(None, s.attributes, copied) && sp.attributes == WithAgent(WithResource(copied, mr), userAgent))
    && TimeEventsOf(s, sp.timeEvents)
    && (sp.links.None? <==> s.links == [])
    && (sp.links.Some? ==> |sp.links.value| == |s.links| && forall k :: 0 <= k < |s.links| ==> LinkOf(s.links[k], sp.links.value[k]))
  }

  /** The attribute steps of protoFromSpanData: the span's attributes, then
      the resource labels, then the agent label unless one is present. */
  method SpanAttributes(attributes: map<Bytes, AttrInput>, mr: Option<MonitoredResource>, userAgent: Bytes)
      returns (a: Attributes)
    ensures exists copied :: CopyResult(None, attributes, copied) && a == WithAgent(WithResource(copied, mr), userAgent)
  {
    var copied := CopyAttributes(None, attributes);
    var attrs := CopyMonitoredResourceAttributes(copied, mr);
    if attrs.None? {
      attrs := Some(Attributes(map[], 0));
    }
    if AgentLabel !in attrs.value.attributeMap {
      var agent := Trunc(userAgent, MaxAttributeStringValue);
      attrs := Some(Attributes(attrs.value.attributeMap[AgentLabel := StringValue(agent)], attrs.value.droppedAttributesCount));
    }
    a := attrs.value;
    assert CopyResult(None, attributes, copied) && a == WithAgent(WithResource(copied, mr), userAgent);
  }

  /** The time-event steps of protoFromSpanData: the events are created on
      the first annotation or message event, and the dropped counters are
      set, clipped to int32, only when something was dropped. */
  method SpanTimeEvents(s: SpanData) returns (timeEvents: Option<TimeEvents>)
    ensures TimeEventsOf(s, timeEvents)
  {
    var annotationEvents, droppedAnnotationsCount := AnnotationEvents(s.annotations);
    var messageEvents, droppedMessageEventsCount := MessageEvents(s.messageEvents);
    timeEvents := None;
    if annotationEvents + messageEvents != [] {
      timeEvents := Some(TimeEvents(annotationEvents + messageEvents, 0, 0));
    }
    if droppedAnnotationsCount != 0 || droppedMessageEventsCount != 0 {
      var events := if timeEvents.Some? then timeEvents.value.timeEvent else [];
      timeEvents := Some(TimeEvents(events, Clip32(droppedAnnotationsCount), Clip32(droppedMessageEventsCount)));
    }
    var nA := |annotationEvents|;
    assert forall k :: 0 <= k < |messageEvents| ==> (annotationEvents + messageEvents)[nA + k] == messageEvents[k];
  }

  /** protoFromSpanData: nil for a nil span, otherwise its conversion. */
  method ProtoFromSpanData(s: Option<SpanData>, projectID: Bytes, mr: Option<MonitoredResource>, userAgent: Bytes)
      returns (sp: Option<Span>)
    ensures s.None? <==> sp.None?
    ensures s.Some? ==> IsSpanProto(s.value, projectID, mr, userAgent, sp.value)
  {
    if s.None? {
      return None;
    }
    var d := s.value;
    var name := KindName(d.spanKind, d.name);
    var displayName := Trunc(name, MaxDisplayName);
    var parentSpanId: Bytes := [];
    if d.parentSpanID.Some? {
      parentSpanId := d.parentSpanID.value;
    }
    var status: Option<Status> := None;
    if d.status.code != 0 || d.status.message != [] {
      status := Some(d.status);
    }
    var attributes := SpanAttributes(d.attributes, mr, userAgent);
    var timeEvents := SpanTimeEvents(d);
    var links := ProtoLinks(d.links);
    return Some(Span(
      SpanName(projectID, d.traceID, d.spanID), d.spanID, displayName,
      TimestampProto(d.startTime), TimestampProto(d.endTime),
      !d.hasRemoteParent, parentSpanId, status, attributes,
      timeEvents, links));
  }

  /** Bounds every converted span keeps: a display name of at most 128
      bytes, at most 32 annotation and 128 message events, non-negative
      dropped counters, and the agent label. */
  lemma SpanProtoBounds(s: SpanData, projectID: Bytes, mr: Option<MonitoredResource>, userAgent: Bytes, sp: Span)
    requires IsSpanProto(s, projectID, mr, userAgent, sp)
    ensures |sp.displayName.value| <= MaxDisplayName
    ensures sp.timeEvents.Some? ==>
              && |sp.timeEvents.value.timeEvent| <= MaxAnnotationEventsPerSpan + MaxMessageEventsPerSpan
              && 0 <= sp.timeEvents.value.droppedAnnotationsCount
              && 0 <= sp.timeEvents.value.droppedMessageEventsCount
    ensures AgentLabel in sp.attributes.attributeMap
  {
  }
}
