/** The part of Go's unicode/utf8 package that trunc relies on: decoding
    the first and the last rune of a byte string, with the same answer as
    Go for malformed input (RuneError with width 1). */
module Utf8 {
  import opened Common

  const RuneError := 0xFFFD
  const RuneSelf := 0x80
  const UTFMax := 4

  /** A decoded rune and the number of bytes it took. */
  datatype Decoded = Decoded(rune: int, size: nat)

  /** A byte that can only continue a multi-byte encoding. */
  predicate IsContinuation(b: byte) {
    0x80 <= b <= 0xBF
  }

  /** utf8.RuneStart: the byte may begin an encoding. */
  predicate RuneStart(b: byte) {
    !IsContinuation(b)
  }

  /** The encoding length a leading byte announces, 0 for a byte that
      cannot lead. */
  function LeadSize(b: byte): (n: nat)
    ensures n <= UTFMax
  {
    if b < 0x80 then 1
    else if b < 0xC2 then 0
    else if b < 0xE0 then 2
    else if b < 0xF0 then 3
    else if b < 0xF5 then 4
    else 0
  }

  /** The range the second byte must lie in after the leading byte b:
      narrower after E0, ED, F0 and F4 so that overlong forms, surrogates
      and values past U+10FFFF are refused. */
  function SecondLow(b: byte): byte {
    if b == 0xE0 then 0xA0 else if b == 0xF0 then 0x90 else 0x80
  }

  function SecondHigh(b: byte): byte {
    if b == 0xED then 0x9F else if b == 0xF4 then 0x8F else 0xBF
  }

  /** utf8.DecodeRune. */
  function DecodeRune(p: seq<byte>): (d: Decoded)
    ensures d.size == 0 <==> p == []
    ensures d.size <= |p| && d.size <= UTFMax
    ensures d.size == 1 && p[0] >= RuneSelf ==> d.rune == RuneError
    ensures d.size >= 2 ==> forall k :: 1 <= k < d.size ==> IsContinuation(p[k])
  {
    if p == [] then Decoded(RuneError, 0)
    else
      var p0 := p[0];
      var sz := LeadSize(p0);
      if sz == 1 then Decoded(p0, 1)
      else if sz == 0 || |p| < sz then Decoded(RuneError, 1)
      else if p[1] < SecondLow(p0) || SecondHigh(p0) < p[1] then Decoded(RuneError, 1)
      else if sz == 2 then Decoded((p0 as int - 0xC0) * 0x40 + (p[1] as int - 0x80), 2)
      else if !IsContinuation(p[2]) then Decoded(RuneError, 1)
      else if sz == 3 then Decoded((p0 as int - 0xE0) * 0x1000 + (p[1] as int - 0x80) * 0x40 + (p[2] as int - 0x80), 3)
      else if !IsContinuation(p[3]) then Decoded(RuneError, 1)
      else Decoded((p0 as int - 0xF0) * 0x40000 + (p[1] as int - 0x80) * 0x1000 + (p[2] as int - 0x80) * 0x40 + (p[3] as int - 0x80), 4)
  }

  /** The backward scan of DecodeLastRune: from `start` down to `lim`, the
      first position holding a byte that may begin an encoding, or lim - 1
      when there is none. */
  function ScanBack(p: seq<byte>, start: int, lim: nat): (r: int)
    requires start < |p|
    ensures lim - 1 <= r <= start || (start < lim && r == start)
    ensures r >= lim ==> RuneStart(p[r])
    ensures forall k :: r < k <= start && k >= lim ==> !RuneStart(p[k])
    decreases start - lim + 1
  {
    if start < lim then start
    else if RuneStart(p[start]) then start
    else ScanBack(p, start - 1, lim)
  }

  /** utf8.DecodeLastRune. */
  function DecodeLastRune(p: seq<byte>): (d: Decoded)
    ensures d.size == 0 <==> p == []
    ensures d.size <= |p|
  {
    if p == [] then Decoded(RuneError, 0)
    else
      var end := |p|;
      var last := p[end - 1];
      if last < RuneSelf then Decoded(last, 1)
      else
        var lim := if end - UTFMax < 0 then 0 else end - UTFMax;
        var found := ScanBack(p, end - 2, lim);
        var start := if found < 0 then 0 else found;
        var d := DecodeRune(p[start..]);
        if start + d.size != end then Decoded(RuneError, 1) else d
  }

  /** The last bytes do not form a whole, valid encoding: the test trunc
      uses to decide whether to drop one more byte. */
  predicate BrokenEnd(b: seq<byte>) {
    var d := DecodeLastRune(b);
    d.rune == RuneError && d.size == 1
  }

  /** An ASCII byte at the end is always a whole rune. */
  lemma AsciiEndNotBroken(b: seq<byte>)
    requires b != [] && b[|b| - 1] < RuneSelf
    ensures !BrokenEnd(b)
  {
  }

  /** When the last bytes are continuation bytes that follow a possible
      leading byte at most three places back, DecodeLastRune decodes from
      that leading byte. */
  lemma LastRuneFrom(b: seq<byte>, at: nat)
    requires at + 2 <= |b| <= at + UTFMax
    requires RuneStart(b[at]) && forall k :: at < k < |b| ==> !RuneStart(b[k])
    ensures var d := DecodeRune(b[at..]);
            DecodeLastRune(b) == if at + d.size != |b| then Decoded(RuneError, 1) else d
  {
    var end := |b|;
    var lim := if end - UTFMax < 0 then 0 else end - UTFMax;
    var found := ScanBack(b, end - 2, lim);
    assert found == at;
  }

  /** A complete multi-byte encoding at the end is never broken, whatever
      precedes it. */
  lemma WholeRuneNotBroken(p: seq<byte>, e: seq<byte>)
    requires 2 <= |e| && DecodeRune(e).size == |e|
    ensures !BrokenEnd(p + e)
  {
    var b := p + e;
    var at := |p|;
    assert b[at..] == e;
    forall k | at < k < |b|
      ensures !RuneStart(b[k])
    {
      assert b[k] == e[k - at];
    }
    assert b[at] == e[0];
    LastRuneFrom(b, at);
  }
}
