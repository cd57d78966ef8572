/** Small shared vocabulary: optional values, errors, bytes, string helpers
    and the three-tier error fold used by the upload paths. */
module Common {

  datatype Option<T> = None | Some(value: T) {
    function GetOr(default: T): T {
      match this
      case Some(v) => v
      case None => default
    }
  }

  /** A Go `error`; only its message is observable. */
  datatype Error = Error(msg: string)

  /** A value, or the error that stood in its place. */
  datatype Result<T> = Success(value: T) | Failure(error: Error)

  /** The decimal text of a natural number, as `%d` prints it. */
  function Decimal(n: nat): string
    decreases n
  {
    var digit := [('0' as int + n % 10) as char];
    if n < 10 then digit else Decimal(n / 10) + digit
  }

  /** A byte of a Go string. */
  type byte = b: int | 0 <= b < 256

  /** strings.HasPrefix */
  predicate HasPrefix<T(==)>(s: seq<T>, prefix: seq<T>) {
    |prefix| <= |s| && s[..|prefix|] == prefix
  }

  /** strings.Join */
  function Join(parts: seq<string>, sep: string): (r: string)
    ensures |parts| == 1 ==> r == parts[0]
  {
    if |parts| == 0 then ""
    else if |parts| == 1 then parts[0]
    else parts[0] + sep + Join(parts[1..], sep)
  }

  /** `a` occurs somewhere inside `s`. */
  ghost predicate IsInfix<T>(a: seq<T>, s: seq<T>) {
    exists i :: InfixAt(a, s, i)
  }

  predicate InfixAt<T(==)>(a: seq<T>, s: seq<T>, i: int) {
    0 <= i <= |s| - |a| && s[i..i + |a|] == a
  }

  lemma InfixConcat<T>(a: seq<T>, s: seq<T>, u: seq<T>, v: seq<T>)
    requires IsInfix(a, s)
    ensures IsInfix(a, u + s + v)
  {
    var i :| InfixAt(a, s, i);
    assert (u + s + v)[|u| + i..|u| + i + |a|] == a;
    assert InfixAt(a, u + s + v, |u| + i);
  }

  /** Every part handed to Join survives verbatim in the joined text. */
  lemma {:induction false} JoinKeepsParts(parts: seq<string>, sep: string, k: nat)
    requires k < |parts|
    ensures IsInfix(parts[k], Join(parts, sep))
  {
    if |parts| == 1 || k == 0 {
      assert Join(parts, sep)[0..|parts[0]|] == parts[0];
      assert InfixAt(parts[k], Join(parts, sep), 0);
    } else {
      JoinKeepsParts(parts[1..], sep, k - 1);
      InfixConcat(parts[k], Join(parts[1..], sep), parts[0] + sep, []);
      assert parts[0] + sep + Join(parts[1..], sep) + [] == Join(parts, sep);
    }
  }

  function Messages(errs: seq<Error>): (msgs: seq<string>)
    ensures |msgs| == |errs| && forall i :: 0 <= i < |errs| ==> msgs[i] == errs[i].msg
  {
    if errs == [] then [] else [errs[0].msg] + Messages(errs[1..])
  }

  /** The error the caller sees after a batch of operations: nothing for no
      error, the error itself for one, and "[m1; m2; ...]" for several. */
  function FoldErrors(errs: seq<Error>): Option<Error>
  {
    if |errs| == 0 then None
    else if |errs| == 1 then Some(errs[0])
    else Some(Error("[" + Join(Messages(errs), "; ") + "]"))
  }

  /** The fold reports success exactly when nothing failed, and whatever it
      reports still carries every underlying message as text. */
  lemma FoldErrorsKeepsMessages(errs: seq<Error>)
    ensures FoldErrors(errs).None? <==> errs == []
    ensures forall k :: 0 <= k < |errs| ==> FoldErrors(errs).Some? && IsInfix(errs[k].msg, FoldErrors(errs).value.msg)
  {
    forall k | 0 <= k < |errs|
      ensures FoldErrors(errs).Some? && IsInfix(errs[k].msg, FoldErrors(errs).value.msg)
    {
      if |errs| == 1 {
        assert errs[k].msg[0..|errs[k].msg|] == errs[k].msg;
        assert InfixAt(errs[k].msg, FoldErrors(errs).value.msg, 0);
      } else {
        var msgs := Messages(errs);
        JoinKeepsParts(msgs, "; ", k);
        InfixConcat(errs[k].msg, Join(msgs, "; "), "[", "]");
      }
    }
  }

  /** The errors of calling `call` on each element in turn, in order. */
  function Failures<T>(xs: seq<T>, call: T -> Option<Error>): (r: seq<Error>)
    ensures |r| <= |xs|
  {
    if xs == [] then []
    else Failures(xs[..|xs| - 1], call) + (match call(xs[|xs| - 1]) case Some(e) => [e] case None => [])
  }

  lemma {:induction false} FailuresAppend<T>(a: seq<T>, b: seq<T>, call: T -> Option<Error>)
    ensures Failures(a + b, call) == Failures(a, call) + Failures(b, call)
    decreases |b|
  {
    if b == [] {
      assert a + b == a;
    } else {
      FailuresAppend(a, b[..|b| - 1], call);
      assert (a + b)[..|a + b| - 1] == a + b[..|b| - 1];
    }
  }

  /** Nothing failed exactly when every call succeeded. */
  lemma {:induction false} FailuresNone<T>(xs: seq<T>, call: T -> Option<Error>)
    ensures Failures(xs, call) == [] <==> forall i :: 0 <= i < |xs| ==> call(xs[i]).None?
  {
    if xs != [] {
      FailuresNone(xs[..|xs| - 1], call);
    }
  }

  /** f summed over the elements, in order. */
  function SumOf<T>(xs: seq<T>, f: T -> int): int {
    if xs == [] then 0 else SumOf(xs[..|xs| - 1], f) + f(xs[|xs| - 1])
  }

  lemma {:induction false} SumOfAppend<T>(a: seq<T>, b: seq<T>, f: T -> int)
    ensures SumOf(a + b, f) == SumOf(a, f) + SumOf(b, f)
    decreases |b|
  {
    if b == [] {
      assert a + b == a;
    } else {
      SumOfAppend(a, b[..|b| - 1], f);
      assert (a + b)[..|a + b| - 1] == a + b[..|b| - 1];
    }
  }

  lemma SumOfSnoc<T>(xs: seq<T>, x: T, f: T -> int)
    ensures SumOf(xs + [x], f) == SumOf(xs, f) + f(x)
  {
    assert (xs + [x])[..|xs|] == xs;
  }

  /** The sum does not depend on the order of the elements. */
  lemma {:induction false} SumOfPermutation<T>(a: seq<T>, b: seq<T>, f: T -> int)
    requires multiset(a) == multiset(b)
    ensures SumOf(a, f) == SumOf(b, f)
    decreases |a|
  {
    if a == [] {
      assert |b| == |multiset(b)| == 0;
    } else {
      var n := |a| - 1;
      assert a[n] in multiset(b);
      var i :| 0 <= i < |b| && b[i] == a[n];
      RemoveBoth(a, n, b, i);
      assert a[..n] + a[n + 1..] == a[..n];
      SumOfPermutation(a[..n], b[..i] + b[i + 1..], f);
      assert b == b[..i] + [b[i]] + b[i + 1..];
      SumOfMiddle(b[..i], b[i], b[i + 1..], f);
      assert a == a[..n] + [a[n]];
      SumOfSnoc(a[..n], a[n], f);
    }
  }

  /** The sum less one element in the middle. */
  lemma SumOfMiddle<T>(l: seq<T>, x: T, r: seq<T>, f: T -> int)
    ensures SumOf(l + [x] + r, f) == SumOf(l + r, f) + f(x)
  {
    SumOfAppend(l + [x], r, f);
    SumOfSnoc(l, x, f);
    SumOfAppend(l, r, f);
  }

  /** The sequences f gives for the elements, one after the other. */
  function ConcatOf<T, U>(xs: seq<T>, f: T -> seq<U>): seq<U> {
    if xs == [] then [] else ConcatOf(xs[..|xs| - 1], f) + f(xs[|xs| - 1])
  }

  lemma {:induction false} ConcatOfAppend<T, U>(a: seq<T>, b: seq<T>, f: T -> seq<U>)
    ensures ConcatOf(a + b, f) == ConcatOf(a, f) + ConcatOf(b, f)
    decreases |b|
  {
    if b == [] {
      assert a + b == a;
    } else {
      ConcatOfAppend(a, b[..|b| - 1], f);
      assert (a + b)[..|a + b| - 1] == a + b[..|b| - 1];
    }
  }

  lemma ConcatOfSnoc<T, U>(xs: seq<T>, x: T, f: T -> seq<U>)
    ensures ConcatOf(xs + [x], f) == ConcatOf(xs, f) + f(x)
  {
    assert (xs + [x])[..|xs|] == xs;
  }

  /** Reordering the elements only reorders the concatenation. */
  lemma {:induction false} ConcatOfPermutation<T, U>(a: seq<T>, b: seq<T>, f: T -> seq<U>)
    requires multiset(a) == multiset(b)
    ensures multiset(ConcatOf(a, f)) == multiset(ConcatOf(b, f))
    decreases |a|
  {
    if a == [] {
      assert |b| == |multiset(b)| == 0;
    } else {
      var n := |a| - 1;
      assert a[n] in multiset(b);
      var i :| 0 <= i < |b| && b[i] == a[n];
      RemoveBoth(a, n, b, i);
      assert a[..n] + a[n + 1..] == a[..n];
      ConcatOfPermutation(a[..n], b[..i] + b[i + 1..], f);
      assert b == b[..i] + [b[i]] + b[i + 1..];
      ConcatOfMiddle(b[..i], b[i], b[i + 1..], f);
      assert a == a[..n] + [a[n]];
      ConcatOfSnoc(a[..n], a[n], f);
    }
  }

  /** The concatenation less the part of one element in the middle. */
  lemma ConcatOfMiddle<T, U>(l: seq<T>, x: T, r: seq<T>, f: T -> seq<U>)
    ensures multiset(ConcatOf(l + [x] + r, f)) == multiset(ConcatOf(l + r, f)) + multiset(f(x))
  {
    ConcatOfAppend(l + [x], r, f);
    ConcatOfSnoc(l, x, f);
    ConcatOfAppend(l, r, f);
  }

  function Sum(xs: seq<int>): int {
    if xs == [] then 0 else xs[0] + Sum(xs[1..])
  }

  lemma {:induction false} SumAppend(xs: seq<int>, ys: seq<int>)
    ensures Sum(xs + ys) == Sum(xs) + Sum(ys)
  {
    if xs == [] {
      assert xs + ys == ys;
    } else {
      SumAppend(xs[1..], ys);
      assert (xs + ys)[1..] == xs[1..] + ys;
    }
  }

  lemma {:induction false} SumUpdate(xs: seq<int>, j: nat, x: int)
    requires j < |xs|
    ensures Sum(xs[j := x]) == Sum(xs) - xs[j] + x
  {
    if j == 0 {
      assert xs[j := x][1..] == xs[1..];
    } else {
      SumUpdate(xs[1..], j - 1, x);
      assert xs[j := x][1..] == xs[1..][j - 1 := x];
    }
  }

  // ---------------------------------------------------------------------
  // Sequences

  /** The concatenation of a sequence of sequences. */
  function Flatten<T>(ss: seq<seq<T>>): (r: seq<T>)
  {
    if ss == [] then [] else ss[0] + Flatten(ss[1..])
  }

  lemma {:induction false} FlattenAppend<T>(a: seq<seq<T>>, b: seq<seq<T>>)
    ensures Flatten(a + b) == Flatten(a) + Flatten(b)
  {
    if a == [] {
      assert a + b == b;
    } else {
      FlattenAppend(a[1..], b);
      assert (a + b)[0] == a[0] && (a + b)[1..] == a[1..] + b;
    }
  }

  /** Appending x to one of the sequences adds x to the concatenation. */
  lemma {:induction false} FlattenSnocAt<T>(ss: seq<seq<T>>, w: nat, x: T)
    requires w < |ss|
    ensures multiset(Flatten(ss[w := ss[w] + [x]])) == multiset(Flatten(ss)) + multiset{x}
  {
    var ss' := ss[w := ss[w] + [x]];
    if w == 0 {
      assert ss'[1..] == ss[1..];
    } else {
      FlattenSnocAt(ss[1..], w - 1, x);
      assert ss'[1..] == ss[1..][w - 1 := ss[w] + [x]];
    }
  }

  /** ys holds f of each element of xs, in order. */
  ghost predicate Maps<T, U>(xs: seq<T>, ys: seq<U>, f: T -> U) {
    |xs| == |ys| && forall k {:trigger f(xs[k])} :: 0 <= k < |xs| ==> ys[k] == f(xs[k])
  }

  lemma MapsAppend<T, U>(a: seq<T>, ya: seq<U>, b: seq<T>, yb: seq<U>, f: T -> U)
    requires Maps(a, ya, f) && Maps(b, yb, f)
    ensures Maps(a + b, ya + yb, f)
  {
    forall k | 0 <= k < |a + b|
      ensures (ya + yb)[k] == f((a + b)[k])
    {
      if k >= |a| {
        assert (ya + yb)[k] == yb[k - |a|] && (a + b)[k] == b[k - |a|];
      }
    }
  }

  lemma MapsSnoc<T, U>(xs: seq<T>, ys: seq<U>, x: T, f: T -> U)
    requires Maps(xs, ys, f)
    ensures Maps(xs + [x], ys + [f(x)], f)
  {
    MapsAppend(xs, ys, [x], [f(x)], f);
  }

  lemma {:induction false} MapsFlatten<T, U>(xss: seq<seq<T>>, yss: seq<seq<U>>, f: T -> U)
    requires |xss| == |yss| && forall k :: 0 <= k < |xss| ==> Maps(xss[k], yss[k], f)
    ensures Maps(Flatten(xss), Flatten(yss), f)
  {
    if xss != [] {
      MapsFlatten(xss[1..], yss[1..], f);
      MapsAppend(xss[0], yss[0], Flatten(xss[1..]), Flatten(yss[1..]), f);
    }
  }

  /** Removing the element at i removes one occurrence of it. */
  lemma RemoveAt<T>(s: seq<T>, i: nat)
    requires i < |s|
    ensures multiset(s) == multiset(s[..i] + s[i + 1..]) + multiset{s[i]}
  {
    assert s == s[..i] + [s[i]] + s[i + 1..];
  }

  /** Removing one equal element from two permutations of each other
      leaves permutations of each other. */
  lemma RemoveBoth<T>(a: seq<T>, n: nat, b: seq<T>, i: nat)
    requires n < |a| && i < |b| && a[n] == b[i] && multiset(a) == multiset(b)
    ensures multiset(a[..n] + a[n + 1..]) == multiset(b[..i] + b[i + 1..])
  {
    RemoveAt(a, n);
    RemoveAt(b, i);
    assert multiset(a[..n] + a[n + 1..]) == multiset(a) - multiset{a[n]};
    assert multiset(b[..i] + b[i + 1..]) == multiset(b) - multiset{b[i]};
  }

  lemma MapsRemove<T, U>(b: seq<T>, yb: seq<U>, i: nat, f: T -> U)
    requires Maps(b, yb, f) && i < |b|
    ensures Maps(b[..i] + b[i + 1..], yb[..i] + yb[i + 1..], f)
  {
    MapsAppend(b[..i], yb[..i], b[i + 1..], yb[i + 1..], f);
  }

  /** Reordering the elements only reorders their images. */
  lemma {:induction false} MapsPermutation<T, U>(a: seq<T>, ya: seq<U>, b: seq<T>, yb: seq<U>, f: T -> U)
    requires Maps(a, ya, f) && Maps(b, yb, f) && multiset(a) == multiset(b)
    ensures multiset(ya) == multiset(yb)
    decreases |a|
  {
    if a == [] {
      assert |b| == |multiset(b)| == 0;
    } else {
      var n := |a| - 1;
      assert a[n] in multiset(b);
      var i :| 0 <= i < |b| && b[i] == a[n];
      RemoveBoth(a, n, b, i);
      MapsRemove(a, ya, n, f);
      MapsRemove(b, yb, i, f);
      MapsPermutation(a[..n] + a[n + 1..], ya[..n] + ya[n + 1..], b[..i] + b[i + 1..], yb[..i] + yb[i + 1..], f);
      RemoveAt(ya, n);
      RemoveAt(yb, i);
      assert ya[n] == f(a[n]) && yb[i] == f(b[i]);
    }
  }

  /** The elements x of s with p(x) == b, in their order. */
  function Select<T>(s: seq<T>, p: T -> bool, b: bool): (r: seq<T>)
    ensures forall k :: 0 <= k < |r| ==> p(r[k]) == b
  {
    if s == [] then []
    else Select(s[..|s| - 1], p, b) + (if p(s[|s| - 1]) == b then [s[|s| - 1]] else [])
  }

  /** Each element is selected on exactly one side. */
  lemma {:induction false} SelectPermutes<T>(s: seq<T>, p: T -> bool)
    ensures multiset(Select(s, p, true)) + multiset(Select(s, p, false)) == multiset(s)
  {
    if s != [] {
      var init, last := s[..|s| - 1], s[|s| - 1];
      SelectPermutes(init, p);
      assert multiset(s) == multiset(init) + multiset{last} by { assert s == init + [last]; }
      var t, f := Select(init, p, true), Select(init, p, false);
      if p(last) {
        assert Select(s, p, true) == t + [last] && Select(s, p, false) == f;
        assert multiset(t + [last]) == multiset(t) + multiset{last};
      } else {
        assert Select(s, p, true) == t && Select(s, p, false) == f + [last];
        assert multiset(f + [last]) == multiset(f) + multiset{last};
      }
    }
  }

  /** Selecting keeps the order of what it keeps. */
  lemma {:induction false} SelectKeepsOrder<T>(s: seq<T>, p: T -> bool, b: bool)
    ensures IsSubseq(Select(s, p, b), s)
  {
    if s == [] {
      IsSubseqEmpty(s);
    } else {
      var init, last := s[..|s| - 1], s[|s| - 1];
      SelectKeepsOrder(init, p, b);
      assert s == init + [last];
      IsSubseqSnoc(last, Select(init, p, b), init);
      if p(last) == b {
        assert Select(s, p, b) == Select(init, p, b) + [last];
      } else {
        assert Select(s, p, b) == Select(init, p, b);
        assert IsSubseq(Select(init, p, b), init + [last]);
      }
    }
  }

  /** f maps every position of a to a position of b holding the same
      element, in strictly increasing order. */
  predicate Embeds<T(==)>(f: seq<nat>, a: seq<T>, b: seq<T>) {
    && |f| == |a|
    && (forall k :: 0 <= k < |f| ==> f[k] < |b| && b[f[k]] == a[k])
    && (forall k, l :: 0 <= k < l < |f| ==> f[k] < f[l])
  }

  /** a is b with some elements left out, the rest in their order. */
  ghost predicate IsSubseq<T>(a: seq<T>, b: seq<T>) {
    exists f :: Embeds(f, a, b)
  }

  lemma IsSubseqTrans<T>(a: seq<T>, b: seq<T>, c: seq<T>)
    requires IsSubseq(a, b) && IsSubseq(b, c)
    ensures IsSubseq(a, c)
  {
    var f :| Embeds(f, a, b);
    var g :| Embeds(g, b, c);
    var h := seq(|f|, k requires 0 <= k < |f| => g[f[k]]);
    assert Embeds(h, a, c);
  }

  lemma IsSubseqCons<T>(x: T, a: seq<T>, b: seq<T>)
    requires IsSubseq(a, b)
    ensures IsSubseq([x] + a, [x] + b) && IsSubseq(a, [x] + b)
  {
    var f :| Embeds(f, a, b);
    var shifted := seq(|f|, k requires 0 <= k < |f| => f[k] + 1);
    assert Embeds(shifted, a, [x] + b);
    assert Embeds([0] + shifted, [x] + a, [x] + b);
  }

  lemma IsSubseqSnoc<T>(x: T, a: seq<T>, b: seq<T>)
    requires IsSubseq(a, b)
    ensures IsSubseq(a + [x], b + [x]) && IsSubseq(a, b + [x])
  {
    var f: seq<nat> :| Embeds(f, a, b);
    var g: seq<nat> := f + [|b|];
    assert Embeds(f, a, b + [x]);
    assert Embeds(g, a + [x], b + [x]);
  }

  lemma IsSubseqEmpty<T>(b: seq<T>)
    ensures IsSubseq([], b)
  {
    assert Embeds([], [], b);
  }

  lemma IsSubseqLength<T>(a: seq<T>, b: seq<T>)
    requires IsSubseq(a, b)
    ensures |a| <= |b|
  {
    var f :| Embeds(f, a, b);
    if |a| > |b| {
      StrictlyIncreasingBound(f, |b|);
    }
  }

  lemma {:induction false} StrictlyIncreasingBound(f: seq<nat>, n: nat)
    requires forall k :: 0 <= k < |f| ==> f[k] < n
    requires forall k, l :: 0 <= k < l < |f| ==> f[k] < f[l]
    ensures |f| <= n
  {
    if f != [] {
      var last := f[|f| - 1];
      StrictlyIncreasingBound(f[..|f| - 1], last);
    }
  }
}
