/** The ordering `sort.Strings` uses: lexicographic comparison of strings.
    Dafny strings are sequences of Unicode scalar values, and comparing code
    points agrees with comparing their UTF-8 bytes, which is what Go does. */
module StringSort {

  /** a <= b in lexicographic order (a proper prefix sorts first). */
  predicate Le(a: string, b: string)
    decreases |a|
  {
    |a| == 0 || (|b| > 0 && (a[0] < b[0] || (a[0] == b[0] && Le(a[1..], b[1..]))))
  }

  lemma {:induction false} LeRefl(a: string)
    ensures Le(a, a)
    decreases |a|
  {
    if |a| > 0 { LeRefl(a[1..]); }
  }

  lemma {:induction false} LeAntisym(a: string, b: string)
    requires Le(a, b) && Le(b, a)
    ensures a == b
    decreases |a|
  {
    if |a| > 0 {
      LeAntisym(a[1..], b[1..]);
      assert a == [a[0]] + a[1..] && b == [b[0]] + b[1..];
    }
  }

  lemma {:induction false} LeTrans(a: string, b: string, c: string)
    requires Le(a, b) && Le(b, c)
    ensures Le(a, c)
    decreases |a|
  {
    if |a| > 0 && a[0] == b[0] && b[0] == c[0] {
      LeTrans(a[1..], b[1..], c[1..]);
    }
  }

  lemma {:induction false} LeTotal(a: string, b: string)
    ensures Le(a, b) || Le(b, a)
    decreases |a|
  {
    if |a| > 0 && |b| > 0 && a[0] == b[0] {
      LeTotal(a[1..], b[1..]);
    }
  }

  ghost predicate Sorted(s: seq<string>) {
    forall i, j :: 0 <= i < j < |s| ==> Le(s[i], s[j])
  }

  /** Inserts x into a sorted sequence. */
  function Insert(s: seq<string>, x: string): (r: seq<string>)
    requires Sorted(s)
    ensures Sorted(r) && multiset(r) == multiset(s) + multiset{x}
  {
    if s == [] then [x]
    else if Le(x, s[0]) then
      assert forall j :: 0 < j < |s| ==> Le(x, s[j]) by {
        forall j | 0 < j < |s| ensures Le(x, s[j]) { LeTrans(x, s[0], s[j]); }
      }
      [x] + s
    else
      assert Sorted(s[1..]);
      var t := Insert(s[1..], x);
      assert s == [s[0]] + s[1..];
      assert Sorted([s[0]] + t) by {
        LeTotal(x, s[0]);
        forall y | y in multiset(t) ensures Le(s[0], y) {
          assert y in multiset(s[1..]) || y == x;
        }
        ConsSorted(s[0], t);
      }
      [s[0]] + t
  }

  /** The local sort of metricSignature (an insertion sort standing in for
      `sort.Strings`). */
  method SortStrings(a: seq<string>) returns (r: seq<string>)
    ensures Sorted(r) && multiset(r) == multiset(a)
  {
    r := [];
    for i := 0 to |a|
      invariant Sorted(r) && multiset(r) == multiset(a[..i])
    {
      assert a[..i + 1] == a[..i] + [a[i]];
      r := Insert(r, a[i]);
    }
    assert a[..|a|] == a;
  }

  /** Two sorted arrangements of the same strings are the same sequence. */
  lemma {:induction false} SortedUnique(a: seq<string>, b: seq<string>)
    requires Sorted(a) && Sorted(b) && multiset(a) == multiset(b)
    ensures a == b
    decreases |a|
  {
    if a != [] {
      assert b != [] by { assert |multiset(a)| == |multiset(b)|; }
      assert a[0] == b[0] by {
        assert b[0] in multiset(b) && a[0] in multiset(a);
        SortedHeadFirst(a, b[0]);
        SortedHeadFirst(b, a[0]);
        LeAntisym(a[0], b[0]);
      }
      assert multiset(a[1..]) == multiset(b[1..]) by {
        TailMultiset(a);
        TailMultiset(b);
      }
      assert Sorted(a[1..]) && Sorted(b[1..]);
      SortedUnique(a[1..], b[1..]);
      assert a == [a[0]] + a[1..];
      assert b == [b[0]] + b[1..];
    }
  }

  /** The head of a sorted sequence comes first. */
  lemma SortedHeadFirst(s: seq<string>, y: string)
    requires Sorted(s) && y in multiset(s)
    ensures Le(s[0], y)
  {
    var j :| 0 <= j < |s| && s[j] == y;
    if j == 0 { LeRefl(y); }
  }

  lemma TailMultiset(s: seq<string>)
    requires s != []
    ensures multiset(s[1..]) == multiset(s) - multiset{s[0]}
  {
    assert s == [s[0]] + s[1..];
  }

  ghost predicate IsLeast(x: string, ms: multiset<string>) {
    x in ms && forall y :: y in ms ==> Le(x, y)
  }

  /** A least element of a non-empty multiset of strings. */
  lemma {:induction false} MinExists(ms: multiset<string>)
    requires ms != multiset{}
    ensures exists x :: IsLeast(x, ms)
    decreases |ms|
  {
    var z :| z in ms;
    var rest := ms - multiset{z};
    if rest == multiset{} {
      LeRefl(z);
      assert ms == multiset{z} by { assert ms == rest + multiset{z}; }
      assert IsLeast(z, ms);
    } else {
      MinExists(rest);
      var m :| IsLeast(m, rest);
      LeTotal(m, z);
      if Le(m, z) {
        LeastAdd(m, z, rest);
        assert rest + multiset{z} == ms;
      } else {
        LeRefl(z);
        LeastNew(m, z, rest);
        assert rest + multiset{z} == ms;
      }
    }
  }

  lemma LeastAdd(m: string, z: string, rest: multiset<string>)
    requires IsLeast(m, rest) && Le(m, z)
    ensures IsLeast(m, rest + multiset{z})
  {
  }

  lemma LeastNew(m: string, z: string, rest: multiset<string>)
    requires IsLeast(m, rest) && Le(z, m) && Le(z, z)
    ensures IsLeast(z, rest + multiset{z})
  {
    forall y | y in rest + multiset{z} ensures Le(z, y) {
      if y != z { LeTrans(z, m, y); }
    }
  }

  /** The sorted arrangement of a multiset of strings, the sequence
      `sort.Strings` leaves behind whatever order it was given: the least
      element first, then the arrangement of the rest. */
  ghost function SortedArrangement(ms: multiset<string>): seq<string>
    decreases |ms|
  {
    if ms == multiset{} then []
    else
      var x := Least(ms);
      [x] + SortedArrangement(ms - multiset{x})
  }

  ghost function Least(ms: multiset<string>): (x: string)
    requires ms != multiset{}
    ensures IsLeast(x, ms)
  {
    MinExists(ms);
    var x :| IsLeast(x, ms);
    x
  }

  /** The arrangement is sorted and holds exactly the given strings. */
  lemma {:induction false} SortedArrangementSound(ms: multiset<string>)
    ensures Sorted(SortedArrangement(ms)) && multiset(SortedArrangement(ms)) == ms
    decreases |ms|
  {
    if ms != multiset{} {
      var x := Least(ms);
      var t := SortedArrangement(ms - multiset{x});
      SortedArrangementSound(ms - multiset{x});
      ConsSorted(x, t);
    }
  }

  lemma ConsSorted(x: string, t: seq<string>)
    requires Sorted(t) && forall y :: y in multiset(t) ==> Le(x, y)
    ensures Sorted([x] + t)
  {
    forall i, j | 0 <= i < j < |t| + 1 ensures Le(([x] + t)[i], ([x] + t)[j]) {
      if i == 0 { assert t[j - 1] in multiset(t); }
    }
  }

  /** Sorting a permutation gives the same arrangement. */
  lemma SortIgnoresOrder(a: seq<string>, b: seq<string>, sa: seq<string>, sb: seq<string>)
    requires multiset(a) == multiset(b)
    requires Sorted(sa) && multiset(sa) == multiset(a)
    requires Sorted(sb) && multiset(sb) == multiset(b)
    ensures sa == sb == SortedArrangement(multiset(a))
  {
    SortedArrangementSound(multiset(a));
    SortedUnique(sa, SortedArrangement(multiset(a)));
    SortedUnique(sb, SortedArrangement(multiset(a)));
  }
}
