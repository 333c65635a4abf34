/** Duplicate-free lists of page ids: filtering, counting and prefixes. */
module Sequences {

  predicate NoDup(s: seq<int>) {
    forall i, j :: 0 <= i < j < |s| ==> s[i] != s[j]
  }

  function Elems(s: seq<int>): (r: set<int>)
    ensures forall x :: x in r <==> x in s
  {
    set x | x in s
  }

  function Min(a: int, b: int): int { if a < b then a else b }

  function Max(a: int, b: int): int { if a > b then a else b }

  /** The first `n` elements, or all of them, or none when `n` is not positive. */
  function Take<T>(s: seq<T>, n: int): (r: seq<T>)
    ensures |r| == Max(0, Min(n, |s|))
  {
    if n <= 0 then [] else s[..Min(n, |s|)]
  }

  /** The elements of `s` that lie in `d`, in order. */
  function Within(s: seq<int>, d: set<int>): (r: seq<int>) {
    if s == [] then []
    else
      var k := |s| - 1;
      if s[k] in d then Within(s[..k], d) + [s[k]] else Within(s[..k], d)
  }

  /** The elements of `s` outside `d`, in order. */
  function Without(s: seq<int>, d: set<int>): (r: seq<int>) {
    if s == [] then []
    else
      var k := |s| - 1;
      if s[k] in d then Without(s[..k], d) else Without(s[..k], d) + [s[k]]
  }

  function Range(a: int, k: nat): (r: seq<int>)
    ensures |r| == k
    ensures forall i :: 0 <= i < k ==> r[i] == a + i
  {
    seq(k, i requires 0 <= i < k => a + i)
  }

  lemma RangeMember(a: int, k: nat, x: int)
    ensures x in Range(a, k) <==> a <= x < a + k
  {
    if a <= x < a + k {
      assert Range(a, k)[x - a] == x;
    }
  }

  lemma {:induction false} WithinMember(s: seq<int>, d: set<int>)
    ensures forall x :: x in Within(s, d) <==> x in s && x in d
  {
    if s != [] {
      WithinMember(s[..|s| - 1], d);
      assert s == s[..|s| - 1] + [s[|s| - 1]];
    }
  }

  lemma {:induction false} WithoutMember(s: seq<int>, d: set<int>)
    ensures forall x :: x in Without(s, d) <==> x in s && x !in d
  {
    if s != [] {
      WithoutMember(s[..|s| - 1], d);
      assert s == s[..|s| - 1] + [s[|s| - 1]];
    }
  }

  lemma WithinSnoc(s: seq<int>, x: int, d: set<int>)
    ensures Within(s + [x], d) == if x in d then Within(s, d) + [x] else Within(s, d)
  {
    assert (s + [x])[..|s|] == s;
  }

  lemma WithoutSnoc(s: seq<int>, x: int, d: set<int>)
    ensures Without(s + [x], d) == if x in d then Without(s, d) else Without(s, d) + [x]
  {
    assert (s + [x])[..|s|] == s;
  }

  lemma {:induction false} WithinConcat(s: seq<int>, t: seq<int>, d: set<int>)
    ensures Within(s + t, d) == Within(s, d) + Within(t, d)
  {
    if t == [] {
      assert s + t == s;
    } else {
      var k := |t| - 1;
      WithinConcat(s, t[..k], d);
      assert s + t == (s + t[..k]) + [t[k]] && t == t[..k] + [t[k]];
      WithinSnoc(s + t[..k], t[k], d);
      WithinSnoc(t[..k], t[k], d);
    }
  }

  lemma {:induction false} WithoutConcat(s: seq<int>, t: seq<int>, d: set<int>)
    ensures Without(s + t, d) == Without(s, d) + Without(t, d)
  {
    if t == [] {
      assert s + t == s;
    } else {
      var k := |t| - 1;
      WithoutConcat(s, t[..k], d);
      assert s + t == (s + t[..k]) + [t[k]] && t == t[..k] + [t[k]];
      WithoutSnoc(s + t[..k], t[k], d);
      WithoutSnoc(t[..k], t[k], d);
    }
  }

  lemma {:induction false} WithinNoDup(s: seq<int>, d: set<int>)
    requires NoDup(s)
    ensures NoDup(Within(s, d))
  {
    if s != [] {
      WithinNoDup(s[..|s| - 1], d);
      WithinMember(s[..|s| - 1], d);
    }
  }

  lemma {:induction false} WithoutNoDup(s: seq<int>, d: set<int>)
    requires NoDup(s)
    ensures NoDup(Without(s, d))
  {
    if s != [] {
      WithoutNoDup(s[..|s| - 1], d);
      WithoutMember(s[..|s| - 1], d);
    }
  }

  lemma {:induction false} WithoutTwice(s: seq<int>, d: set<int>, e: set<int>)
    ensures Without(Without(s, d), e) == Without(s, d + e)
  {
    if s != [] {
      var k := |s| - 1;
      WithoutTwice(s[..k], d, e);
      if s[k] !in d {
        WithoutSnoc(Without(s[..k], d), s[k], e);
      }
    }
  }

  lemma {:induction false} WithinAgree(s: seq<int>, d: set<int>, e: set<int>)
    requires forall i :: 0 <= i < |s| ==> (s[i] in d <==> s[i] in e)
    ensures Within(s, d) == Within(s, e)
  {
    if s != [] {
      var k := |s| - 1;
      WithinAgree(s[..k], d, e);
      assert s[k] in d <==> s[k] in e;
    }
  }

  lemma {:induction false} WithoutOfWithin(s: seq<int>, d: set<int>, e: set<int>)
    ensures Without(Within(s, d), e) == Within(s, d - e)
  {
    if s != [] {
      var k := |s| - 1;
      WithoutOfWithin(s[..k], d, e);
      if s[k] in d {
        WithoutSnoc(Within(s[..k], d), s[k], e);
      }
    }
  }

  lemma {:induction false} WithinNone(s: seq<int>, d: set<int>)
    requires forall x | x in s :: x !in d
    ensures Within(s, d) == []
  {
    if s != [] {
      var k := |s| - 1;
      assert s == s[..k] + [s[k]] && s[k] in s;
      WithinNone(s[..k], d);
      WithinSnoc(s[..k], s[k], d);
    }
  }

  lemma {:induction false} WithinAfterWithout(s: seq<int>, d: set<int>, e: set<int>)
    requires d !! e
    ensures Within(Without(s, d), e) == Within(s, e)
  {
    if s != [] {
      var k := |s| - 1;
      WithinAfterWithout(s[..k], d, e);
      if s[k] !in d {
        WithinSnoc(Without(s[..k], d), s[k], e);
      }
    }
  }

  lemma {:induction false} WithoutNone(s: seq<int>, d: set<int>)
    requires forall x | x in s :: x !in d
    ensures Without(s, d) == s
  {
    if s != [] {
      var k := |s| - 1;
      assert s == s[..k] + [s[k]] && s[k] in s;
      WithoutNone(s[..k], d);
      WithoutSnoc(s[..k], s[k], d);
    }
  }

  lemma {:induction false} WithoutAll(s: seq<int>, d: set<int>)
    requires forall x | x in s :: x in d
    ensures Without(s, d) == []
  {
    if s != [] {
      var k := |s| - 1;
      assert s == s[..k] + [s[k]] && s[k] in s;
      WithoutAll(s[..k], d);
      WithoutSnoc(s[..k], s[k], d);
    }
  }

  lemma {:induction false} SplitLength(s: seq<int>, d: set<int>)
    ensures |Within(s, d)| + |Without(s, d)| == |s|
  {
    if s != [] {
      SplitLength(s[..|s| - 1], d);
    }
  }

  /** A duplicate-free list is as long as its set of elements is large. */
  lemma {:induction false} NoDupSize(s: seq<int>)
    requires NoDup(s)
    ensures |Elems(s)| == |s|
  {
    if s != [] {
      var k := |s| - 1;
      NoDupSize(s[..k]);
      assert Elems(s) == Elems(s[..k]) + {s[k]};
    }
  }

  lemma ConcatNoDup(s: seq<int>, t: seq<int>)
    requires NoDup(s) && NoDup(t)
    requires forall x :: x in s ==> x !in t
    ensures NoDup(s + t)
  {
    var u := s + t;
    forall i, j | 0 <= i < j < |u| ensures u[i] != u[j] {
      if i < |s| <= j {
        assert u[i] == s[i] && u[j] == t[j - |s|] && s[i] in s;
      }
    }
  }

  lemma SameElementsSameLength(s: seq<int>, t: seq<int>)
    requires NoDup(s) && NoDup(t)
    requires forall x :: x in s <==> x in t
    ensures |s| == |t|
  {
    assert forall x :: x in Elems(s) <==> x in Elems(t);
    assert Elems(s) == Elems(t);
    NoDupSize(s);
    NoDupSize(t);
  }

  lemma SetSize(s: seq<int>, d: set<int>)
    requires NoDup(s)
    requires forall x :: x in s <==> x in d
    ensures |s| == |d|
  {
    NoDupSize(s);
    assert Elems(s) == d;
  }

  lemma TakeConcat<T>(s: seq<T>, t: seq<T>, n: int)
    ensures Take(s, n) + Take(t, n - |Take(s, n)|) == Take(s + t, n)
  {}

  lemma TakeMember(s: seq<int>, n: int)
    ensures forall x :: x in Take(s, n) ==> x in s
  {
    forall x | x in Take(s, n) ensures x in s {
      var j :| 0 <= j < |Take(s, n)| && Take(s, n)[j] == x;
      assert s[j] == x;
    }
  }

  /** Filtering a prefix gives a prefix of the filtered list. */
  lemma WithinPrefix(s: seq<int>, i: nat, d: set<int>)
    requires i <= |s|
    ensures |Within(s[..i], d)| <= |Within(s, d)|
    ensures Within(s, d)[..|Within(s[..i], d)|] == Within(s[..i], d)
  {
    assert s == s[..i] + s[i..];
    WithinConcat(s[..i], s[i..], d);
  }

  /** Python's `list.remove`: drops the first occurrence. */
  function RemoveFirst(s: seq<int>, x: int): (r: seq<int>) {
    if s == [] then [] else if s[0] == x then s[1..] else [s[0]] + RemoveFirst(s[1..], x)
  }

  lemma {:induction false} RemoveFirstIsWithout(s: seq<int>, x: int)
    requires NoDup(s)
    ensures RemoveFirst(s, x) == Without(s, {x})
  {
    if s != [] {
      assert s == [s[0]] + s[1..];
      WithoutConcat([s[0]], s[1..], {x});
      if s[0] == x {
        WithoutNone(s[1..], {x});
      } else {
        RemoveFirstIsWithout(s[1..], x);
        WithoutNone([s[0]], {x});
      }
    }
  }

  /** `n` elements from `at` on; nothing if they are not all there. */
  function Slice<T>(s: seq<T>, at: int, n: int): seq<T> {
    if 0 <= at <= at + n <= |s| then s[at..at + n] else []
  }

  /** `s` with the elements from `at` on replaced by those of `v`; unchanged if they do not fit. */
  function Splice<T>(s: seq<T>, at: int, v: seq<T>): (t: seq<T>)
    ensures |t| == |s|
  {
    if 0 <= at <= at + |v| <= |s| then s[..at] + v + s[at + |v|..] else s
  }

  lemma SpliceOwn<T>(s: seq<T>, at: int, v: seq<T>)
    requires 0 <= at <= at + |v| <= |s|
    ensures Slice(Splice(s, at, v), at, |v|) == v
  {}

  lemma SpliceApart<T>(s: seq<T>, at: int, v: seq<T>, other: int, n: int)
    requires other + n <= at || at + |v| <= other
    ensures Slice(Splice(s, at, v), other, n) == Slice(s, other, n)
  {}

  /** The scan ends at the first of: nothing left to scan, or enough pushed down. */
  lemma ScanIsTake(d: seq<int>, m: set<int>, k: nat, excess: int)
    requires k <= |d| && |Within(d[..k], m)| <= Max(excess, 0)
    requires k == |d| || |Within(d[..k], m)| >= excess
    ensures Within(d[..k], m) == Take(Within(d, m), excess)
  {
    WithinPrefix(d, k, m);
    if k == |d| {
      assert d[..k] == d;
    }
  }

  lemma ScanStep(d: seq<int>, m: set<int>, k: nat)
    requires k < |d|
    ensures Within(d[..k + 1], m) == if d[k] in m then Within(d[..k], m) + [d[k]] else Within(d[..k], m)
  {
    assert d[..k + 1] == d[..k] + [d[k]];
    WithinSnoc(d[..k], d[k], m);
  }

  lemma NotYetScanned(d: seq<int>, m: set<int>, k: nat)
    requires NoDup(d) && k < |d|
    ensures d[k] !in Within(d[..k], m)
  {
    WithinMember(d[..k], m);
    forall j | 0 <= j < k ensures d[..k][j] != d[k] {
      assert d[..k][j] == d[j];
    }
  }

  lemma SubsetSize(a: set<int>, b: set<int>)
    requires a <= b
    ensures |a| <= |b|
  {
    assert b == a + (b - a);
  }

  /** A duplicate-free list of numbers below `n` has at most `n` of them. */
  lemma DistinctBelow(s: seq<int>, n: nat)
    requires NoDup(s) && forall i :: i in s ==> 0 <= i < n
    ensures |s| <= n
  {
    NoDupSize(s);
    NoDupSize(Range(0, n));
    forall i | i in Elems(s) ensures i in Elems(Range(0, n)) {
      RangeMember(0, n, i);
    }
    SubsetSize(Elems(s), Elems(Range(0, n)));
  }

  /** One that misses a number below `n` has fewer. */
  lemma RoomForOne(s: seq<int>, n: nat, x: int)
    requires NoDup(s) && x !in s && 0 <= x < n && forall y :: y in s ==> 0 <= y < n
    ensures |s| < n
  {
    ConcatNoDup(s, [x]);
    DistinctBelow(s + [x], n);
  }

  /** A filtered range is in ascending order. */
  lemma {:induction false} WithinAscends(n: nat, d: set<int>, a: nat, b: nat)
    requires a < b < |Within(Range(0, n), d)|
    ensures Within(Range(0, n), d)[a] < Within(Range(0, n), d)[b]
  {
    assert Range(0, n)[..n - 1] == Range(0, n - 1);
    var w := Within(Range(0, n - 1), d);
    if b < |w| {
      WithinAscends(n - 1, d, a, b);
    } else {
      WithinMember(Range(0, n - 1), d);
      assert w[a] in w;
      RangeMember(0, n - 1, w[a]);
    }
  }
}
