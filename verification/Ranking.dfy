/**
 Ranking a duplicate-free list by a strict total order: the reference sort, the
 uniqueness of its result, and the step of repeatedly taking the best that is left.
 */
module Ranking {
  import opened Sequences

  type Order = (int, int) -> bool

  /** `lt` orders the elements of `s` strictly and totally. */
  ghost predicate TotalOn(lt: Order, s: seq<int>) {
    && (forall x :: x in s ==> !lt(x, x))
    && (forall x, y :: x in s && y in s && x != y ==> lt(x, y) || lt(y, x))
    && (forall x, y, z :: x in s && y in s && z in s && lt(x, y) && lt(y, z) ==> lt(x, z))
  }

  ghost predicate Sorted(lt: Order, s: seq<int>) {
    forall i, j :: 0 <= i < j < |s| ==> lt(s[i], s[j])
  }

  function Insert(lt: Order, x: int, s: seq<int>): (r: seq<int>)
    ensures |r| == |s| + 1
  {
    if s == [] || lt(x, s[0]) then [x] + s else [s[0]] + Insert(lt, x, s[1..])
  }

  /** The reference: insertion sort. */
  function Sort(lt: Order, s: seq<int>): (r: seq<int>)
    ensures |r| == |s|
  {
    if s == [] then [] else Insert(lt, s[0], Sort(lt, s[1..]))
  }

  lemma {:induction false} InsertMember(lt: Order, x: int, s: seq<int>)
    ensures forall y :: y in Insert(lt, x, s) <==> y == x || y in s
  {
    if s != [] && !lt(x, s[0]) {
      InsertMember(lt, x, s[1..]);
      assert s == [s[0]] + s[1..];
    }
  }

  lemma {:induction false} SortMember(lt: Order, s: seq<int>)
    ensures forall y :: y in Sort(lt, s) <==> y in s
  {
    if s != [] {
      SortMember(lt, s[1..]);
      InsertMember(lt, s[0], Sort(lt, s[1..]));
      assert s == [s[0]] + s[1..];
    }
  }

  /** A list stays sorted behind a new head that comes before all of it. */
  lemma HeadFirst(lt: Order, x: int, s: seq<int>)
    requires Sorted(lt, s) && forall j :: 0 <= j < |s| ==> lt(x, s[j])
    ensures Sorted(lt, [x] + s)
  {}

  lemma {:induction false} InsertSorted(lt: Order, x: int, s: seq<int>)
    requires Sorted(lt, s) && TotalOn(lt, [x] + s) && x !in s
    ensures Sorted(lt, Insert(lt, x, s))
  {
    var all := [x] + s;
    assert all[0] == x && forall i :: 0 <= i < |s| ==> all[i + 1] == s[i];
    if s == [] || lt(x, s[0]) {
      forall j | 0 <= j < |s| ensures lt(x, s[j]) {
        assert s[0] in all && s[j] in all && x in all;
      }
      HeadFirst(lt, x, s);
    } else {
      var t := Insert(lt, x, s[1..]);
      assert forall y :: y in [x] + s[1..] ==> y in all;
      InsertSorted(lt, x, s[1..]);
      InsertMember(lt, x, s[1..]);
      forall j | 0 <= j < |t| ensures lt(s[0], t[j]) {
        assert t[j] in t && s[0] in all && x in all;
        if t[j] != x {
          var k :| 0 <= k < |s[1..]| && s[1..][k] == t[j];
          assert lt(s[0], s[k + 1]);
        }
      }
      HeadFirst(lt, s[0], t);
    }
  }

  lemma {:induction false} SortSorted(lt: Order, s: seq<int>)
    requires NoDup(s) && TotalOn(lt, s)
    ensures Sorted(lt, Sort(lt, s))
  {
    if s != [] {
      var t := s[1..];
      assert s == [s[0]] + t;
      assert forall y :: y in t ==> y in s;
      SortSorted(lt, t);
      SortMember(lt, t);
      assert forall y :: y in [s[0]] + Sort(lt, t) ==> y in s;
      assert s[0] !in Sort(lt, t);
      InsertSorted(lt, s[0], Sort(lt, t));
    }
  }

  lemma SortedNoDup(lt: Order, s: seq<int>)
    requires Sorted(lt, s) && forall x :: x in s ==> !lt(x, x)
    ensures NoDup(s)
  {
    forall i, j | 0 <= i < j < |s| ensures s[i] != s[j] {
      assert lt(s[i], s[j]) && s[i] in s;
    }
  }

  /** In a sorted list, what comes before everything that is left is the next element. */
  lemma NextInSorted(lt: Order, t: seq<int>, done: seq<int>, x: int)
    requires Sorted(lt, t) && forall y, z :: y in t && z in t && lt(y, z) ==> !lt(z, y)
    requires done <= t && x in t && x !in done
    requires forall y :: y in t && y !in done && y != x ==> lt(x, y)
    ensures done + [x] <= t
  {
    var p :| 0 <= p < |t| && t[p] == x;
    var q := |done|;
    forall i | 0 <= i < q ensures t[i] != x {
      assert done[i] == t[i];
    }
    var y := t[q];
    assert y in t;
    forall i | 0 <= i < q ensures done[i] != y {
      assert done[i] == t[i] && lt(t[i], y) && t[i] in t;
    }
    assert q < p ==> lt(y, x);
    assert y != x ==> lt(x, y);
  }

  /**
   Taking the best of what is left extends a prefix of the sorted list: if `done`
   is a prefix of the sorted list and `x` comes before everything else that is
   left, then `x` is the next element.
   */
  lemma NextRanked(lt: Order, s: seq<int>, done: seq<int>, x: int)
    requires NoDup(s) && TotalOn(lt, s)
    requires done <= Sort(lt, s)
    requires x in s && x !in done
    requires forall y :: y in s && y !in done && y != x ==> lt(x, y)
    ensures done + [x] <= Sort(lt, s)
  {
    SortSorted(lt, s);
    SortMember(lt, s);
    Asymmetric(lt, s);
    NextInSorted(lt, Sort(lt, s), done, x);
  }

  lemma Asymmetric(lt: Order, s: seq<int>)
    requires TotalOn(lt, s)
    ensures forall x, y :: x in s && y in s && lt(x, y) ==> !lt(y, x)
  {}

  /** When nothing is left, everything has been ranked. */
  lemma AllRanked(lt: Order, s: seq<int>, done: seq<int>)
    requires NoDup(s) && TotalOn(lt, s) && done <= Sort(lt, s)
    requires forall y :: y in s ==> y in done
    ensures done == Sort(lt, s)
  {
    var t := Sort(lt, s);
    SortSorted(lt, s);
    SortMember(lt, s);
    SortedNoDup(lt, t);
    SortedNoDup(lt, done) by {
      assert forall i :: 0 <= i < |done| ==> done[i] == t[i];
      assert forall y :: y in done ==> y in t;
    }
    SameElementsSameLength(done, t) by {
      assert forall i :: 0 <= i < |done| ==> done[i] == t[i];
    }
  }

  /** Only one list of given elements is sorted. */
  lemma {:induction false} SortedUnique(lt: Order, s: seq<int>, t: seq<int>)
    requires Sorted(lt, s) && Sorted(lt, t) && |s| == |t| && (forall x :: x in s <==> x in t)
    requires forall x, y :: x in s && y in s && lt(x, y) ==> !lt(y, x)
    ensures s == t
  {
    if s != [] {
      assert s[0] in s && t[0] in t;
      var i :| 0 <= i < |s| && s[i] == t[0];
      var j :| 0 <= j < |t| && t[j] == s[0];
      assert s[0] in s && s[i] in s;
      assert i == 0;
      TailMembers(lt, s);
      TailMembers(lt, t);
      SortedUnique(lt, s[1..], t[1..]);
      assert s == [s[0]] + s[1..] && t == [t[0]] + t[1..];
    }
  }

  lemma TailMembers(lt: Order, s: seq<int>)
    requires Sorted(lt, s) && s != [] && forall x, y :: x in s && y in s && lt(x, y) ==> !lt(y, x)
    ensures forall x :: x in s[1..] <==> x in s && x != s[0]
  {
    assert s == [s[0]] + s[1..];
    forall i | 1 <= i < |s| ensures s[i] != s[0] {
      assert lt(s[0], s[i]) && s[0] in s && s[i] in s;
    }
  }

  /** Sorting does not depend on the order in which the elements come. */
  lemma SortUnique(lt: Order, s: seq<int>, t: seq<int>)
    requires NoDup(s) && NoDup(t) && TotalOn(lt, s) && forall x :: x in s <==> x in t
    ensures Sort(lt, s) == Sort(lt, t)
  {
    SortSorted(lt, s);
    SortSorted(lt, t);
    SortMember(lt, s);
    SortMember(lt, t);
    Asymmetric(lt, s);
    SameElementsSameLength(s, t);
    SortedUnique(lt, Sort(lt, s), Sort(lt, t));
  }
}
