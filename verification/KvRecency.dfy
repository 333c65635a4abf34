/** What the LRU order means: pages used later stand later, and eviction reaches them later. */
module KvRecency {
  import opened Sequences
  import opened KvCacheModel
  import opened KvAllocation
  import opened KvLaws

  /** `a` stands before `b`. */
  ghost predicate Before(s: seq<int>, a: int, b: int) {
    exists i, j :: 0 <= i < j < |s| && s[i] == a && s[j] == b
  }

  lemma BeforeSnoc(s: seq<int>, x: int, a: int, b: int)
    ensures Before(s + [x], a, b) <==> Before(s, a, b) || (b == x && a in s)
  {
    var t := s + [x];
    if i, j :| 0 <= i < j < |t| && t[i] == a && t[j] == b {
      assert j < |s| ==> s[i] == a && s[j] == b;
      assert j == |s| ==> s[i] == a;
    }
    if i, j :| 0 <= i < j < |s| && s[i] == a && s[j] == b {
      assert t[i] == a && t[j] == b;
    }
    if b == x && a in s {
      var i :| 0 <= i < |s| && s[i] == a;
      assert t[i] == a && t[|s|] == b;
    }
  }

  lemma {:induction false} BeforeWithout(s: seq<int>, x: int, a: int, b: int)
    ensures Before(Without(s, {x}), a, b) <==> a != x && b != x && Before(s, a, b)
  {
    if s != [] {
      var k := |s| - 1;
      BeforeWithout(s[..k], x, a, b);
      assert s == s[..k] + [s[k]];
      BeforeSnoc(s[..k], s[k], a, b);
      WithoutMember(s[..k], {x});
      if s[k] != x {
        BeforeSnoc(Without(s[..k], {x}), s[k], a, b);
      }
    }
  }

  lemma TouchOneOrder(c: Cache, x: int, a: int, b: int)
    requires Inv(c) && a in c.pages && b in c.pages && a != b
    ensures Older(TouchOne(c, x), a, b) <==> if b == x then true else a != x && Older(c, a, b)
  {
    var d := TouchOne(c, x);
    assert Older(c, a, b) <==> Before(c.lru, a, b);
    assert Older(d, a, b) <==> Before(d.lru, a, b);
    assert a in c.lru && b in c.lru;
    if x in c.pages {
      BeforeWithout(c.lru, x, a, b);
      WithoutMember(c.lru, {x});
      BeforeSnoc(Without(c.lru, {x}), x, a, b);
    }
  }

  /** `b` is used after the last use of `a`. */
  ghost predicate UsedAfter(ids: seq<int>, a: int, b: int) {
    exists j :: 0 <= j < |ids| && ids[j] == b && a !in ids[j..]
  }

  lemma UsedAfterCons(x: int, ids: seq<int>, a: int, b: int)
    requires a != b
    ensures UsedAfter([x] + ids, a, b) <==> UsedAfter(ids, a, b) || (b == x && a !in ids)
  {
    var t := [x] + ids;
    if j :| 0 <= j < |t| && t[j] == b && a !in t[j..] {
      if j > 0 {
        assert t[j..] == ids[j - 1..] && ids[j - 1] == b;
      } else {
        assert t[0..] == t && forall y :: y in ids ==> y in t;
      }
    }
    if j :| 0 <= j < |ids| && ids[j] == b && a !in ids[j..] {
      assert t[j + 1] == b && t[j + 1..] == ids[j..];
    }
    if b == x && a !in ids {
      assert t[0] == b && t[0..] == t;
    }
  }

  /**
   The LRU order after `touch_pages`: a touched page comes after every page whose last
   use is earlier, in particular after all that are not touched; untouched pages keep
   their order, before all touched ones.
   */
  lemma {:induction false} TouchOrder(c: Cache, ids: seq<int>, a: int, b: int)
    requires Inv(c) && a in c.pages && b in c.pages && a != b
    ensures Older(Touch(c, ids), a, b) <==> if b in ids then UsedAfter(ids, a, b) else a !in ids && Older(c, a, b)
    decreases |ids|
  {
    if ids != [] {
      var x, rest := ids[0], ids[1..];
      assert ids == [x] + rest;
      TouchOneInv(c, x);
      TouchOrder(TouchOne(c, x), rest, a, b);
      TouchOneOrder(c, x, a, b);
      UsedAfterCons(x, rest, a, b);
      if b in rest && a !in ids {
        NeverUsed(rest, a, b);
      }
    }
  }

  lemma NeverUsed(ids: seq<int>, a: int, b: int)
    requires b in ids && a !in ids
    ensures UsedAfter(ids, a, b)
  {
    var j :| 0 <= j < |ids| && ids[j] == b;
    assert forall y :: y in ids[j..] ==> y in ids;
  }

  /** Touching counts an access for each id, and a hit for each id that is live. */
  lemma {:induction false} TouchCounts(c: Cache, ids: seq<int>)
    requires Inv(c)
    ensures var d := Touch(c, ids);
      d.accesses == c.accesses + |ids| && d.hits == c.hits + |Within(ids, c.pages.Keys)|
    decreases |ids|
  {
    if ids != [] {
      TouchOneInv(c, ids[0]);
      TouchCounts(TouchOne(c, ids[0]), ids[1..]);
      assert ids == [ids[0]] + ids[1..];
      WithinConcat([ids[0]], ids[1..], c.pages.Keys);
      assert [ids[0]][..0] == [];
    }
  }

  /** Among unpinned pages of one kind, no touched page is evicted while one that was not touched is left. */
  lemma TouchedGoLast(c: Cache, ids: seq<int>, n: int, a: int, b: int)
    requires Inv(c) && a in Unpinned(c) && b in Unpinned(c) && c.pages[a].isDraft == c.pages[b].isDraft
    requires a !in ids && b in ids && b in Victims(Touch(c, ids), n)
    ensures a in Victims(Touch(c, ids), n)
  {
    TouchInv(c, ids);
    TouchOrder(c, ids, a, b);
    NeverUsed(ids, a, b);
    EvictionPolicy(Touch(c, ids), n, b, a);
  }

  /** New pages are the youngest, in the order in which they were allocated. */
  lemma NewPagesAreYoungest(c: Cache, d: Cache, rid: int, layers: seq<int>, pin: bool, a: int, b: int)
    requires Inv(c) && Inv(d) && Grown(c, d, rid, layers, pin) && a in d.pages && b in d.pages && b !in c.pages && a < b
    ensures Older(d, a, b)
  {
    assert a in d.lru && b in d.lru && b !in c.lru;
    var i :| 0 <= i < |d.lru| && d.lru[i] == a;
    var j :| 0 <= j < |d.lru| && d.lru[j] == b;
    var n, added := |c.lru|, Range(c.nextId, d.nextId - c.nextId);
    assert j >= n && d.lru[j] == added[j - n] == c.nextId + j - n;
    if i >= n {
      assert d.lru[i] == added[i - n] == c.nextId + i - n;
    }
  }
}
