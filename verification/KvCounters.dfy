/** How the counted quantities react to each elementary change of the cache. */
module KvCounters {
  import opened Arithmetic
  import opened Sequences
  import opened KvCacheModel

  lemma GaugeSnoc(c: Cache, s: seq<int>, x: int, g: Gauge)
    ensures Gauged(c, s + [x], g) == Gauged(c, s, g) + Weight(c, x, g)
  {
    assert (s + [x])[..|s|] == s;
  }

  /** Lists whose pages weigh the same in both caches have the same total. */
  lemma {:induction false} GaugeAgree(c: Cache, d: Cache, s: seq<int>, g: Gauge)
    requires forall i :: 0 <= i < |s| ==> Weight(c, s[i], g) == Weight(d, s[i], g)
    ensures Gauged(c, s, g) == Gauged(d, s, g)
  {
    if s != [] {
      var k := |s| - 1;
      GaugeAgree(c, d, s[..k], g);
      assert Weight(c, s[k], g) == Weight(d, s[k], g);
    }
  }

  lemma {:induction false} GaugeWithout(c: Cache, s: seq<int>, x: int, g: Gauge)
    requires NoDup(s) && x in s
    ensures Gauged(c, Without(s, {x}), g) == Gauged(c, s, g) - Weight(c, x, g)
  {
    var k := |s| - 1;
    assert s == s[..k] + [s[k]];
    if s[k] == x {
      WithoutNone(s[..k], {x});
    } else {
      assert x in s[..k];
      GaugeWithout(c, s[..k], x, g);
      GaugeSnoc(c, Without(s[..k], {x}), s[k], g);
    }
  }

  lemma {:induction false} WithoutLength(s: seq<int>, x: int)
    requires NoDup(s) && x in s
    ensures |Without(s, {x})| == |s| - 1
  {
    var k := |s| - 1;
    assert s == s[..k] + [s[k]];
    if s[k] == x {
      WithoutNone(s[..k], {x});
    } else {
      assert x in s[..k];
      WithoutLength(s[..k], x);
    }
  }

  /** Changing one page changes the total by the change of its weight. */
  lemma {:induction false} GaugeUpdate(c: Cache, d: Cache, s: seq<int>, x: int, g: Gauge)
    requires NoDup(s) && x in s
    requires forall i :: 0 <= i < |s| && s[i] != x ==> Weight(c, s[i], g) == Weight(d, s[i], g)
    ensures Gauged(d, s, g) == Gauged(c, s, g) - Weight(c, x, g) + Weight(d, x, g)
  {
    var k := |s| - 1;
    assert s == s[..k] + [s[k]];
    if s[k] == x {
      GaugeAgree(c, d, s[..k], g);
    } else {
      assert x in s[..k];
      GaugeUpdate(c, d, s[..k], x, g);
      assert Weight(c, s[k], g) == Weight(d, s[k], g);
    }
  }

  lemma {:induction false} GaugeNonNegative(c: Cache, s: seq<int>, g: Gauge)
    requires Inv(c)
    ensures Gauged(c, s, g) >= 0
  {
    if s != [] {
      var k := |s| - 1;
      GaugeNonNegative(c, s[..k], g);
      if s[k] in c.pages {
        assert PageOk(c, s[k]);
        MulLe(0, c.pages[s[k]].tokenCount, c.bytesPerToken);
      }
    }
  }

  /** Moving a page to the end of the order changes no total. */
  lemma GaugeMove(c: Cache, s: seq<int>, x: int, g: Gauge)
    requires NoDup(s) && x in s
    ensures Gauged(c, Without(s, {x}) + [x], g) == Gauged(c, s, g)
  {
    GaugeWithout(c, s, x, g);
    GaugeSnoc(c, Without(s, {x}), x, g);
  }

  /** Taking one page out of the cache takes its weight out of every total. */
  lemma GaugeDropOne(c: Cache, x: int, g: Gauge)
    requires Inv(c) && x in c.pages
    ensures Gauged(Drop(c, {x}), Drop(c, {x}).lru, g) == Gauged(c, c.lru, g) - Weight(c, x, g)
    ensures |Drop(c, {x}).lru| == |c.lru| - 1
  {
    GaugeWithout(c, c.lru, x, g);
    WithoutLength(c.lru, x);
    WithoutMember(c.lru, {x});
    GaugeAgree(c, Drop(c, {x}), Without(c.lru, {x}), g);
  }

  /** A new page adds its own weight. */
  lemma GaugeAllocOne(c: Cache, rid: int, layer: int, start: int, count: int, pin: bool, g: Gauge)
    requires Inv(c)
    ensures var d := AllocOne(c, rid, layer, start, count, pin);
      Gauged(d, d.lru, g) == Gauged(c, c.lru, g) + Weight(d, c.nextId, g)
  {
    var d := AllocOne(c, rid, layer, start, count, pin);
    GaugeSnoc(d, c.lru, c.nextId, g);
    forall i | 0 <= i < |c.lru| ensures Weight(c, c.lru[i], g) == Weight(d, c.lru[i], g) {
      assert c.lru[i] in c.lru && c.lru[i] in c.pages;
      assert PageOk(c, c.lru[i]);
    }
    GaugeAgree(c, d, c.lru, g);
  }

  /** Live bytes, pinned bytes, used tokens and capacity tokens are the sums over the live pages. */
  ghost predicate Balanced(c: Cache, live: int, pinned: int, used: int, capacity: int) {
    && live == Gauged(c, c.lru, LiveBytes)
    && pinned == Gauged(c, c.lru, PinnedBytes)
    && used == Gauged(c, c.lru, UsedTokens)
    && capacity == |c.lru| * c.pageSize
  }

  lemma BalancedNonNegative(c: Cache, live: int, pinned: int, used: int, capacity: int)
    requires Inv(c) && Balanced(c, live, pinned, used, capacity)
    ensures live >= 0 && pinned >= 0 && used >= 0 && capacity >= 0
  {
    GaugeNonNegative(c, c.lru, LiveBytes);
    GaugeNonNegative(c, c.lru, PinnedBytes);
    GaugeNonNegative(c, c.lru, UsedTokens);
    MulLe(0, |c.lru|, c.pageSize);
  }

  /** The books after one page is dropped. */
  lemma DropOneBalanced(c: Cache, id: int, live: int, pinned: int, used: int, capacity: int)
    requires Inv(c) && id in c.pages && Balanced(c, live, pinned, used, capacity)
    ensures var g := c.pages[id]; var bytes := g.tokenCount * c.bytesPerToken;
      Balanced(Drop(c, {id}), live - bytes, if g.pinned then pinned - bytes else pinned,
               used - g.tokenCount, capacity - c.pageSize)
  {
    GaugeDropOne(c, id, LiveBytes);
    GaugeDropOne(c, id, PinnedBytes);
    GaugeDropOne(c, id, UsedTokens);
    MulStep(|c.lru|, c.pageSize);
  }

  /** The books after one page is added. */
  lemma AllocOneBalanced(c: Cache, rid: int, layer: int, start: int, count: int, pin: bool,
                         live: int, pinned: int, used: int, capacity: int)
    requires Inv(c) && Balanced(c, live, pinned, used, capacity)
    ensures var bytes := count * c.bytesPerToken;
      Balanced(AllocOne(c, rid, layer, start, count, pin), live + bytes, if pin then pinned + bytes else pinned,
               used + count, capacity + c.pageSize)
  {
    GaugeAllocOne(c, rid, layer, start, count, pin, LiveBytes);
    GaugeAllocOne(c, rid, layer, start, count, pin, UsedTokens);
    GaugeAllocOne(c, rid, layer, start, count, pin, PinnedBytes);
    MulStep(|c.lru|, c.pageSize);
  }

  /** Touching a page changes no total. */
  lemma TouchOneBalanced(c: Cache, id: int, live: int, pinned: int, used: int, capacity: int)
    requires Inv(c) && Balanced(c, live, pinned, used, capacity)
    ensures Balanced(TouchOne(c, id), live, pinned, used, capacity)
  {
    var d := TouchOne(c, id);
    if id in c.pages {
      WithoutLength(c.lru, id);
      GaugeMove(c, c.lru, id, LiveBytes);
      GaugeMove(c, c.lru, id, PinnedBytes);
      GaugeMove(c, c.lru, id, UsedTokens);
    }
    GaugeAgree(c, d, d.lru, LiveBytes);
    GaugeAgree(c, d, d.lru, PinnedBytes);
    GaugeAgree(c, d, d.lru, UsedTokens);
  }

  /** Draft and committed flags carry no weight. */
  lemma FlagsBalanced(c: Cache, d: Cache, live: int, pinned: int, used: int, capacity: int)
    requires Balanced(c, live, pinned, used, capacity)
    requires d == c.(pages := d.pages) && d.pages.Keys == c.pages.Keys
    requires forall id :: id in c.pages ==>
      d.pages[id] == c.pages[id].(isCommitted := d.pages[id].isCommitted, isDraft := d.pages[id].isDraft)
    ensures Balanced(d, live, pinned, used, capacity)
  {
    GaugeAgree(c, d, c.lru, LiveBytes);
    GaugeAgree(c, d, c.lru, PinnedBytes);
    GaugeAgree(c, d, c.lru, UsedTokens);
  }

  /** Caches with the same pages and LRU order have the same books. */
  lemma SamePagesBalanced(c: Cache, d: Cache, live: int, pinned: int, used: int, capacity: int)
    requires Balanced(c, live, pinned, used, capacity)
    requires c.pages == d.pages && c.lru == d.lru && c.bytesPerToken == d.bytesPerToken && c.pageSize == d.pageSize
    ensures Balanced(d, live, pinned, used, capacity)
  {
    GaugeAgree(c, d, c.lru, LiveBytes);
    GaugeAgree(c, d, c.lru, PinnedBytes);
    GaugeAgree(c, d, c.lru, UsedTokens);
  }

  /** The books after the pin of one live page is flipped. */
  lemma FlipPinBalanced(c: Cache, id: int, live: int, pinned: int, used: int, capacity: int)
    requires Inv(c) && id in c.pages && Balanced(c, live, pinned, used, capacity)
    ensures var g := c.pages[id]; var bytes := g.tokenCount * c.bytesPerToken;
      Balanced(c.(pages := c.pages[id := g.(pinned := !g.pinned)]),
               live, if g.pinned then pinned - bytes else pinned + bytes, used, capacity)
  {
    var d := c.(pages := c.pages[id := c.pages[id].(pinned := !c.pages[id].pinned)]);
    GaugeAgree(c, d, c.lru, LiveBytes);
    GaugeAgree(c, d, c.lru, UsedTokens);
    GaugeUpdate(c, d, c.lru, id, PinnedBytes);
  }
}
