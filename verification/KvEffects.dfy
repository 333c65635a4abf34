/** What the cache operations do to flags, counters and admission, seen from outside. */
module KvEffects {
  import opened Sequences
  import opened KvCacheModel
  import opened KvCounters
  import opened KvLaws
  import opened KvTable
  import opened RuntimeModel

  /**
   Page states: committing makes every page of the request on its layers committed and
   no draft; drafting makes those that are not committed drafts; accepting makes the
   drafts committed. Other pages, pins and contents stay as they are.
   */
  lemma MarksMean(c: Cache, rid: int, layers: seq<int>, id: int)
    requires Inv(c) && id in c.pages
    ensures var mine, g := c.pages[id].requestId == rid && c.pages[id].layerId in layers, c.pages[id];
      && CommitMark(c, rid, layers).pages[id]
           == g.(isCommitted := g.isCommitted || mine, isDraft := g.isDraft && !mine)
      && DraftMark(c, rid, layers).pages[id] == g.(isDraft := g.isDraft || (mine && !g.isCommitted))
      && AcceptMark(c, rid, layers).pages[id]
           == g.(isCommitted := g.isCommitted || (mine && g.isDraft), isDraft := g.isDraft && !mine)
  {
    assert PageOk(c, id);
  }

  /** After commit or accept no draft of the request is left on its layers; drafting drafts what is not committed. */
  lemma DraftsLeft(c: Cache, rid: int, layers: seq<int>)
    requires Inv(c)
    ensures DraftIds(CommitMark(c, rid, layers), rid, layers) == {}
    ensures DraftIds(AcceptMark(c, rid, layers), rid, layers) == {}
    ensures forall id :: id in DraftIds(DraftMark(c, rid, layers), rid, layers) <==>
      id in c.pages && c.pages[id].requestId == rid && c.pages[id].layerId in layers && !c.pages[id].isCommitted
  {
    forall id | id in c.pages
      ensures id !in DraftIds(CommitMark(c, rid, layers), rid, layers)
      ensures id !in DraftIds(AcceptMark(c, rid, layers), rid, layers)
      ensures id in DraftIds(DraftMark(c, rid, layers), rid, layers) <==>
        c.pages[id].requestId == rid && c.pages[id].layerId in layers && !c.pages[id].isCommitted
    {
      MarksMean(c, rid, layers, id);
      assert PageOk(c, id);
    }
  }

  /** What eviction frees is what it reports: victims counted one by one, and their bytes. */
  lemma EvictionIsCounted(c: Cache, n: int)
    requires Inv(c)
    ensures var d := Evict(c, n);
      && d.evictions - c.evictions == |c.pages| - |d.pages|
      && d.evictedBytes - c.evictedBytes == Gauged(c, c.lru, LiveBytes) - Gauged(d, d.lru, LiveBytes)
  {
    var v := Victims(c, n);
    VictimsFacts(c, n);
    EvictInv(c, n);
    DropAllBytes(c, v);
    var d, e := Evict(c, n), Drop(c, Elems(v));
    GaugeAgree(d, e, d.lru, LiveBytes);
  }

  lemma {:induction false} DropAllBytes(c: Cache, v: seq<int>)
    requires Inv(c) && NoDup(v) && forall id :: id in v ==> id in c.pages
    ensures var e := Drop(c, Elems(v));
      Gauged(e, e.lru, LiveBytes) == Gauged(c, c.lru, LiveBytes) - Gauged(c, v, LiveBytes)
  {
    if v == [] {
      assert Elems(v) == {};
      DropNothingBytes(c);
    } else {
      var k := |v| - 1;
      var x, m := v[k], Drop(c, Elems(v[..k]));
      assert v == v[..k] + [x] && x !in v[..k] && x in v;
      assert forall id :: id in v[..k] ==> id in v;
      DropAllBytes(c, v[..k]);
      DropInv(c, Elems(v[..k]));
      DropTwice(c, Elems(v[..k]), {x});
      assert Elems(v) == Elems(v[..k]) + {x};
      GaugeDropOne(m, x, LiveBytes);
    }
  }

  lemma DropNothingBytes(c: Cache)
    requires Inv(c)
    ensures Drop(c, {}).lru == c.lru && Gauged(Drop(c, {}), c.lru, LiveBytes) == Gauged(c, c.lru, LiveBytes)
  {
    WithoutNone(c.lru, {});
    GaugeAgree(c, Drop(c, {}), c.lru, LiveBytes);
  }

  /** In a cache within its bound, the extra eviction before a commit never turns a refusal into a grant. */
  lemma CommitRaisesExactly(c: Cache, rid: int, layers: seq<int>, total: int)
    requires Inv(c) && |c.pages| <= c.maxPages
    ensures Commit(MakeSpace(c, rid, layers, total), rid, layers, total, true).Refused?
       <==> !CanAllocate(c, rid, layers, total)
  {
    if CanAllocate(c, rid, layers, total) {
      AdmissionAgrees(c, rid, layers, total, true);
    } else {
      var n := Needed(c, rid, layers, total);
      var m := Evict(c, n);
      EvictInv(c, n);
      AllGone(c, n);
      EvictNeeds(c, rid, layers, total, n);
      AdmissionAgrees(m, rid, layers, total, true);
    }
  }

  /** Evicting at least as many pages as are unpinned leaves none of them. */
  lemma AllGone(c: Cache, n: int)
    requires Inv(c) && n >= |Unpinned(c)|
    ensures Unpinned(Evict(c, n)) == {}
  {
    EvictionOrderFacts(c);
    assert Victims(c, n) == EvictionOrder(c);
    forall id | id in Evict(c, n).pages ensures id !in Unpinned(Evict(c, n)) {
      assert id !in EvictionOrder(c);
    }
  }

  lemma EvictNeeds(c: Cache, rid: int, layers: seq<int>, total: int, n: int)
    requires Inv(c)
    ensures Needed(c, rid, layers, total) <= Needed(Evict(c, n), rid, layers, total)
  {
    EvictInv(c, n);
    forall l | l in layers ensures |ListOf(Evict(c, n), (rid, l))| <= |ListOf(c, (rid, l))| {
      EvictListOf(c, n, (rid, l));
    }
    NeededGrows(c, Evict(c, n), rid, layers, total);
  }

  /** Pressure begins where more than seventeen twentieths of the pages are taken; a full cache is under pressure. */
  lemma PressureFromSeventeenTwentieths(c: Cache)
    ensures UnderPressure(c) <==> 20 * |c.pages| > 17 * c.maxPages
    ensures |c.pages| >= c.maxPages > 0 ==> UnderPressure(c)
  {}
}
