/** What an allocation adds to the cache, and what it leaves alone. */
module KvAllocation {
  import opened Arithmetic
  import opened Sequences
  import opened KvCacheModel

  ghost predicate FreshPage(g: KVPage, rid: int, layers: seq<int>, pin: bool) {
    Owned(g, rid, layers) && g.pinned == pin && !g.isCommitted && !g.isDraft
  }

  /**
   `d` is `c` with new pages for `rid` on `layers`: old pages and other lists are
   untouched, and the new ids follow the old LRU order.
   */
  ghost predicate Grown(c: Cache, d: Cache, rid: int, layers: seq<int>, pin: bool) {
    && SameCounters(c, d)
    && c.nextId <= d.nextId
    && d.lru == c.lru + Range(c.nextId, d.nextId - c.nextId)
    && (forall id :: id in c.pages ==> id in d.pages && d.pages[id] == c.pages[id])
    && (forall id :: id in d.pages && id !in c.pages ==> c.nextId <= id && FreshPage(d.pages[id], rid, layers, pin))
    && (forall r: int, l: int :: r != rid || l !in layers ==> ListOf(d, (r, l)) == ListOf(c, (r, l)))
  }

  /** `d` is `c` with `k` more pages on one layer. */
  ghost predicate LayerGrown(c: Cache, d: Cache, rid: int, layer: int, k: nat, pin: bool) {
    && Grown(c, d, rid, [layer], pin)
    && d.nextId == c.nextId + k
    && ListOf(d, (rid, layer)) == ListOf(c, (rid, layer)) + Range(c.nextId, k)
  }

  lemma RangeSplit(a: int, j: nat, k: nat)
    ensures Range(a, j) + Range(a + j, k) == Range(a, j + k)
  {}

  lemma GrownTrans(c: Cache, d: Cache, e: Cache, rid: int, l1: seq<int>, l2: seq<int>, l: seq<int>, pin: bool)
    requires Grown(c, d, rid, l1, pin) && Grown(d, e, rid, l2, pin)
    requires forall x :: x in l1 || x in l2 ==> x in l
    ensures Grown(c, e, rid, l, pin)
  {
    RangeSplit(c.nextId, d.nextId - c.nextId, e.nextId - d.nextId);
    assert e.lru == c.lru + (Range(c.nextId, d.nextId - c.nextId) + Range(d.nextId, e.nextId - d.nextId));
    forall r: int, y: int | r != rid || y !in l ensures ListOf(e, (r, y)) == ListOf(c, (r, y)) {
      assert ListOf(d, (r, y)) == ListOf(c, (r, y));
    }
    forall id | id in e.pages && id !in c.pages
      ensures c.nextId <= id && FreshPage(e.pages[id], rid, l, pin)
    {
      if id in d.pages {
        assert FreshPage(d.pages[id], rid, l1, pin);
      } else {
        assert FreshPage(e.pages[id], rid, l2, pin);
      }
    }
  }

  lemma AllocOneInv(c: Cache, rid: int, layer: int, start: int, count: int, pin: bool)
    requires Inv(c) && 1 <= count <= c.pageSize
    ensures Inv(AllocOne(c, rid, layer, start, count, pin))
    ensures c.nextId !in c.pages
    ensures forall i :: i in c.pages ==> i < c.nextId
  {
    var d, id := AllocOne(c, rid, layer, start, count, pin), c.nextId;
    forall i | i in c.pages ensures i < id {
      assert PageOk(c, i);
    }
    forall i | i in d.pages ensures PageOk(d, i) {
      if i != id { assert PageOk(c, i); }
    }
    ConcatNoDup(c.lru, [id]);
  }

  lemma InvFreshIds(c: Cache)
    requires Inv(c)
    ensures FreshIds(c)
  {
    forall i | i in c.pages ensures i < c.nextId {
      assert PageOk(c, i);
    }
  }

  lemma AllocOneFacts(c: Cache, rid: int, layer: int, start: int, count: int, pin: bool)
    requires c.nextId >= 0 && c.nextId !in c.pages
    requires forall i :: i in c.pages ==> i < c.nextId
    ensures LayerGrown(c, AllocOne(c, rid, layer, start, count, pin), rid, layer, 1, pin)
  {
    var d, id := AllocOne(c, rid, layer, start, count, pin), c.nextId;
    assert Range(id, 1) == [id];
    forall r: int, l: int
      ensures ListOf(d, (r, l)) == if (r, l) == (rid, layer) then ListOf(c, (r, l)) + [id] else ListOf(c, (r, l))
    {
      AllocOneList(c, rid, layer, start, count, pin, (r, l));
    }
    assert ListOf(d, (rid, layer)) == ListOf(c, (rid, layer)) + [id];
  }

  lemma AllocOneList(c: Cache, rid: int, layer: int, start: int, count: int, pin: bool, k: LayerKey)
    requires c.nextId >= 0 && forall i :: i in c.pages ==> i < c.nextId
    ensures ListOf(AllocOne(c, rid, layer, start, count, pin), k)
         == if k == (rid, layer) then ListOf(c, k) + [c.nextId] else ListOf(c, k)
  {
    var d, id := AllocOne(c, rid, layer, start, count, pin), c.nextId;
    assert AllIds(d) == AllIds(c) + [id];
    forall x | x in AllIds(c) ensures x in Under(c, k) <==> x in Under(d, k) {
      RangeMember(0, id, x);
    }
    WithinAgree(AllIds(c), Under(c, k), Under(d, k));
    WithinSnoc(AllIds(c), id, Under(d, k));
  }

  lemma LayerGrownTrans(c: Cache, d: Cache, e: Cache, rid: int, layer: int, j: nat, k: nat, pin: bool)
    requires LayerGrown(c, d, rid, layer, j, pin) && LayerGrown(d, e, rid, layer, k, pin)
    ensures LayerGrown(c, e, rid, layer, j + k, pin)
  {
    GrownTrans(c, d, e, rid, [layer], [layer], [layer], pin);
    RangeSplit(c.nextId, j, k);
    assert ListOf(e, (rid, layer))
        == ListOf(c, (rid, layer)) + (Range(c.nextId, j) + Range(c.nextId + j, k));
  }

  lemma OnePageLess(k: nat, size: int, left: int)
    requires k > 0 && size >= 1 && (k - 1) * size < left
    ensures 1 <= Min(size, left) <= size
    ensures k > 1 ==> (k - 2) * size < left - Min(size, left)
  {
    MulLe(0, k - 1, size);
    if k > 1 {
      MulStep(k - 1, size);
      MulLe(0, k - 2, size);
    }
  }

  lemma {:induction false} AllocPagesInv(
    c: Cache, rid: int, layer: int, start: int, total: int, k: nat, pin: bool)
    requires Inv(c)
    requires k > 0 ==> (k - 1) * c.pageSize < total - start
    ensures Inv(AllocPages(c, rid, layer, start, total, k, pin))
    decreases k
  {
    if k > 0 {
      var count := Min(c.pageSize, total - start);
      OnePageLess(k, c.pageSize, total - start);
      AllocOneInv(c, rid, layer, start, count, pin);
      AllocPagesInv(AllocOne(c, rid, layer, start, count, pin), rid, layer, start + count, total, k - 1, pin);
    }
  }

  ghost predicate FreshIds(c: Cache) {
    c.nextId >= 0 && forall i :: i in c.pages ==> i < c.nextId
  }

  lemma {:induction false} AllocPagesGrow(
    c: Cache, rid: int, layer: int, start: int, total: int, k: nat, pin: bool)
    requires FreshIds(c)
    ensures LayerGrown(c, AllocPages(c, rid, layer, start, total, k, pin), rid, layer, k, pin)
    decreases k
  {
    if k == 0 {
      assert Range(c.nextId, 0) == [];
      assert c.lru + [] == c.lru;
      assert ListOf(c, (rid, layer)) + [] == ListOf(c, (rid, layer));
    } else {
      var count := Min(c.pageSize, total - start);
      var d := AllocOne(c, rid, layer, start, count, pin);
      AllocOneFacts(c, rid, layer, start, count, pin);
      AllocPagesGrow(d, rid, layer, start + count, total, k - 1, pin);
      LayerGrownTrans(c, d, AllocPages(d, rid, layer, start + count, total, k - 1, pin), rid, layer, 1, k - 1, pin);
    }
  }

  /** Missing pages counted from the existing capacity agree with the required total. */
  lemma MissingPages(have: nat, total: int, size: int)
    requires size >= 1
    ensures total > have * size ==>
      total > 0 && CeilDiv(total, size) > have && CeilDiv(total - have * size, size) == CeilDiv(total, size) - have
    ensures 0 < total <= have * size ==> CeilDiv(total, size) <= have
  {
    MulLe(0, have, size);
    if total > have * size {
      var k := CeilDiv(total - have * size, size);
      CeilDivFacts(total - have * size, size);
      assert (k - 1 + have) * size == (k - 1) * size + have * size;
      assert (k + have) * size == k * size + have * size;
      CeilDivUnique(total, size, k + have);
    } else if total > 0 {
      CeilDivFacts(total, size);
      if CeilDiv(total, size) > have {
        MulLe(have, CeilDiv(total, size) - 1, size);
        assert false;
      }
    }
  }

  lemma AllocLayerFacts(c: Cache, rid: int, layer: int, total: int, pin: bool)
    requires Inv(c)
    ensures var d := AllocLayer(c, rid, layer, total, pin);
      && Inv(d)
      && Grown(c, d, rid, [layer], pin)
      && d.nextId - c.nextId == Max(RequiredPages(c, total) - |ListOf(c, (rid, layer))|, 0)
      && Filled(c, d, rid, [layer], total)
  {
    var have := |ListOf(c, (rid, layer))|;
    var capacity := have * c.pageSize;
    MissingPages(have, total, c.pageSize);
    if total > capacity {
      var k := CeilDiv(total - capacity, c.pageSize);
      CeilDivFacts(total - capacity, c.pageSize);
      AllocPagesInv(c, rid, layer, capacity, total, k, pin);
      InvFreshIds(c);
      AllocPagesGrow(c, rid, layer, capacity, total, k, pin);
    } else {
      assert Range(c.nextId, 0) == [];
      assert c.lru + [] == c.lru;
    }
  }

  /** What is missing depends only on the lengths of the request's own lists. */
  lemma {:induction false} NeededSame(c: Cache, d: Cache, rid: int, layers: seq<int>, total: int)
    requires c.pageSize == d.pageSize >= 1
    requires forall l :: l in layers ==> |ListOf(c, (rid, l))| == |ListOf(d, (rid, l))|
    ensures Needed(c, rid, layers, total) == Needed(d, rid, layers, total)
  {
    if layers != [] {
      var k := |layers| - 1;
      var l := layers[k];
      assert layers == layers[..k] + [l] && l in layers;
      assert |ListOf(c, (rid, l))| == |ListOf(d, (rid, l))|;
      NeededSame(c, d, rid, layers[..k], total);
    }
  }

  lemma {:induction false} NeededHead(c: Cache, rid: int, layers: seq<int>, total: int)
    requires c.pageSize >= 1 && layers != []
    ensures Needed(c, rid, layers, total)
         == Max(RequiredPages(c, total) - |ListOf(c, (rid, layers[0]))|, 0) + Needed(c, rid, layers[1..], total)
  {
    var k := |layers| - 1;
    if k > 0 {
      assert layers[..k][1..] == layers[1..][..k - 1];
      NeededHead(c, rid, layers[..k], total);
    } else {
      assert layers[..k] == [] == layers[1..];
    }
  }

  /** Every listed layer of `d` reaches the required length and extends its list in `c`. */
  ghost predicate Filled(c: Cache, d: Cache, rid: int, layers: seq<int>, total: int)
    requires c.pageSize >= 1
  {
    forall l :: l in layers ==>
      && |ListOf(d, (rid, l))| == Max(RequiredPages(c, total), |ListOf(c, (rid, l))|)
      && ListOf(c, (rid, l)) <= ListOf(d, (rid, l))
  }

  lemma FilledTrans(c: Cache, d: Cache, e: Cache, rid: int, l0: int, rest: seq<int>, total: int, pin: bool)
    requires c.pageSize == d.pageSize >= 1
    requires Grown(c, d, rid, [l0], pin) && Grown(d, e, rid, rest, pin)
    requires Filled(c, d, rid, [l0], total) && Filled(d, e, rid, rest, total)
    ensures Filled(c, e, rid, [l0] + rest, total)
  {
    forall l | l in [l0] + rest
      ensures |ListOf(e, (rid, l))| == Max(RequiredPages(c, total), |ListOf(c, (rid, l))|)
      ensures ListOf(c, (rid, l)) <= ListOf(e, (rid, l))
    {
      if l != l0 {
        assert l in rest && l !in [l0];
        assert ListOf(d, (rid, l)) == ListOf(c, (rid, l));
      } else {
        assert l in [l0];
        if l !in rest {
          assert ListOf(e, (rid, l)) == ListOf(d, (rid, l));
        }
      }
    }
  }

  lemma NeededTail(c: Cache, d: Cache, rid: int, layers: seq<int>, total: int, pin: bool)
    requires c.pageSize == d.pageSize >= 1 && layers != [] && NoDup(layers)
    requires Grown(c, d, rid, [layers[0]], pin)
    ensures Needed(c, rid, layers, total)
         == Max(RequiredPages(c, total) - |ListOf(c, (rid, layers[0]))|, 0) + Needed(d, rid, layers[1..], total)
  {
    var rest := layers[1..];
    forall l | l in rest ensures ListOf(d, (rid, l)) == ListOf(c, (rid, l)) {
      var i :| 0 <= i < |rest| && rest[i] == l;
      assert layers[i + 1] == l;
    }
    NeededHead(c, rid, layers, total);
    NeededSame(c, d, rid, rest, total);
  }

  /** Allocation over all layers: each list is filled, nothing else moves, as many pages as needed are new. */
  lemma {:induction false} AllocLayersFacts(c: Cache, rid: int, layers: seq<int>, total: int, pin: bool)
    requires Inv(c)
    ensures Inv(AllocLayers(c, rid, layers, total, pin))
    ensures Grown(c, AllocLayers(c, rid, layers, total, pin), rid, layers, pin)
    ensures Filled(c, AllocLayers(c, rid, layers, total, pin), rid, layers, total)
    ensures NoDup(layers) ==>
      AllocLayers(c, rid, layers, total, pin).nextId == c.nextId + Needed(c, rid, layers, total)
    decreases |layers|
  {
    if layers == [] {
      assert Range(c.nextId, 0) == [];
      assert c.lru + [] == c.lru;
    } else {
      var l0, rest := layers[0], layers[1..];
      assert layers == [l0] + rest;
      var d := AllocLayer(c, rid, l0, total, pin);
      AllocLayerFacts(c, rid, l0, total, pin);
      AllocLayersFacts(d, rid, rest, total, pin);
      var e := AllocLayers(d, rid, rest, total, pin);
      assert e == AllocLayers(c, rid, layers, total, pin);
      GrownTrans(c, d, e, rid, [l0], rest, layers, pin);
      FilledTrans(c, d, e, rid, l0, rest, total, pin);
      if NoDup(layers) {
        NeededTail(c, d, rid, layers, total, pin);
      }
    }
  }

  lemma GrownSize(c: Cache, d: Cache, rid: int, layers: seq<int>, pin: bool)
    requires Inv(c) && Inv(d) && Grown(c, d, rid, layers, pin)
    ensures |d.pages| == |c.pages| + (d.nextId - c.nextId)
  {
    LiveIsLru(c);
    LiveIsLru(d);
  }
}
