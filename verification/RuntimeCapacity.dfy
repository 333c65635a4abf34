/**
 Runs with room for everything: nothing is evicted, nothing is rebuilt, nothing
 raises, and the cache holds exactly the pages its requests need.
 */
module RuntimeCapacity {
  import opened Arithmetic
  import opened Sequences
  import opened KvCacheModel
  import opened KvAllocation
  import opened KvLaws
  import opened Requests
  import opened RuntimeModel
  import opened RuntimeTokens
  import opened RuntimeResidency
  import opened RuntimeProgress

  // ------------------------------------------------------------ what is held exactly

  /** Pages for `total` tokens of a request. */
  function PagesFor(c: Cache, r: Req, total: int): int
    requires c.pageSize >= 1
  {
    Times(RequiredPages(c, total), |r.layers|)
  }

  /** Every layer's list has exactly the required length, and the snapshot is exact. */
  ghost predicate Exact(c: Cache, r: Req, total: int)
    requires c.pageSize >= 1
  {
    && OwnShape(c, r, total) && Snapped(c, r) && HasSnapshot(c, r)
    && (forall l :: l in r.layers ==> |ListOf(c, (r.requestId, l))| == RequiredPages(c, total))
  }

  /** From `c` to `d` nothing is lost or evicted, and only `rid` gains pages. */
  ghost predicate Gained(c: Cache, d: Cache, rid: int) {
    && Inv(d) && SameSettings(c, d) && d.evictions == c.evictions && c.nextId <= d.nextId
    && (forall id :: id in c.pages ==> id in d.pages && KeyOf(d.pages[id]) == KeyOf(c.pages[id]))
    && (forall id :: id in d.pages && id !in c.pages ==> c.nextId <= id && d.pages[id].requestId == rid)
    && (forall r: int, l: int :: r != rid ==> ListOf(d, (r, l)) == ListOf(c, (r, l)))
  }

  /** Only flags, LRU order and access counters change. */
  ghost predicate Reflagged(c: Cache, d: Cache) {
    && Inv(d) && SameSettings(c, d) && d.evictions == c.evictions && d.nextId == c.nextId
    && d.pages.Keys == c.pages.Keys
    && (forall id :: id in c.pages ==> KeyOf(d.pages[id]) == KeyOf(c.pages[id]))
    && (forall r: int, l: int :: ListOf(d, (r, l)) == ListOf(c, (r, l)))
  }

  lemma ReflaggedGains(c: Cache, d: Cache, rid: int)
    requires Reflagged(c, d)
    ensures Gained(c, d, rid) && |d.pages| == |c.pages|
  {
    assert |d.pages| == |d.pages.Keys| && |c.pages| == |c.pages.Keys|;
  }

  lemma ReflaggedTrans(c: Cache, d: Cache, e: Cache)
    requires Reflagged(c, d) && Reflagged(d, e)
    ensures Reflagged(c, e)
  {
    forall r: int, l: int ensures ListOf(e, (r, l)) == ListOf(c, (r, l)) {
      assert ListOf(d, (r, l)) == ListOf(c, (r, l));
    }
    forall id | id in c.pages ensures KeyOf(e.pages[id]) == KeyOf(c.pages[id]) {
      assert KeyOf(d.pages[id]) == KeyOf(c.pages[id]);
    }
  }

  lemma GainedTrans(c: Cache, d: Cache, e: Cache, rid: int)
    requires Gained(c, d, rid) && Gained(d, e, rid)
    ensures Gained(c, e, rid)
  {
    forall r: int, l: int | r != rid ensures ListOf(e, (r, l)) == ListOf(c, (r, l)) {
      assert ListOf(d, (r, l)) == ListOf(c, (r, l));
    }
    forall id | id in c.pages ensures id in e.pages && KeyOf(e.pages[id]) == KeyOf(c.pages[id]) {
      assert KeyOf(d.pages[id]) == KeyOf(c.pages[id]);
    }
    forall id | id in e.pages && id !in c.pages ensures c.nextId <= id && e.pages[id].requestId == rid {
      if id in d.pages {
        assert KeyOf(d.pages[id]) == KeyOf(e.pages[id]);
      }
    }
  }

  lemma PinReflags(c: Cache, ids: seq<int>, pin: bool)
    requires Inv(c)
    ensures Reflagged(c, SetPinned(c, ids, pin))
  {
    SetPinnedInv(c, ids, pin);
    forall r: int, l: int ensures ListOf(SetPinned(c, ids, pin), (r, l)) == ListOf(c, (r, l)) {
      SameUnder(c, SetPinned(c, ids, pin), (r, l));
    }
  }

  lemma TouchReflags(c: Cache, ids: seq<int>)
    requires Inv(c)
    ensures Reflagged(c, Touch(c, ids))
  {
    TouchInv(c, ids);
    assert forall k: LayerKey :: ListOf(Touch(c, ids), k) == ListOf(c, k);
  }

  lemma MarkReflags(c: Cache, rid: int, layers: seq<int>)
    requires Inv(c)
    ensures Reflagged(c, CommitMark(c, rid, layers))
  {
    MarkOwnedInv(c, rid, layers, CommitPage);
    assert forall k: LayerKey :: ListOf(CommitMark(c, rid, layers), k) == ListOf(c, k);
    forall id | id in c.pages ensures KeyOf(CommitMark(c, rid, layers).pages[id]) == KeyOf(c.pages[id]) {
      assert PageOk(c, id);
    }
  }

  /** Work of others, or flag changes, leave an exact holder exact. */
  lemma ExactElsewhere(c: Cache, d: Cache, r: Req, total: int, rid: int)
    requires Inv(c) && Gained(c, d, rid) && r.requestId != rid && Exact(c, r, total)
    ensures Exact(d, r, total)
  {
    ExactTransfers(c, d, r, total) by {
      forall id | id in d.pages && d.pages[id].requestId == r.requestId
        ensures id in c.pages && KeyOf(d.pages[id]) == KeyOf(c.pages[id]) {
        assert id in c.pages;
      }
    }
  }

  lemma ExactReflagged(c: Cache, d: Cache, r: Req, total: int)
    requires Inv(c) && Reflagged(c, d) && Exact(c, r, total)
    ensures Exact(d, r, total)
  {
    ReflaggedGains(c, d, r.requestId);
    ExactTransfers(c, d, r, total);
  }

  lemma ExactTransfers(c: Cache, d: Cache, r: Req, total: int)
    requires Inv(c) && Inv(d) && SameSettings(c, d) && c.nextId <= d.nextId && Exact(c, r, total)
    requires forall id :: id in c.pages && c.pages[id].requestId == r.requestId ==>
      id in d.pages && KeyOf(d.pages[id]) == KeyOf(c.pages[id])
    requires forall id :: id in d.pages && d.pages[id].requestId == r.requestId ==>
      id in c.pages && KeyOf(d.pages[id]) == KeyOf(c.pages[id])
    requires forall l: int :: ListOf(d, (r.requestId, l)) == ListOf(c, (r.requestId, l))
    ensures Exact(d, r, total)
  {
    forall l | l in r.layers ensures |ListOf(d, (r.requestId, l))| == RequiredPages(d, total) {
      assert ListOf(d, (r.requestId, l)) == ListOf(c, (r.requestId, l));
    }
    forall id | id in KvPageIds(r) ensures id in d.pages && d.pages[id].requestId == r.requestId {
      assert id in c.pages && c.pages[id].requestId == r.requestId;
      assert KeyOf(d.pages[id]) == KeyOf(c.pages[id]);
    }
  }

  // ------------------------------------------------------------- allocation with room

  /** When every layer has `have` pages, each misses the same number. */
  lemma {:induction false} NeededEven(c: Cache, rid: int, layers: seq<int>, total: int, have: int)
    requires c.pageSize >= 1 && have <= RequiredPages(c, total)
    requires forall l :: l in layers ==> |ListOf(c, (rid, l))| == have
    ensures Needed(c, rid, layers, total) == Times(RequiredPages(c, total) - have, |layers|)
  {
    if layers != [] {
      var k := |layers| - 1;
      var l := layers[k];
      assert layers == layers[..k] + [l] && l in layers;
      NeededEven(c, rid, layers[..k], total, have);
      assert |ListOf(c, (rid, l))| == have;
    }
  }

  /** With enough free pages an allocation fills the lists and evicts nothing. */
  lemma AllocateWithRoom(c: Cache, r: Req, total: int, pin: bool)
    requires Inv(c) && NoDup(r.layers) && OwnShape(c, r, total)
    requires |c.pages| + Needed(c, r.requestId, r.layers, total) <= c.maxPages
    ensures var a := Allocate(c, r.requestId, r.layers, total, pin);
      && a.Granted? && Gained(c, a.cache, r.requestId)
      && |a.cache.pages| == |c.pages| + Needed(c, r.requestId, r.layers, total)
      && OwnShape(a.cache, r, total)
      && (forall l :: l in r.layers ==> |ListOf(a.cache, (r.requestId, l))| == RequiredPages(a.cache, total))
  {
    var d := AllocLayers(c, r.requestId, r.layers, total, pin);
    assert Allocate(c, r.requestId, r.layers, total, pin) == Granted(d);
    AllocLayersFacts(c, r.requestId, r.layers, total, pin);
    GrowthSize(c, r.requestId, r.layers, total, pin);
    SettingsKeptLayers(c, r.requestId, r.layers, total, pin);
    GrownShape(c, d, r, total, pin);
    GrownGains(c, d, r.requestId, r.layers, pin);
  }

  lemma GrownGains(c: Cache, d: Cache, rid: int, layers: seq<int>, pin: bool)
    requires Inv(d) && Grown(c, d, rid, layers, pin)
    ensures Gained(c, d, rid)
  {
    forall id | id in d.pages && id !in c.pages ensures c.nextId <= id && d.pages[id].requestId == rid {
      assert FreshPage(d.pages[id], rid, layers, pin);
    }
  }

  // -------------------------------------------------------------- one request's work

  /** The outcome of work on `r` from `c` with room: the pages are now exactly those of `q`. */
  ghost predicate Roomy(c: Cache, d: Cache, r: Req, q: Req, before: int)
    requires c.pageSize >= 1
  {
    && Gained(c, d, r.requestId) && SameIdentity(q, r)
    && Exact(d, q, TotalWith(q, 0))
    && |d.pages| == |c.pages| - before + PagesFor(c, q, TotalWith(q, 0))
  }

  lemma ExactSnapshot(c: Cache, r: Req, q: Req, total: int)
    requires Inv(c) && OwnShape(c, r, total)
    requires forall l :: l in r.layers ==> |ListOf(c, (r.requestId, l))| == RequiredPages(c, total)
    requires q.requestId == r.requestId && q.layers == r.layers
    requires q.snapshot.Some? && q.snapshot.value.layerPageMap == LayerMap(c, r.requestId, r.layers)
    ensures Exact(c, q, total)
  {
    SnapshotIsExact(c, r, q, total);
  }

  lemma ListsEmpty(c: Cache, r: Req, l: int)
    requires NoOwn(c, r.requestId)
    ensures ListOf(c, (r.requestId, l)) == []
  {
    WithinNone(AllIds(c), Under(c, (r.requestId, l)));
  }

  lemma RequiredNonNegative(c: Cache, total: int)
    requires c.pageSize >= 1
    ensures RequiredPages(c, total) >= 0
  {
    if total > 0 { CeilDivFacts(total, c.pageSize); }
  }

  lemma PrefillWithRoom(cfg: Config, c: Cache, r: Req)
    requires Inv(c) && NoDup(r.layers) && NoOwn(c, r.requestId) && r.committed == []
    requires |c.pages| + PagesFor(c, r, |r.prompt|) <= c.maxPages
    ensures var o := PrefillOne(cfg, c, r); o.Prefilled? && Roomy(c, o.cache, r, o.req, 0)
  {
    var rid, total := r.requestId, |r.prompt|;
    NoOwnShape(c, r, total);
    RequiredNonNegative(c, total);
    forall l | l in r.layers ensures |ListOf(c, (rid, l))| == 0 {
      ListsEmpty(c, r, l);
    }
    NeededEven(c, rid, r.layers, total, 0);
    AllocateWithRoom(c, r, total, cfg.pinReady);
    PrefillFromGrant(cfg, c, r, Allocate(c, rid, r.layers, total, cfg.pinReady).cache);
  }

  lemma PrefillFromGrant(cfg: Config, c: Cache, r: Req, d: Cache)
    requires c.pageSize >= 1 && Gained(c, d, r.requestId) && OwnShape(d, r, |r.prompt|) && r.committed == []
    requires |d.pages| == |c.pages| + PagesFor(c, r, |r.prompt|)
    requires forall l :: l in r.layers ==> |ListOf(d, (r.requestId, l))| == RequiredPages(d, |r.prompt|)
    ensures var m := LayerMap(d, r.requestId, r.layers);
      Roomy(c, Touch(d, FlattenMap(m, r.layers)), r, WithSnapshot(r, m).(phase := ReadyDecode), 0)
  {
    var m := LayerMap(d, r.requestId, r.layers);
    var q := WithSnapshot(r, m).(phase := ReadyDecode);
    ExactSnapshot(d, r, q, |r.prompt|);
    TouchReflags(d, FlattenMap(m, r.layers));
    RoomyReflagged(c, d, Touch(d, FlattenMap(m, r.layers)), r, q, 0);
  }

  lemma RoomyReflagged(c: Cache, d: Cache, e: Cache, r: Req, q: Req, before: int)
    requires c.pageSize >= 1 && Roomy(c, d, r, q, before) && Reflagged(d, e)
    ensures Roomy(c, e, r, q, before)
  {
    ExactReflagged(d, e, q, TotalWith(q, 0));
    ReflaggedGains(d, e, r.requestId);
    GainedTrans(c, d, e, r.requestId);
  }

  /** With room the eviction before a commit is skipped, and the commit is granted. */
  lemma CommitWithRoom(c: Cache, r: Req, n: nat)
    requires Inv(c) && NoDup(r.layers) && Exact(c, r, TotalWith(r, 0))
    requires |c.pages| - PagesFor(c, r, TotalWith(r, 0)) + PagesFor(c, r, TotalWith(r, n)) <= c.maxPages
    ensures var a := CommitAccepted(c, r, n);
      && a.Granted? && Gained(c, a.cache, r.requestId)
      && |a.cache.pages| == |c.pages| - PagesFor(c, r, TotalWith(r, 0)) + PagesFor(c, r, TotalWith(r, n))
      && OwnShape(a.cache, r, TotalWith(r, n))
      && (forall l :: l in r.layers ==> |ListOf(a.cache, (r.requestId, l))| == RequiredPages(a.cache, TotalWith(r, n)))
  {
    var rid, total := r.requestId, TotalWith(r, n);
    var have := RequiredPages(c, TotalWith(r, 0));
    RequiredGrows(c, TotalWith(r, 0), total);
    OwnShapeGrows(c, r, TotalWith(r, 0), total);
    NeededEven(c, rid, r.layers, total, have);
    TimesDistributes(RequiredPages(c, total), have, |r.layers|);
    assert |c.pages| + Needed(c, rid, r.layers, total) <= c.maxPages;
    assert MakeSpace(c, rid, r.layers, total) == c;
    AllocateWithRoom(c, r, total, true);
    CommitFromGrant(c, r, total, Allocate(c, rid, r.layers, total, true).cache);
  }

  lemma CommitFromGrant(c: Cache, r: Req, total: int, d: Cache)
    requires c.pageSize >= 1 && Gained(c, d, r.requestId) && OwnShape(d, r, total)
    requires forall l :: l in r.layers ==> |ListOf(d, (r.requestId, l))| == RequiredPages(d, total)
    ensures var e := CommitMark(d, r.requestId, r.layers);
      && Gained(c, e, r.requestId) && |e.pages| == |d.pages| && OwnShape(e, r, total)
      && (forall l :: l in r.layers ==> |ListOf(e, (r.requestId, l))| == RequiredPages(e, total))
  {
    var e := CommitMark(d, r.requestId, r.layers);
    MarkReflags(d, r.requestId, r.layers);
    ReflaggedGains(d, e, r.requestId);
    GainedTrans(c, d, e, r.requestId);
    forall id | id in e.pages && e.pages[id].requestId == r.requestId
      ensures id in d.pages && KeyOf(e.pages[id]) == KeyOf(d.pages[id]) {
      assert KeyOf(e.pages[id]) == KeyOf(d.pages[id]);
    }
    OwnShapeShrinks(d, e, r, total);
    forall l | l in r.layers ensures |ListOf(e, (r.requestId, l))| == RequiredPages(e, total) {
      assert ListOf(e, (r.requestId, l)) == ListOf(d, (r.requestId, l));
    }
  }

  lemma WrapWithRoom(cfg: Config, c: Cache, r: Req, d: Decision, ids: seq<int>, width: int)
    requires Inv(c) && Exact(c, r, TotalWith(r, 0))
    ensures var o := Wrap(cfg, c, r, d, ids, width);
      && o.Decoded? && Reflagged(c, o.cache) && SameIdentity(o.req, r) && o.req.committed == r.committed
      && Exact(o.cache, o.req, TotalWith(r, 0))
  {
    var o := Wrap(cfg, c, r, d, ids, width);
    PinReflags(c, if Finishes(r, d) then KvPageIds(r) else ids, false);
    assert Reflagged(c, c);
    ExactReflagged(c, o.cache, r, TotalWith(r, 0));
    SameExact(o.cache, r, o.req, TotalWith(r, 0));
  }

  lemma SameExact(c: Cache, r: Req, q: Req, total: int)
    requires c.pageSize >= 1 && Exact(c, r, total)
    requires SameIdentity(q, r) && q.snapshot == r.snapshot
    ensures Exact(c, q, total)
  {
    assert KvPageIds(q) == KvPageIds(r);
  }

  /** The growth of a request by the tokens it accepts fits. */
  ghost predicate RoomFor(c: Cache, r: Req, n: nat)
    requires c.pageSize >= 1
  {
    |c.pages| - PagesFor(c, r, TotalWith(r, 0)) + PagesFor(c, r, TotalWith(r, n)) <= c.maxPages
  }

  lemma CommitAndWrapWithRoom(cfg: Config, c: Cache, r: Req, d: Decision, ids: seq<int>, width: int)
    requires Inv(c) && NoDup(r.layers) && Exact(c, r, TotalWith(r, 0)) && RoomFor(c, r, |d.accepted|)
    ensures var o := CommitAndWrap(cfg, c, r, d, ids, width);
      o.Decoded? && Roomy(c, o.cache, r, o.req, PagesFor(c, r, TotalWith(r, 0)))
  {
    if d.accepted == [] {
      assert Gained(c, c, r.requestId);
      WrapAfter(cfg, c, c, r, r, d, ids, width);
    } else {
      CommitWithRoom(c, r, |d.accepted|);
      WrapFromCommit(cfg, c, CommitAccepted(c, r, |d.accepted|), r, d, ids, width);
    }
  }

  lemma RoomyAfterFlags(c: Cache, e: Cache, f: Cache, r: Req, q: Req, p: Req)
    requires c.pageSize >= 1 && Gained(c, e, r.requestId) && SameIdentity(q, r) && Reflagged(e, f)
    requires SameIdentity(p, q) && p.committed == q.committed && Exact(f, p, TotalWith(q, 0))
    requires |e.pages| == |c.pages| - PagesFor(c, r, TotalWith(r, 0)) + PagesFor(c, q, TotalWith(q, 0))
    ensures Roomy(c, f, r, p, PagesFor(c, r, TotalWith(r, 0)))
  {
    assert |f.pages| == |e.pages| && Gained(c, f, r.requestId) by {
      ReflaggedGains(e, f, r.requestId);
      GainedTrans(c, e, f, r.requestId);
    }
  }

  /** Wrapping up `q`, which the work so far has led to from `r` and `c`. */
  lemma WrapAfter(cfg: Config, c: Cache, e: Cache, r: Req, q: Req, d: Decision, ids: seq<int>, width: int)
    requires c.pageSize >= 1 && Gained(c, e, r.requestId) && SameIdentity(q, r) && Exact(e, q, TotalWith(q, 0))
    requires |e.pages| == |c.pages| - PagesFor(c, r, TotalWith(r, 0)) + PagesFor(c, q, TotalWith(q, 0))
    ensures var o := Wrap(cfg, e, q, d, ids, width);
      o.Decoded? && Roomy(c, o.cache, r, o.req, PagesFor(c, r, TotalWith(r, 0)))
  {
    WrapWithRoom(cfg, e, q, d, ids, width);
    var o := Wrap(cfg, e, q, d, ids, width);
    RoomyAfterFlags(c, e, o.cache, r, q, o.req);
  }

  lemma WrapFromCommit(cfg: Config, c: Cache, a: AllocResult, r: Req, d: Decision, ids: seq<int>, width: int)
    requires c.pageSize >= 1 && a.Granted? && Gained(c, a.cache, r.requestId) && d.accepted != []
    requires |a.cache.pages| == |c.pages| - PagesFor(c, r, TotalWith(r, 0)) + PagesFor(c, r, TotalWith(r, |d.accepted|))
    requires OwnShape(a.cache, r, TotalWith(r, |d.accepted|))
    requires forall l :: l in r.layers ==>
      |ListOf(a.cache, (r.requestId, l))| == RequiredPages(a.cache, TotalWith(r, |d.accepted|))
    ensures var o := AfterCommit(cfg, a, r, d, ids, width);
      o.Decoded? && Roomy(c, o.cache, r, o.req, PagesFor(c, r, TotalWith(r, 0)))
  {
    var e := a.cache;
    var q := Committed(r, d.accepted, LayerMap(e, r.requestId, r.layers));
    assert TotalWith(q, 0) == TotalWith(r, |d.accepted|);
    ExactSnapshot(e, r, q, TotalWith(q, 0));
    WrapAfter(cfg, c, e, r, q, d, ids, width);
  }

  lemma ReadReflags(c: Cache, ids: seq<int>)
    requires Inv(c)
    ensures Reflagged(c, ReadPages(c, ids))
  {
    PinReflags(c, ids, true);
    TouchReflags(SetPinned(c, ids, true), ids);
    ReflaggedTrans(c, SetPinned(c, ids, true), ReadPages(c, ids));
  }

  /** Reading pages first changes nothing about the outcome of the commit. */
  lemma RoomyAfterRead(c: Cache, c1: Cache, d: Cache, r: Req, r1: Req, q: Req)
    requires Inv(c) && Reflagged(c, c1) && SameIdentity(r1, r) && r1.committed == r.committed
    requires Roomy(c1, d, r1, q, PagesFor(c1, r1, TotalWith(r1, 0)))
    ensures Roomy(c, d, r, q, PagesFor(c, r, TotalWith(r, 0)))
  {
    ReflaggedGains(c, c1, r.requestId);
    GainedTrans(c, c1, d, r.requestId);
  }

  lemma SameRoom(c: Cache, c1: Cache, r: Req, r1: Req, n: nat)
    requires c.pageSize >= 1 && SameSettings(c, c1) && |c1.pages| == |c.pages|
    requires r1.layers == r.layers && r1.prompt == r.prompt && r1.committed == r.committed
    requires RoomFor(c, r, n)
    ensures RoomFor(c1, r1, n)
  {
    assert PagesFor(c1, r1, TotalWith(r1, 0)) == PagesFor(c, r, TotalWith(r, 0));
    assert PagesFor(c1, r1, TotalWith(r1, n)) == PagesFor(c, r, TotalWith(r, n));
  }

  lemma ReadyWithRoom(c: Cache, c1: Cache, r: Req, r1: Req)
    requires Inv(c) && Reflagged(c, c1) && SameIdentity(r1, r) && r1.committed == r.committed
    requires r1.snapshot == r.snapshot
    requires Exact(c, r, TotalWith(r, 0))
    ensures Exact(c1, r1, TotalWith(r1, 0))
  {
    ExactReflagged(c, c1, r, TotalWith(r, 0));
    SameExact(c1, r, r1, TotalWith(r, 0));
  }

  /** One decode step with room: it goes through, and nothing is evicted or rebuilt. */
  lemma DecodeWithRoom(cfg: Config, c: Cache, r: Req)
    requires Inv(c) && NoDup(r.layers) && Exact(c, r, TotalWith(r, 0))
    requires RoomFor(c, r, |Decide(cfg, r).accepted|)
    ensures var o := DecodeOne(cfg, c, r);
      o.Decoded? && Roomy(c, o.cache, r, o.req, PagesFor(c, r, TotalWith(r, 0)))
  {
    var r0 := r.(phase := Decode);
    SameExact(c, r, r0, TotalWith(r, 0));
    assert Rehydrate(c, r0) == Resident(c, r0);
    DecideSame(cfg, r, r0);
    var ids, d := DecodePages(cfg, c, r0), Decide(cfg, r0);
    var c1 := ReadPages(c, ids);
    ReadReflags(c, ids);
    var r1 := Adapt(cfg, c1, r0.(draft := d.proposed), d);
    ReflaggedGains(c, c1, r.requestId);
    ReadyWithRoom(c, c1, r, r1);
    SameRoom(c, c1, r, r1, |d.accepted|);
    CommitAndWrapWithRoom(cfg, c1, r1, d, ids, BlockWidth(cfg, r0));
    var o := CommitAndWrap(cfg, c1, r1, d, ids, BlockWidth(cfg, r0));
    RoomyAfterRead(c, c1, o.cache, r, r1, o.req);
  }

  // ------------------------------------------------------------------- whole runs

  /**
   The most tokens a request ever holds: its goal, except that without any budget
   the proposer's EOS token is still committed when the target starts with it.
   */
  function Limit(cfg: Config, r: Req): nat {
    if r.maxNew <= 0 && r.target != [] && r.target[0] == cfg.proposerEos then 1 else Goal(r)
  }

  /** Pages a request needs at most. */
  function Cap(cfg: Config, c: Cache, r: Req): int
    requires c.pageSize >= 1
  {
    PagesFor(c, r, |r.prompt| + Limit(cfg, r))
  }

  /** Pages a request needs for what it holds now. */
  function Now(c: Cache, r: Req): int
    requires c.pageSize >= 1
  {
    PagesFor(c, r, TotalWith(r, 0))
  }

  lemma PagesGrow(c: Cache, r: Req, a: int, b: int)
    requires c.pageSize >= 1 && a <= b
    ensures 0 <= PagesFor(c, r, a) <= PagesFor(c, r, b)
  {
    RequiredGrows(c, a, b);
    RequiredNonNegative(c, a);
    TimesGrows(RequiredPages(c, a), RequiredPages(c, b), |r.layers|);
  }

  ghost predicate HolderExact(cfg: Config, c: Cache, r: Req)
    requires c.pageSize >= 1
  {
    NoDup(r.layers) && |r.committed| <= Limit(cfg, r) && Exact(c, r, TotalWith(r, 0))
  }

  ghost predicate WaitingExact(r: Req) {
    NoDup(r.layers) && r.committed == [] && r.rehydrations == 0
  }

  function CapOf(cfg: Config, c: Cache): Req -> int
    requires c.pageSize >= 1
  {
    r => Cap(cfg, c, r)
  }

  function NowOf(c: Cache): Req -> int
    requires c.pageSize >= 1
  {
    r => Now(c, r)
  }

  /** The sum over the requests that hold pages. */
  function HeldSum(f: Req -> int, s: Rt): int {
    Sum(f, s.prefilled) + Sum(f, s.decodeQ) + Sum(f, BatchReqs(s.batch))
  }

  /** The invariant's sums, over the cache `c`. */
  ghost predicate SumsOk(cfg: Config, c0: Cache, c: Cache, s: Rt)
    requires c0.pageSize >= 1
  {
    |c.pages| == HeldSum(NowOf(c0), s) && Everything(CapOf(cfg, c0), s) <= c0.maxPages
  }

  ghost predicate HoldersExact(cfg: Config, s: Rt)
    requires s.cache.pageSize >= 1
  {
    && PagesHeld(s)
    && (forall r :: r in s.prefillQ ==> WaitingExact(r))
    && (forall r :: r in Holders(s) ==> HolderExact(cfg, s.cache, r))
  }

  /** The page size alone fixes what a request needs; `c0` is the cache the run started with. */
  ghost predicate CapacityInv(cfg: Config, c0: Cache, s: Rt)
    requires c0.pageSize >= 1
  {
    && Inv(s.cache) && SameSettings(c0, s.cache) && s.cache.evictions == c0.evictions
    && !s.stage.Raised? && HoldersExact(cfg, s) && SumsOk(cfg, c0, s.cache, s)
  }

  lemma NowWithinCap(cfg: Config, c0: Cache, c: Cache, q: seq<Req>)
    requires c0.pageSize >= 1 && SameSettings(c0, c) && forall r :: r in q ==> HolderExact(cfg, c, r)
    ensures Sum(NowOf(c0), q) <= Sum(CapOf(cfg, c0), q)
  {
    forall r | r in q ensures NowOf(c0)(r) <= CapOf(cfg, c0)(r) {
      assert HolderExact(cfg, c, r);
      PagesGrow(c0, r, TotalWith(r, 0), |r.prompt| + Limit(cfg, r));
    }
    SumLe(NowOf(c0), CapOf(cfg, c0), q);
  }

  lemma {:induction false} CapPositive(cfg: Config, c0: Cache, q: seq<Req>)
    requires c0.pageSize >= 1
    ensures Sum(CapOf(cfg, c0), q) >= 0
  {
    if q != [] {
      var r := q[|q| - 1];
      PagesGrow(c0, r, |r.prompt| + Limit(cfg, r), |r.prompt| + Limit(cfg, r));
      CapPositive(cfg, c0, q[..|q| - 1]);
    }
  }

  /** The head of the prefill queue fits. */
  lemma PrefillFits(cfg: Config, c0: Cache, s: Rt)
    requires c0.pageSize >= 1 && CapacityInv(cfg, c0, s) && s.prefillQ != []
    ensures var r := s.prefillQ[0]; |s.cache.pages| + PagesFor(s.cache, r, |r.prompt|) <= s.cache.maxPages
  {
    var r := s.prefillQ[0];
    NowWithinCap(cfg, c0, s.cache, s.prefilled);
    NowWithinCap(cfg, c0, s.cache, s.decodeQ);
    NowWithinCap(cfg, c0, s.cache, BatchReqs(s.batch));
    SumHead(CapOf(cfg, c0), s.prefillQ);
    CapPositive(cfg, c0, s.prefillQ[1..]);
    PagesGrow(c0, r, |r.prompt|, |r.prompt| + Limit(cfg, r));
    assert PagesFor(s.cache, r, |r.prompt|) == PagesFor(c0, r, |r.prompt|);
    assert CapOf(cfg, c0)(r) == Cap(cfg, c0, r);
  }

  /** A decode step never takes a request beyond its goal. */
  lemma AcceptedWithinLimit(cfg: Config, r: Req)
    requires GoodBlocks(cfg) && Waiting(cfg, r)
    ensures |r.committed| + |Decide(cfg, r).accepted| <= Limit(cfg, r)
  {
    if Remaining(r) != [] && BudgetLeft(r) > 0 {
      DecideProgress(cfg, r);
    } else {
      DecideExhausted(cfg, r);
      assert Remaining(r) == r.target;
    }
  }

  /** All holders but the head of the decode queue together stay within their caps. */
  lemma OthersWithinCap(cfg: Config, c0: Cache, s: Rt)
    requires c0.pageSize >= 1 && SameSettings(c0, s.cache) && HoldersExact(cfg, s) && s.decodeQ != []
    ensures HeldSum(NowOf(c0), s) - NowOf(c0)(s.decodeQ[0]) <= HeldSum(CapOf(cfg, c0), s) - CapOf(cfg, c0)(s.decodeQ[0])
  {
    assert forall q :: q in s.decodeQ[1..] ==> q in s.decodeQ;
    NowWithinCap(cfg, c0, s.cache, s.prefilled);
    NowWithinCap(cfg, c0, s.cache, s.decodeQ[1..]);
    NowWithinCap(cfg, c0, s.cache, BatchReqs(s.batch));
    SumHead(CapOf(cfg, c0), s.decodeQ);
    SumHead(NowOf(c0), s.decodeQ);
  }

  /** The head of the decode queue may grow up to its goal. */
  lemma DecodeFits(cfg: Config, c0: Cache, s: Rt, n: nat)
    requires c0.pageSize >= 1 && CapacityInv(cfg, c0, s) && s.decodeQ != []
    requires |s.decodeQ[0].committed| + n <= Limit(cfg, s.decodeQ[0])
    ensures RoomFor(s.cache, s.decodeQ[0], n)
  {
    var r := s.decodeQ[0];
    OthersWithinCap(cfg, c0, s);
    CapPositive(cfg, c0, s.prefillQ);
    PagesGrow(c0, r, TotalWith(r, n), |r.prompt| + Limit(cfg, r));
    assert PagesFor(s.cache, r, TotalWith(r, n)) == PagesFor(c0, r, TotalWith(r, n));
    assert PagesFor(s.cache, r, TotalWith(r, 0)) == NowOf(c0)(r);
    assert CapOf(cfg, c0)(r) == Cap(cfg, c0, r);
  }

  /** Work on `x` alone leaves the other holders exact. */
  lemma OthersStayExact(cfg: Config, s: Rt, n: Rt, x: Req)
    requires Inv(s.cache) && Gained(s.cache, n.cache, x.requestId) && PagesHeld(s)
    requires forall q :: q in Holders(s) ==> HolderExact(cfg, s.cache, q)
    requires forall q :: q in Holders(n) && q != x ==> q in Holders(s) && q.requestId != x.requestId
    requires forall q :: q in Holders(s) && q.requestId != x.requestId ==> q in Holders(n)
    requires x in Holders(n) && HolderExact(cfg, n.cache, x)
    ensures PagesHeld(n)
    ensures forall q :: q in Holders(n) ==> HolderExact(cfg, n.cache, q)
  {
    var c, d := s.cache, n.cache;
    forall q | q in Holders(n) ensures HolderExact(cfg, d, q) {
      if q != x {
        ExactElsewhere(c, d, q, TotalWith(q, 0), x.requestId);
      }
    }
    forall id | id in d.pages ensures exists r :: r in Holders(n) && r.requestId == d.pages[id].requestId {
      if d.pages[id].requestId != x.requestId {
        assert id in c.pages && KeyOf(d.pages[id]) == KeyOf(c.pages[id]);
        var r :| r in Holders(s) && r.requestId == c.pages[id].requestId;
        assert r in Holders(n);
      }
    }
  }

  lemma PrefillSums(cfg: Config, c0: Cache, s: Rt, o: PrefillOutcome)
    requires c0.pageSize >= 1 && SumsOk(cfg, c0, s.cache, s) && s.prefillQ != [] && o.Prefilled?
    requires SameIdentity(o.req, s.prefillQ[0])
    requires |o.cache.pages| == |s.cache.pages| + Now(c0, o.req)
    ensures SumsOk(cfg, c0, o.cache, AfterPrefill(s, o))
  {
    PrefillSum(CapOf(cfg, c0), s, o);
    SumSnoc(NowOf(c0), s.prefilled, o.req);
    assert CapOf(cfg, c0)(s.prefillQ[0]) == CapOf(cfg, c0)(o.req);
    assert NowOf(c0)(o.req) == Now(c0, o.req);
  }

  lemma DecodeSums(cfg: Config, c0: Cache, s: Rt, o: DecodeOutcome)
    requires c0.pageSize >= 1 && SumsOk(cfg, c0, s.cache, s)
    requires s.stage.Decoding? && s.stage.slots > 0 && s.decodeQ != []
    requires o.Decoded? && SameIdentity(o.req, s.decodeQ[0])
    requires |o.cache.pages| == |s.cache.pages| - Now(c0, s.decodeQ[0]) + Now(c0, o.req)
    ensures SumsOk(cfg, c0, o.cache, AfterDecode(s, o))
  {
    DecodeSum(CapOf(cfg, c0), s, o);
    DecodeSum(NowOf(c0), s, o);
    assert CapOf(cfg, c0)(s.decodeQ[0]) == CapOf(cfg, c0)(o.req);
    assert NowOf(c0)(s.decodeQ[0]) == Now(c0, s.decodeQ[0]);
    assert NowOf(c0)(o.req) == Now(c0, o.req);
  }

  lemma SameNow(c0: Cache, c: Cache, r: Req)
    requires c0.pageSize >= 1 && SameSettings(c0, c)
    ensures Now(c, r) == Now(c0, r)
  {}

  lemma PrefillKeepsExact(cfg: Config, s: Rt, o: PrefillOutcome)
    requires Inv(s.cache) && HoldersExact(cfg, s) && Distinct(s) && s.prefillQ != []
    requires o.Prefilled? && Roomy(s.cache, o.cache, s.prefillQ[0], o.req, 0) && o.req.committed == []
    ensures HoldersExact(cfg, AfterPrefill(s, o))
  {
    var r, n := s.prefillQ[0], AfterPrefill(s, o);
    assert r in s.prefillQ && WaitingExact(r);
    HeadOwnsNothing(s);
    OthersStayExact(cfg, s, n, o.req);
  }

  lemma DecodeKeepsExact(cfg: Config, s: Rt, o: DecodeOutcome)
    requires Inv(s.cache) && HoldersExact(cfg, s) && Distinct(s)
    requires s.stage.Decoding? && s.stage.slots > 0 && s.decodeQ != []
    requires o.Decoded? && Roomy(s.cache, o.cache, s.decodeQ[0], o.req, Now(s.cache, s.decodeQ[0]))
    requires |o.req.committed| <= Limit(cfg, o.req)
    ensures HoldersExact(cfg, AfterDecode(s, o))
  {
    var r, n := s.decodeQ[0], AfterDecode(s, o);
    BatchSnoc(s.batch, o.req, o.trace);
    assert s.decodeQ == [r] + s.decodeQ[1..];
    assert r in Holders(s) && HolderExact(cfg, s.cache, r);
    forall q | q in Holders(n) && q != o.req ensures q in Holders(s) && q.requestId != r.requestId {
      DecodeHeadElsewhere(s, q);
    }
    OthersStayExact(cfg, s, n, o.req);
  }

  lemma PrefillKeepsCapacity(cfg: Config, c0: Cache, s: Rt, o: PrefillOutcome)
    requires c0.pageSize >= 1 && CapacityInv(cfg, c0, s) && Distinct(s) && s.stage.Prefilling? && s.prefillQ != []
    requires o.Prefilled? && Roomy(s.cache, o.cache, s.prefillQ[0], o.req, 0) && o.req.committed == []
    ensures CapacityInv(cfg, c0, AfterPrefill(s, o))
  {
    PrefillKeepsExact(cfg, s, o);
    SameNow(c0, s.cache, o.req);
    PrefillSums(cfg, c0, s, o);
  }

  lemma DecodeKeepsCapacity(cfg: Config, c0: Cache, s: Rt, o: DecodeOutcome)
    requires c0.pageSize >= 1 && CapacityInv(cfg, c0, s) && Distinct(s)
    requires s.stage.Decoding? && s.stage.slots > 0 && s.decodeQ != []
    requires o.Decoded? && Roomy(s.cache, o.cache, s.decodeQ[0], o.req, Now(s.cache, s.decodeQ[0]))
    requires |o.req.committed| <= Limit(cfg, o.req)
    ensures CapacityInv(cfg, c0, AfterDecode(s, o))
  {
    DecodeKeepsExact(cfg, s, o);
    SameNow(c0, s.cache, s.decodeQ[0]);
    SameNow(c0, s.cache, o.req);
    DecodeSums(cfg, c0, s, o);
  }

  lemma EnqueueKeepsCapacity(cfg: Config, c0: Cache, s: Rt)
    requires c0.pageSize >= 1 && CapacityInv(cfg, c0, s) && s.prefilled != []
    ensures CapacityInv(cfg, c0, AfterEnqueue(s))
  {
    var n := AfterEnqueue(s);
    PushMember(s.decodeQ, s.prefilled[0]);
    assert s.prefilled == [s.prefilled[0]] + s.prefilled[1..];
    assert forall q :: q in Holders(n) <==> q in Holders(s);
    EnqueueSum(CapOf(cfg, c0), s);
    EnqueueSum(NowOf(c0), s);
  }

  // ------------------------------------------------------------------- releasing

  function OwnedOn(c: Cache, rid: int, layers: seq<int>): set<int> {
    set id | id in c.pages && c.pages[id].requestId == rid && c.pages[id].layerId in layers
  }

  /** A request owns, on the layers listed, the sum of its list lengths. */
  lemma {:induction false} OwnedCount(c: Cache, rid: int, layers: seq<int>, have: int)
    requires Inv(c) && NoDup(layers)
    requires forall l :: l in layers ==> |ListOf(c, (rid, l))| == have
    ensures |OwnedOn(c, rid, layers)| == Times(have, |layers|)
  {
    if layers == [] {
      assert OwnedOn(c, rid, layers) == {};
    } else {
      var k := |layers| - 1;
      var l := layers[k];
      assert layers == layers[..k] + [l] && l in layers;
      OwnedCount(c, rid, layers[..k], have);
      ListOfFacts(c, (rid, l));
      SetSize(ListOf(c, (rid, l)), Under(c, (rid, l)));
      assert OwnedOn(c, rid, layers) == OwnedOn(c, rid, layers[..k]) + Under(c, (rid, l));
      assert OwnedOn(c, rid, layers[..k]) !! Under(c, (rid, l));
      assert |ListOf(c, (rid, l))| == have;
    }
  }

  lemma ReleaseCount(c: Cache, r: Req, total: int)
    requires Inv(c) && NoDup(r.layers) && Exact(c, r, total)
    ensures |Release(c, r.requestId).pages| == |c.pages| - PagesFor(c, r, total)
  {
    OwnedCount(c, r.requestId, r.layers, RequiredPages(c, total));
    assert forall id :: id in c.pages && c.pages[id].requestId == r.requestId ==> c.pages[id].layerId in r.layers;
    assert OwnedIds(c, r.requestId) == OwnedOn(c, r.requestId, r.layers);
    assert Release(c, r.requestId).pages.Keys == c.pages.Keys - OwnedIds(c, r.requestId);
    assert OwnedIds(c, r.requestId) <= c.pages.Keys;
  }

  lemma ReleaseKeepsExact(c: Cache, r: Req, total: int, rid: int)
    requires Inv(c) && r.requestId != rid && Exact(c, r, total)
    ensures Exact(Release(c, rid), r, total)
  {
    var d := Release(c, rid);
    ReleaseLocal(c, rid);
    forall l: int ensures ListOf(d, (r.requestId, l)) == ListOf(c, (r.requestId, l)) {
      DropListOf(c, OwnedIds(c, rid), (r.requestId, l));
      ListOfFacts(c, (r.requestId, l));
      WithoutNone(ListOf(c, (r.requestId, l)), OwnedIds(c, rid));
    }
    ExactTransfers(c, d, r, total);
  }

  lemma SettleSums(cfg: Config, c0: Cache, s: Rt)
    requires c0.pageSize >= 1 && SumsOk(cfg, c0, s.cache, s) && s.batch != []
    requires s.batch[0].0.finished ==> |AfterSettle(s).cache.pages| == |s.cache.pages| - Now(c0, s.batch[0].0)
    ensures SumsOk(cfg, c0, AfterSettle(s).cache, AfterSettle(s))
  {
    var r := s.batch[0].0;
    SettleSum(CapOf(cfg, c0), s);
    SettleSum(NowOf(c0), s);
    PagesGrow(c0, r, |r.prompt| + Limit(cfg, r), |r.prompt| + Limit(cfg, r));
    assert CapOf(cfg, c0)(r) == Cap(cfg, c0, r) >= 0;
    assert NowOf(c0)(r) == Now(c0, r);
  }

  /** A request handed back is as much a holder in the queue as in the batch. */
  lemma RequeueKeepsExact(cfg: Config, s: Rt)
    requires s.cache.pageSize >= 1 && HoldersExact(cfg, s) && s.batch != [] && !s.batch[0].0.finished
    ensures HoldersExact(cfg, AfterSettle(s))
  {
    var r, n := s.batch[0].0, AfterSettle(s);
    BatchHead(s.batch);
    PushMember(s.decodeQ, r);
    var b := BatchReqs(s.batch);
    assert b == [r] + b[1..];
    assert forall q :: q in Holders(n) <==> q in Holders(s);
  }

  lemma SettleKeepsCapacity(cfg: Config, c0: Cache, s: Rt)
    requires c0.pageSize >= 1 && CapacityInv(cfg, c0, s) && Distinct(s) && s.stage.Settling? && s.batch != []
    ensures CapacityInv(cfg, c0, AfterSettle(s))
  {
    if s.batch[0].0.finished {
      SettledRelease(cfg, c0, s);
      SameNow(c0, s.cache, s.batch[0].0);
    } else {
      RequeueKeepsExact(cfg, s);
    }
    SettleSums(cfg, c0, s);
  }

  /** The released request's pages go, and everyone else stays exact. */
  lemma SettledRelease(cfg: Config, c0: Cache, s: Rt)
    requires c0.pageSize >= 1 && CapacityInv(cfg, c0, s) && Distinct(s) && s.batch != [] && s.batch[0].0.finished
    ensures var r, n := s.batch[0].0, AfterSettle(s);
      && Inv(n.cache) && PagesHeld(n) && |n.cache.pages| == |s.cache.pages| - Now(s.cache, r)
      && forall q :: q in Holders(n) ==> HolderExact(cfg, n.cache, q)
  {
    var r, n := s.batch[0].0, AfterSettle(s);
    BatchHead(s.batch);
    var b := BatchReqs(s.batch);
    assert b == [r] + b[1..];
    assert r in Holders(s) && HolderExact(cfg, s.cache, r);
    ReleaseLocal(s.cache, r.requestId);
    ReleaseCount(s.cache, r, TotalWith(r, 0));
    forall q | q in Holders(n) ensures HolderExact(cfg, n.cache, q) {
      BatchHeadElsewhere(s, q);
      assert q in Holders(s);
      ReleaseKeepsExact(s.cache, q, TotalWith(q, 0), r.requestId);
    }
    forall id | id in n.cache.pages ensures exists q :: q in Holders(n) && q.requestId == n.cache.pages[id].requestId {
      var q :| q in Holders(s) && q.requestId == s.cache.pages[id].requestId;
      assert q != r;
      assert q in Holders(n);
    }
  }

  // ----------------------------------------------------------------- main results

  ghost predicate RoomyRun(cfg: Config, subs: map<int, Req>, c0: Cache, s: Rt)
    requires c0.pageSize >= 1
  {
    TokenInv(cfg, subs, s) && CapacityInv(cfg, c0, s)
  }

  lemma StepPrefillRoomy(cfg: Config, c0: Cache, s: Rt)
    requires c0.pageSize >= 1 && CapacityInv(cfg, c0, s) && Distinct(s) && s.stage.Prefilling? && s.prefillQ != []
    ensures CapacityInv(cfg, c0, AfterPrefill(s, PrefillOne(cfg, s.cache, s.prefillQ[0])))
  {
    var r := s.prefillQ[0];
    assert r in s.prefillQ && WaitingExact(r);
    HeadOwnsNothing(s);
    PrefillFits(cfg, c0, s);
    PrefillWithRoom(cfg, s.cache, r);
    PrefillTokens(cfg, s.cache, r);
    PrefillKeepsCapacity(cfg, c0, s, PrefillOne(cfg, s.cache, r));
  }

  lemma StepDecodeRoomy(cfg: Config, subs: map<int, Req>, c0: Cache, s: Rt)
    requires GoodBlocks(cfg) && c0.pageSize >= 1 && RoomyRun(cfg, subs, c0, s)
    requires s.stage.Decoding? && s.stage.slots > 0 && s.decodeQ != []
    ensures CapacityInv(cfg, c0, AfterDecode(s, DecodeOne(cfg, s.cache, s.decodeQ[0])))
  {
    var r := s.decodeQ[0];
    assert QueuedOk(cfg, subs, s, r);
    assert r in Holders(s) && HolderExact(cfg, s.cache, r);
    AcceptedWithinLimit(cfg, r);
    DecodeFits(cfg, c0, s, |Decide(cfg, r).accepted|);
    DecodeWithRoom(cfg, s.cache, r);
    DecodeTokens(cfg, s.cache, r);
    DecodeKeepsCapacity(cfg, c0, s, DecodeOne(cfg, s.cache, r));
  }

  lemma StageMoveRoomy(cfg: Config, c0: Cache, s: Rt, stage: Stage)
    requires c0.pageSize >= 1 && CapacityInv(cfg, c0, s) && !stage.Raised?
    ensures CapacityInv(cfg, c0, s.(stage := stage))
  {
    assert Holders(s.(stage := stage)) == Holders(s);
  }

  lemma StepKeepsCapacity(cfg: Config, subs: map<int, Req>, c0: Cache, s: Rt)
    requires GoodBlocks(cfg) && c0.pageSize >= 1 && s.cache.pageSize >= 1 && RoomyRun(cfg, subs, c0, s)
    ensures RoomyRun(cfg, subs, c0, Step(cfg, s))
  {
    StepKeepsTokens(cfg, subs, s);
    if s.stage.Prefilling? && s.prefillQ != [] {
      StepPrefillRoomy(cfg, c0, s);
    } else if s.stage.Enqueuing? && s.prefilled != [] {
      EnqueueKeepsCapacity(cfg, c0, s);
    } else if s.stage.Decoding? && s.stage.slots > 0 && s.decodeQ != [] {
      StepDecodeRoomy(cfg, subs, c0, s);
    } else if s.stage.Settling? && s.batch != [] {
      SettleKeepsCapacity(cfg, c0, s);
    } else {
      StageMoveRoomy(cfg, c0, s, Step(cfg, s).stage);
    }
  }

  lemma RunKeepsCapacity(cfg: Config, subs: map<int, Req>, c0: Cache, s: Rt, k: nat)
    requires GoodBlocks(cfg) && c0.pageSize >= 1 && s.cache.pageSize >= 1 && RoomyRun(cfg, subs, c0, s)
    ensures RoomyRun(cfg, subs, c0, Iterate(cfg, s, k))
  {
    forall t: Rt | t.cache.pageSize >= 1 && RoomyRun(cfg, subs, c0, t) ensures RoomyRun(cfg, subs, c0, Step(cfg, t)) {
      StepKeepsCapacity(cfg, subs, c0, t);
    }
    RunKeeps(cfg, t => RoomyRun(cfg, subs, c0, t), s, k);
  }

  /** The cache has room for every request at its full length. */
  ghost predicate RoomForAll(cfg: Config, c: Cache, q: seq<Req>)
    requires c.pageSize >= 1
  {
    Sum(CapOf(cfg, c), q) <= c.maxPages
  }

  ghost predicate Submittable(cfg: Config, q: seq<Req>) {
    NoDup(IdsOf(q)) && forall r :: r in q ==> FreshRequest(cfg, r) && Unstarted(r)
  }

  /**
   Total correctness: if the cache has room for every request at its full length,
   the run returns after at most the budgeted decode steps; no reachable state has
   raised or evicted anything, and the cache ends empty.
   */
  lemma RunTotal(cfg: Config, c: Cache, q: seq<Req>) returns (k: nat)
    requires GoodBlocks(cfg) && cfg.decodeWorkers >= 1 && FreshCache(c)
    requires Submittable(cfg, q) && RoomForAll(cfg, c, q)
    ensures Iterate(cfg, Initial(c, q), k).stage.Returned?
    ensures Iterate(cfg, Initial(c, q), k).decodeSteps <= StepBudget(q)
    ensures Iterate(cfg, Initial(c, q), k).cache.pages == map[] && Iterate(cfg, Initial(c, q), k).cache.lru == []
    ensures forall j: nat :: RoomyState(c, Iterate(cfg, Initial(c, q), j))
  {
    k := RunsEnd(cfg, c, q);
    StepsWithinBudget(cfg, c, q, k);
    forall j: nat ensures RoomyState(c, Iterate(cfg, Initial(c, q), j)) {
      RoomyStates(cfg, c, q, j);
    }
    assert RoomyState(c, Iterate(cfg, Initial(c, q), k));
    ReturnsEmpty(cfg, c, q, k);
  }

  /** Nothing has raised, nothing has been evicted, and the page bound holds. */
  ghost predicate RoomyState(c: Cache, s: Rt) {
    !s.stage.Raised? && s.cache.evictions == c.evictions && |s.cache.pages| <= c.maxPages
  }

  lemma RoomyStates(cfg: Config, c: Cache, q: seq<Req>, j: nat)
    requires GoodBlocks(cfg) && FreshCache(c)
    requires Submittable(cfg, q) && RoomForAll(cfg, c, q)
    ensures RoomyState(c, Iterate(cfg, Initial(c, q), j))
  {
    var s := Iterate(cfg, Initial(c, q), j);
    InitialTokens(cfg, c, q);
    assert BatchReqs([]) == [];
    RunKeepsCapacity(cfg, Submissions(q), c, Initial(c, q), j);
    NowWithinCap(cfg, c, s.cache, s.prefilled);
    NowWithinCap(cfg, c, s.cache, s.decodeQ);
    NowWithinCap(cfg, c, s.cache, BatchReqs(s.batch));
    CapPositive(cfg, c, s.prefillQ);
  }
}
