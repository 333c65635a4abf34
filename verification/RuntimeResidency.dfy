/**
 Cache residency over whole runs: what one request's work may do to the pages of
 others, and which pages can ever be evicted.
 */
module RuntimeResidency {
  import opened Arithmetic
  import opened Sequences
  import opened KvCacheModel
  import opened KvAllocation
  import opened KvLaws
  import opened Requests
  import opened Ranking
  import opened RuntimeModel
  import opened RuntimeTokens

  // ------------------------------------------------------------------- locality

  /** Work for `rid`: pages of other requests stay as they are or, if unpinned, are evicted. */
  ghost predicate Local(c: Cache, d: Cache, rid: int) {
    && SameSettings(c, d)
    && c.nextId <= d.nextId
    && (forall id :: id in c.pages && c.pages[id].requestId != rid && c.pages[id].pinned ==> id in d.pages)
    && (forall id :: id in c.pages && id in d.pages && c.pages[id].requestId != rid ==> d.pages[id] == c.pages[id])
    && (forall id :: id in d.pages && d.pages[id].requestId != rid ==> id in c.pages && d.pages[id] == c.pages[id])
    && (forall id :: id in d.pages && id !in c.pages ==> c.nextId <= id)
  }

  /** The request's own pages all stay. */
  ghost predicate KeepsOwn(c: Cache, d: Cache, rid: int) {
    forall id :: id in c.pages && c.pages[id].requestId == rid ==> id in d.pages && d.pages[id].requestId == rid
  }

  ghost predicate NoOwn(c: Cache, rid: int) {
    forall id :: id in c.pages ==> c.pages[id].requestId != rid
  }

  lemma LocalTrans(c: Cache, d: Cache, e: Cache, rid: int)
    requires Inv(c) && Local(c, d, rid) && Local(d, e, rid)
    ensures Local(c, e, rid)
  {
    InvFreshIds(c);
  }

  lemma EvictLocal(c: Cache, n: int, rid: int)
    requires Inv(c)
    ensures Inv(Evict(c, n)) && Local(c, Evict(c, n), rid)
    ensures |Evict(c, n).pages| <= |c.pages|
    ensures OwnPinned(c, rid) ==> KeepsOwn(c, Evict(c, n), rid) && OwnPinned(Evict(c, n), rid)
    ensures NoOwn(c, rid) ==> NoOwn(Evict(c, n), rid)
  {
    EvictInv(c, n);
    VictimsFacts(c, n);
  }

  lemma GrownLocal(c: Cache, d: Cache, rid: int, layers: seq<int>, pin: bool)
    requires Inv(c) && Grown(c, d, rid, layers, pin)
    ensures Local(c, d, rid) && KeepsOwn(c, d, rid)
    ensures OwnPinned(c, rid) && pin ==> OwnPinned(d, rid)
  {
    forall id | id in d.pages && id !in c.pages
      ensures c.nextId <= id && d.pages[id].requestId == rid && d.pages[id].pinned == pin
    {
      assert FreshPage(d.pages[id], rid, layers, pin);
    }
  }

  lemma ReleaseLocal(c: Cache, rid: int)
    requires Inv(c)
    ensures Inv(Release(c, rid)) && Local(c, Release(c, rid), rid) && NoOwn(Release(c, rid), rid)
    ensures |Release(c, rid).pages| <= |c.pages|
  {
    DropInv(c, OwnedIds(c, rid));
    assert Release(c, rid).pages.Keys <= c.pages.Keys;
    SubsetSize(Release(c, rid).pages.Keys, c.pages.Keys);
  }

  /** Fewer pages under a key make a list that is no longer. */
  lemma SmallerList(c: Cache, d: Cache, k: LayerKey)
    requires Inv(c) && Inv(d)
    requires forall id :: id in d.pages && KeyOf(d.pages[id]) == k ==> id in c.pages && KeyOf(c.pages[id]) == k
    ensures |ListOf(d, k)| <= |ListOf(c, k)|
  {
    ListOfFacts(c, k);
    ListOfFacts(d, k);
    NoDupSize(ListOf(c, k));
    NoDupSize(ListOf(d, k));
    SubsetSize(Elems(ListOf(d, k)), Elems(ListOf(c, k)));
  }

  // ---------------------------------------------------------- a request's own pages

  /** All own pages are on the request's layers, with no more of them than `total` tokens need. */
  ghost predicate OwnShape(c: Cache, r: Req, total: int)
    requires c.pageSize >= 1
  {
    && (forall id :: id in c.pages && c.pages[id].requestId == r.requestId ==> c.pages[id].layerId in r.layers)
    && (forall l :: l in r.layers ==> |ListOf(c, (r.requestId, l))| <= RequiredPages(c, total))
  }

  /** The snapshot lists every live own page, and only ids that are own or gone. */
  ghost predicate Snapped(c: Cache, r: Req) {
    && r.snapshot.Some?
    && (forall id :: id in c.pages && c.pages[id].requestId == r.requestId ==> id in KvPageIds(r))
    && (forall id :: id in KvPageIds(r) ==> id < c.nextId)
    && (forall id :: id in KvPageIds(r) && id in c.pages ==> c.pages[id].requestId == r.requestId)
  }

  /** What is known of an unfinished request that has been prefilled. */
  ghost predicate Held(c: Cache, r: Req)
    requires c.pageSize >= 1
  {
    OwnShape(c, r, TotalWith(r, 0)) && Snapped(c, r)
  }

  /** Nothing of the request has been or can be evicted. */
  ghost predicate Secure(c: Cache, r: Req) { HasSnapshot(c, r) && OwnPinned(c, r.requestId) }

  lemma RequiredGrows(c: Cache, a: int, b: int)
    requires c.pageSize >= 1 && a <= b
    ensures RequiredPages(c, a) <= RequiredPages(c, b)
  {
    if a > 0 {
      CeilDivFacts(a, c.pageSize);
      CeilDivFacts(b, c.pageSize);
      if CeilDiv(b, c.pageSize) < CeilDiv(a, c.pageSize) {
        MulLe(CeilDiv(b, c.pageSize), CeilDiv(a, c.pageSize) - 1, c.pageSize);
        assert false;
      }
    } else if b > 0 {
      CeilDivFacts(b, c.pageSize);
    }
  }

  lemma OwnShapeGrows(c: Cache, r: Req, a: int, b: int)
    requires c.pageSize >= 1 && OwnShape(c, r, a) && a <= b
    ensures OwnShape(c, r, b)
  {
    RequiredGrows(c, a, b);
  }

  /** Losing pages keeps the shape. */
  lemma OwnShapeShrinks(c: Cache, d: Cache, r: Req, total: int)
    requires Inv(c) && Inv(d) && SameSettings(c, d) && OwnShape(c, r, total)
    requires forall id :: id in d.pages && d.pages[id].requestId == r.requestId ==>
      id in c.pages && KeyOf(d.pages[id]) == KeyOf(c.pages[id])
    ensures OwnShape(d, r, total)
  {
    forall l | l in r.layers ensures |ListOf(d, (r.requestId, l))| <= RequiredPages(d, total) {
      SmallerList(c, d, (r.requestId, l));
    }
  }

  /** The snapshot taken from the page lists is exact. */
  lemma SnapshotIsExact(c: Cache, r: Req, q: Req, total: int)
    requires Inv(c) && OwnShape(c, r, total)
    requires q.requestId == r.requestId && q.layers == r.layers
    requires q.snapshot.Some? && q.snapshot.value.layerPageMap == LayerMap(c, r.requestId, r.layers)
    ensures Snapped(c, q) && HasSnapshot(c, q)
  {
    var m := LayerMap(c, r.requestId, r.layers);
    forall id ensures id in KvPageIds(q) <==> id in c.pages && c.pages[id].requestId == r.requestId {
      FlattenMember(m, r.layers, id);
      if id in KvPageIds(q) {
        var l :| l in r.layers && id in MapGet(m, l);
        ListOfFacts(c, (r.requestId, l));
      }
      if id in c.pages && c.pages[id].requestId == r.requestId {
        var l := c.pages[id].layerId;
        ListOfFacts(c, (r.requestId, l));
        assert id in MapGet(m, l);
      }
    }
    InvFreshIds(c);
  }

  /** Another request's work does not disturb a holder. */
  lemma HeldElsewhere(c: Cache, d: Cache, r: Req, rid: int)
    requires Inv(c) && Inv(d) && Local(c, d, rid) && r.requestId != rid && Held(c, r)
    ensures Held(d, r)
    ensures Secure(c, r) ==> Secure(d, r)
  {
    OwnShapeShrinks(c, d, r, TotalWith(r, 0));
    forall id | id in KvPageIds(r) && id in d.pages ensures d.pages[id].requestId == r.requestId {
      assert id < c.nextId;
      assert id in c.pages;
    }
  }

  // ----------------------------------------------------------- allocation for a request

  /** Allocation for one request: local, and with pinned own pages nothing of its own is lost. */
  lemma AllocateLocal(c: Cache, r: Req, total: int, pin: bool)
    requires Inv(c) && NoDup(r.layers) && OwnShape(c, r, total)
    ensures var d := Allocate(c, r.requestId, r.layers, total, pin).cache;
      && Inv(d) && Local(c, d, r.requestId) && OwnShape(d, r, total)
      && (OwnPinned(c, r.requestId) ==> KeepsOwn(c, d, r.requestId))
      && (OwnPinned(c, r.requestId) && pin ==> OwnPinned(d, r.requestId))
      && (OwnPinned(c, r.requestId) && |c.pages| <= c.maxPages ==> |d.pages| <= d.maxPages)
  {
    var rid := r.requestId;
    var n, m := Deficit(c, rid, r.layers, total), Room(c, rid, r.layers, total);
    AllocateViaRoom(c, rid, r.layers, total, pin);
    EvictLocal(c, n, rid);
    OwnShapeShrinks(c, m, r, total);
    AllocLayersFacts(m, rid, r.layers, total, pin);
    var a := Allocate(c, rid, r.layers, total, pin);
    if a.Granted? {
      GrownLocal(m, a.cache, rid, r.layers, pin);
      LocalTrans(c, m, a.cache, rid);
      GrownShape(m, a.cache, r, total, pin);
      if OwnPinned(c, rid) && |c.pages| <= c.maxPages {
        PinnedGrantKeepsBound(c, rid, r.layers, total, pin);
      }
    }
  }

  lemma GrownShape(c: Cache, d: Cache, r: Req, total: int, pin: bool)
    requires Inv(c) && Inv(d) && OwnShape(c, r, total)
    requires Grown(c, d, r.requestId, r.layers, pin) && Filled(c, d, r.requestId, r.layers, total)
    ensures OwnShape(d, r, total)
  {
    forall id | id in d.pages && d.pages[id].requestId == r.requestId ensures d.pages[id].layerId in r.layers {
      if id !in c.pages {
        assert FreshPage(d.pages[id], r.requestId, r.layers, pin);
      }
    }
  }

  lemma NoOwnShape(c: Cache, r: Req, total: int)
    requires Inv(c) && NoOwn(c, r.requestId)
    ensures OwnShape(c, r, total) && OwnPinned(c, r.requestId)
  {
    forall l | l in r.layers ensures |ListOf(c, (r.requestId, l))| <= RequiredPages(c, total) {
      WithinNone(AllIds(c), Under(c, (r.requestId, l)));
      if total > 0 { CeilDivFacts(total, c.pageSize); }
    }
  }

  /** Changing only flags of own pages is local and keeps shape. */
  ghost predicate FlagsChanged(c: Cache, d: Cache, rid: int) {
    && d == c.(pages := d.pages) && d.pages.Keys == c.pages.Keys
    && (forall id :: id in c.pages ==> KeyOf(d.pages[id]) == KeyOf(c.pages[id]))
    && (forall id :: id in c.pages && c.pages[id].requestId != rid ==> d.pages[id] == c.pages[id])
  }

  lemma FlagsLocal(c: Cache, d: Cache, r: Req, total: int)
    requires Inv(c) && Inv(d) && FlagsChanged(c, d, r.requestId)
    ensures Local(c, d, r.requestId) && |d.pages| == |c.pages|
    ensures OwnShape(c, r, total) ==> OwnShape(d, r, total)
    ensures Snapped(c, r) ==> Snapped(d, r)
    ensures HasSnapshot(c, r) ==> HasSnapshot(d, r)
    ensures KeepsOwn(c, d, r.requestId)
  {
    assert |d.pages| == |d.pages.Keys| && |c.pages| == |c.pages.Keys|;
    assert forall id :: id in c.pages ==> KeyOf(d.pages[id]) == KeyOf(c.pages[id]);
    forall id | id in c.pages
      ensures d.pages[id].requestId == c.pages[id].requestId && d.pages[id].layerId == c.pages[id].layerId
    {
      assert KeyOf(d.pages[id]) == KeyOf(c.pages[id]);
    }
    if OwnShape(c, r, total) {
      OwnShapeShrinks(c, d, r, total);
    }
  }

  lemma PinFlags(c: Cache, rid: int, ids: seq<int>, pin: bool)
    requires Inv(c) && forall id :: id in ids && id in c.pages ==> c.pages[id].requestId == rid
    ensures Inv(SetPinned(c, ids, pin)) && FlagsChanged(c, SetPinned(c, ids, pin), rid)
    ensures pin && OwnPinned(c, rid) ==> OwnPinned(SetPinned(c, ids, pin), rid)
    ensures pin && (forall id :: id in c.pages && c.pages[id].requestId == rid ==> id in ids)
        ==> OwnPinned(SetPinned(c, ids, pin), rid)
  {
    SetPinnedInv(c, ids, pin);
  }

  lemma CommitFlags(c: Cache, rid: int, layers: seq<int>)
    requires Inv(c)
    ensures Inv(CommitMark(c, rid, layers)) && FlagsChanged(c, CommitMark(c, rid, layers), rid)
    ensures OwnPinned(c, rid) ==> OwnPinned(CommitMark(c, rid, layers), rid)
  {
    MarkOwnedInv(c, rid, layers, CommitPage);
  }

  // ------------------------------------------------------- one request's work

  /** What a step for `r` may do to the cache, whatever its outcome. */
  ghost predicate Contained(cfg: Config, c: Cache, d: Cache, r: Req) {
    && Inv(d) && Local(c, d, r.requestId)
    && ((cfg.sparseTopK.None? || cfg.pinReady) && |c.pages| <= c.maxPages ==> |d.pages| <= d.maxPages)
  }

  /** A holder after a step that went through. */
  ghost predicate StillHolds(cfg: Config, c: Cache, r: Req)
    requires c.pageSize >= 1
  {
    Held(c, r) && (cfg.pinReady ==> Secure(c, r) && r.rehydrations == 0)
  }

  lemma TouchKeeps(c: Cache, ids: seq<int>, r: Req, total: int)
    requires Inv(c)
    ensures var d := Touch(c, ids);
      && Inv(d) && d.pages == c.pages && SameSettings(c, d) && d.nextId == c.nextId
      && (OwnShape(c, r, total) ==> OwnShape(d, r, total))
  {
    TouchInv(c, ids);
    assert forall k: LayerKey :: ListOf(Touch(c, ids), k) == ListOf(c, k);
  }

  /** Prefilling a request that owns nothing. */
  lemma PrefillContained(cfg: Config, c: Cache, r: Req)
    requires Inv(c) && NoDup(r.layers) && NoOwn(c, r.requestId) && r.rehydrations == 0 && r.committed == []
    ensures var o := PrefillOne(cfg, c, r);
      Contained(cfg, c, o.cache, r) && (o.Prefilled? ==> StillHolds(cfg, o.cache, o.req))
  {
    var total := |r.prompt|;
    NoOwnShape(c, r, total);
    AllocateLocal(c, r, total, cfg.pinReady);
    var a := Allocate(c, r.requestId, r.layers, total, cfg.pinReady);
    if a.Granted? {
      var m := LayerMap(a.cache, r.requestId, r.layers);
      var q := WithSnapshot(r, m).(phase := ReadyDecode);
      SnapshotIsExact(a.cache, r, q, total);
      TouchKeeps(a.cache, FlattenMap(m, r.layers), r, total);
    }
  }

  lemma AfterRebuildContained(cfg: Config, c: Cache, r: Req, a: AllocResult)
    requires Inv(c) && Contained(cfg, c, a.cache, r) && OwnShape(a.cache, r, TotalWith(r, 0))
    ensures var o := AfterRebuild(r, a);
      Contained(cfg, c, o.cache, r) && (o.Resident? ==> Held(o.cache, o.req) && HasSnapshot(o.cache, o.req))
  {
    if a.Granted? {
      HeldAfterSnapshot(a.cache, r, AfterRebuild(r, a).req);
    }
  }

  /** Making a request resident: what has its snapshot is left alone, the rest is rebuilt. */
  lemma RehydrateContained(cfg: Config, c: Cache, r: Req)
    requires Inv(c) && NoDup(r.layers) && Held(c, r)
    ensures var o := Rehydrate(c, r);
      && Contained(cfg, c, o.cache, r)
      && (o.Resident? ==> Held(o.cache, o.req) && HasSnapshot(o.cache, o.req))
  {
    if !HasSnapshot(c, r) {
      RebuildContained(c, r);
      AfterRebuildContained(cfg, c, r, Rebuilt(c, r));
    }
  }

  /** `e` comes from `c` by rebuilding the request's pages. */
  ghost predicate Renewed(c: Cache, e: Cache, r: Req)
    requires c.pageSize >= 1
  {
    && Inv(e) && Local(c, e, r.requestId) && OwnShape(e, r, TotalWith(r, 0))
    && (|c.pages| <= c.maxPages ==> |e.pages| <= e.maxPages)
  }

  lemma AllocateAnew(d: Cache, r: Req)
    requires Inv(d) && NoDup(r.layers) && NoOwn(d, r.requestId)
    ensures Renewed(d, Allocate(d, r.requestId, r.layers, TotalWith(r, 0), true).cache, r)
  {
    NoOwnShape(d, r, TotalWith(r, 0));
    AllocateLocal(d, r, TotalWith(r, 0), true);
  }

  lemma ReleaseThenRenew(c: Cache, e: Cache, r: Req)
    requires Inv(c) && Renewed(Release(c, r.requestId), e, r)
    ensures Renewed(c, e, r)
  {
    ReleaseLocal(c, r.requestId);
    LocalTrans(c, Release(c, r.requestId), e, r.requestId);
  }

  lemma RebuildContained(c: Cache, r: Req)
    requires Inv(c) && NoDup(r.layers)
    ensures Renewed(c, Rebuilt(c, r).cache, r)
  {
    ReleaseLocal(c, r.requestId);
    AllocateAnew(Release(c, r.requestId), r);
    ReleaseThenRenew(c, Rebuilt(c, r).cache, r);
  }

  lemma HeldAfterSnapshot(c: Cache, r: Req, q: Req)
    requires Inv(c) && OwnShape(c, r, TotalWith(q, 0))
    requires q.requestId == r.requestId && q.layers == r.layers
    requires q.snapshot.Some? && q.snapshot.value.layerPageMap == LayerMap(c, r.requestId, r.layers)
    ensures Held(c, q) && HasSnapshot(c, q)
  {
    SnapshotIsExact(c, r, q, TotalWith(q, 0));
  }

  /** The pages a decode step reads are live and its own; without sparse selection they are all of them. */
  lemma ReadsOwn(cfg: Config, c: Cache, r: Req)
    requires c.pageSize >= 1 && Held(c, r) && HasSnapshot(c, r)
    ensures forall id :: id in DecodePages(cfg, c, r) ==> id in c.pages && c.pages[id].requestId == r.requestId
    ensures cfg.sparseTopK.None? ==> DecodePages(cfg, c, r) == KvPageIds(r)
  {
    if cfg.sparseTopK.Some? {
      SelectsOwn(c, r, cfg.sparseTopK.value);
    }
  }

  lemma SelectsOwn(c: Cache, r: Req, topK: int)
    ensures forall id :: id in SelectSparse(c, r, topK) ==> id in ActiveIds(c, r.requestId)
  {
    var order := SelectionOrder(c, |r.prompt| + |r.committed|);
    var active := Within(c.lru, ActiveIds(c, r.requestId));
    WithinMember(c.lru, ActiveIds(c, r.requestId));
    SortMember(order, active);
    TakeMember(Sort(order, active), topK);
  }

  lemma ReadKeeps(c: Cache, r: Req, ids: seq<int>)
    requires Inv(c) && Held(c, r) && HasSnapshot(c, r)
    requires forall id :: id in ids ==> id in c.pages && c.pages[id].requestId == r.requestId
    ensures var d := ReadPages(c, ids);
      && Inv(d) && Local(c, d, r.requestId) && |d.pages| == |c.pages| && KeepsOwn(c, d, r.requestId)
      && Held(d, r) && HasSnapshot(d, r)
      && (OwnPinned(c, r.requestId) || ids == KvPageIds(r) ==> OwnPinned(d, r.requestId))
  {
    var d := SetPinned(c, ids, true);
    PinFlags(c, r.requestId, ids, true);
    FlagsLocal(c, d, r, TotalWith(r, 0));
    TouchKeeps(d, ids, r, TotalWith(r, 0));
  }

  /** The eviction before a commit, and the commit. */
  lemma CommitContained(c: Cache, r: Req, n: nat)
    requires Inv(c) && NoDup(r.layers) && Held(c, r)
    ensures var a := CommitAccepted(c, r, n);
      && Inv(a.cache) && Local(c, a.cache, r.requestId) && OwnShape(a.cache, r, TotalWith(r, n))
      && (OwnPinned(c, r.requestId) ==> KeepsOwn(c, a.cache, r.requestId) && OwnPinned(a.cache, r.requestId))
      && (OwnPinned(c, r.requestId) && |c.pages| <= c.maxPages ==> |a.cache.pages| <= a.cache.maxPages)
  {
    var rid, total := r.requestId, TotalWith(r, n);
    var m := MakeSpace(c, rid, r.layers, total);
    OwnShapeGrows(c, r, TotalWith(r, 0), total);
    EvictLocal(c, Needed(c, rid, r.layers, total), rid);
    OwnShapeShrinks(c, m, r, total);
    AllocateLocal(m, r, total, true);
    var d := Allocate(m, rid, r.layers, total, true).cache;
    LocalTrans(c, m, d, rid);
    CommitFlags(d, rid, r.layers);
    var e := CommitMark(d, rid, r.layers);
    FlagsLocal(d, e, r, total);
    LocalTrans(c, d, e, rid);
  }

  lemma UnpinContained(c: Cache, r: Req, ids: seq<int>)
    requires Inv(c) && Held(c, r)
    requires forall id :: id in ids && id in c.pages ==> c.pages[id].requestId == r.requestId
    ensures var d := SetPinned(c, ids, false);
      && Inv(d) && Local(c, d, r.requestId) && |d.pages| == |c.pages| && KeepsOwn(c, d, r.requestId) && Held(d, r)
  {
    PinFlags(c, r.requestId, ids, false);
    FlagsLocal(c, SetPinned(c, ids, false), r, TotalWith(r, 0));
  }

  /** Finishing or handing back changes only pins of the request's own pages. */
  lemma WrapContained(cfg: Config, c: Cache, r: Req, d: Decision, ids: seq<int>, width: int)
    requires Inv(c) && Held(c, r) && HasSnapshot(c, r)
    requires forall id :: id in ids && id in c.pages ==> c.pages[id].requestId == r.requestId
    requires cfg.pinReady ==> Secure(c, r) && r.rehydrations == 0
    ensures var o := Wrap(cfg, c, r, d, ids, width);
      && Inv(o.cache) && Local(c, o.cache, r.requestId) && |o.cache.pages| == |c.pages|
      && KeepsOwn(c, o.cache, r.requestId)
      && (cfg.pinReady ==> o.req.rehydrations == 0)
      && (!o.req.finished ==> StillHolds(cfg, o.cache, o.req))
  {
    if Finishes(r, d) {
      UnpinContained(c, r, KvPageIds(r));
    } else {
      var q := Wrap(cfg, c, r, d, ids, width).req;
      if !cfg.pinReady {
        UnpinContained(c, r, ids);
        SameHeld(SetPinned(c, ids, false), r, q);
      } else {
        SameHeld(c, r, q);
      }
    }
  }

  /** What is known after one decode step, whatever its outcome. */
  ghost predicate AfterOk(cfg: Config, c: Cache, o: DecodeOutcome, r: Req) {
    && Contained(cfg, c, o.cache, r)
    && (cfg.pinReady ==> KeepsOwn(c, o.cache, r.requestId))
    && (o.Decoded? ==>
          && SameIdentity(o.req, r)
          && (cfg.pinReady ==> o.req.rehydrations == 0)
          && (!o.req.finished ==> StillHolds(cfg, o.cache, o.req)))
  }

  /** A resident request whose pages `ids` have been read, about to commit. */
  ghost predicate CommitReady(cfg: Config, c: Cache, r: Req, ids: seq<int>) {
    && Inv(c) && NoDup(r.layers) && Held(c, r) && HasSnapshot(c, r)
    && (forall id :: id in ids ==> id in c.pages && c.pages[id].requestId == r.requestId)
    && (cfg.pinReady ==> r.rehydrations == 0)
    && (cfg.sparseTopK.None? || cfg.pinReady ==> OwnPinned(c, r.requestId))
  }

  lemma CommitAndWrapContained(cfg: Config, c: Cache, r: Req, d: Decision, ids: seq<int>, width: int)
    requires CommitReady(cfg, c, r, ids)
    ensures AfterOk(cfg, c, CommitAndWrap(cfg, c, r, d, ids, width), r)
  {
    if d.accepted == [] {
      WrapContained(cfg, c, r, d, ids, width);
    } else {
      var n := |d.accepted|;
      CommitContained(c, r, n);
      AfterCommitContained(cfg, c, CommitAccepted(c, r, n), r, d, ids, width);
    }
  }

  lemma AfterCommitContained(cfg: Config, c: Cache, a: AllocResult, r: Req, d: Decision, ids: seq<int>, width: int)
    requires Inv(c) && Inv(a.cache) && Local(c, a.cache, r.requestId)
    requires OwnShape(a.cache, r, TotalWith(r, |d.accepted|))
    requires OwnPinned(c, r.requestId) ==> KeepsOwn(c, a.cache, r.requestId) && OwnPinned(a.cache, r.requestId)
    requires OwnPinned(c, r.requestId) && |c.pages| <= c.maxPages ==> |a.cache.pages| <= a.cache.maxPages
    requires d.accepted != []
    requires forall id :: id in ids ==> id in c.pages && c.pages[id].requestId == r.requestId
    requires cfg.pinReady ==> r.rehydrations == 0
    requires cfg.sparseTopK.None? || cfg.pinReady ==> OwnPinned(c, r.requestId)
    ensures AfterOk(cfg, c, AfterCommit(cfg, a, r, d, ids, width), r)
  {
    if a.Granted? {
      var e := a.cache;
      var q := Committed(r, d.accepted, LayerMap(e, r.requestId, r.layers));
      HeldAfterSnapshot(e, r, q);
      WrapContained(cfg, e, q, d, ids, width);
      LocalTrans(c, e, Wrap(cfg, e, q, d, ids, width).cache, r.requestId);
    }
  }

  lemma SameHeld(c: Cache, r: Req, q: Req)
    requires c.pageSize >= 1 && SameIdentity(q, r) && q.committed == r.committed && q.snapshot == r.snapshot
    requires Held(c, r)
    ensures Held(c, q) && HasSnapshot(c, q) == HasSnapshot(c, r)
  {
    assert KvPageIds(q) == KvPageIds(r);
  }

  lemma ReadIsReady(cfg: Config, c: Cache, r: Req, q: Req, ids: seq<int>)
    requires Inv(c) && NoDup(r.layers) && Held(c, r) && HasSnapshot(c, r)
    requires cfg.pinReady ==> Secure(c, r) && r.rehydrations == 0
    requires forall id :: id in ids ==> id in c.pages && c.pages[id].requestId == r.requestId
    requires cfg.sparseTopK.None? ==> ids == KvPageIds(r)
    requires SameIdentity(q, r) && q.committed == r.committed && q.snapshot == r.snapshot
    requires q.rehydrations == r.rehydrations
    ensures CommitReady(cfg, ReadPages(c, ids), q, ids)
    ensures Contained(cfg, c, ReadPages(c, ids), r) && KeepsOwn(c, ReadPages(c, ids), r.requestId)
  {
    ReadKeeps(c, r, ids);
    SameHeld(ReadPages(c, ids), r, q);
  }

  lemma DecodeResidentContained(cfg: Config, c: Cache, r: Req)
    requires Inv(c) && NoDup(r.layers) && Held(c, r) && HasSnapshot(c, r)
    requires cfg.pinReady ==> Secure(c, r) && r.rehydrations == 0
    ensures AfterOk(cfg, c, DecodeResident(cfg, c, r), r)
  {
    var ids, d := DecodePages(cfg, c, r), Decide(cfg, r);
    var c1 := ReadPages(c, ids);
    var q := Adapt(cfg, c1, r.(draft := d.proposed), d);
    ReadsOwn(cfg, c, r);
    ReadIsReady(cfg, c, r, q, ids);
    CommitAndWrapContained(cfg, c1, q, d, ids, BlockWidth(cfg, r));
    AfterOkTrans(cfg, c, c1, CommitAndWrap(cfg, c1, q, d, ids, BlockWidth(cfg, r)), r, q);
  }

  lemma AfterOkTrans(cfg: Config, c: Cache, d: Cache, o: DecodeOutcome, r: Req, q: Req)
    requires Inv(c) && Contained(cfg, c, d, r) && SameIdentity(q, r)
    requires cfg.pinReady ==> KeepsOwn(c, d, r.requestId)
    requires AfterOk(cfg, d, o, q)
    ensures AfterOk(cfg, c, o, r)
  {
    LocalTrans(c, d, o.cache, r.requestId);
  }

  /** One decode step of a holder. */
  lemma DecodeContained(cfg: Config, c: Cache, r: Req)
    requires Inv(c) && NoDup(r.layers) && StillHolds(cfg, c, r)
    ensures AfterOk(cfg, c, DecodeOne(cfg, c, r), r)
  {
    var r0 := r.(phase := Decode);
    assert KvPageIds(r0) == KvPageIds(r);
    RehydrateContained(cfg, c, r0);
    var o := Rehydrate(c, r0);
    if o.Resident? {
      ResidentHolds(cfg, c, r0);
      DecodeResidentContained(cfg, o.cache, o.req);
      AfterOkTrans(cfg, c, o.cache, DecodeResident(cfg, o.cache, o.req), r, o.req);
    }
  }

  lemma ResidentHolds(cfg: Config, c: Cache, r: Req)
    requires Inv(c) && StillHolds(cfg, c, r)
    ensures var o := Rehydrate(c, r);
      && (o.Resident? ==> SameIdentity(o.req, r))
      && (cfg.pinReady ==> o == Resident(c, r))
  {}

  // ------------------------------------------------------------------ whole runs

  /** The requests that may own pages. */
  function Holders(s: Rt): seq<Req> { s.prefilled + s.decodeQ + BatchReqs(s.batch) }

  function Ready(s: Rt): seq<Req> { s.prefilled + s.decodeQ }

  ghost predicate HolderOk(cfg: Config, c: Cache, r: Req)
    requires c.pageSize >= 1
  {
    && NoDup(r.layers)
    && (cfg.pinReady ==> r.rehydrations == 0)
    && (!r.finished ==> StillHolds(cfg, c, r))
  }

  ghost predicate Unstarted(r: Req) {
    NoDup(r.layers) && !r.finished && r.rehydrations == 0 && r.committed == []
  }

  /** Every page belongs to a request that has been prefilled and not yet released. */
  ghost predicate PagesHeld(s: Rt) {
    forall id :: id in s.cache.pages ==> exists r :: r in Holders(s) && r.requestId == s.cache.pages[id].requestId
  }

  ghost predicate BoundOk(cfg: Config, c: Cache) {
    cfg.sparseTopK.None? || cfg.pinReady ==> |c.pages| <= c.maxPages
  }

  ghost predicate HoldersOk(cfg: Config, s: Rt)
    requires s.cache.pageSize >= 1
  {
    && Distinct(s) && PagesHeld(s)
    && (forall r :: r in s.prefillQ ==> Unstarted(r))
    && (forall r :: r in Ready(s) ==> !r.finished)
    && (forall r :: r in Holders(s) ==> HolderOk(cfg, s.cache, r))
  }

  ghost predicate NeverRebuilt(rs: seq<DecodeResult>) {
    forall i :: 0 <= i < |rs| ==> rs[i].rehydrations == 0
  }

  ghost predicate ResidencyInv(cfg: Config, s: Rt) {
    && Inv(s.cache)
    && BoundOk(cfg, s.cache)
    && (cfg.pinReady ==> NeverRebuilt(s.results))
    && (!s.stage.Raised? ==> HoldersOk(cfg, s))
  }

  lemma HolderElsewhere(cfg: Config, c: Cache, d: Cache, r: Req, rid: int)
    requires Inv(c) && Inv(d) && Local(c, d, rid) && r.requestId != rid && HolderOk(cfg, c, r)
    ensures HolderOk(cfg, d, r)
  {
    if !r.finished {
      HeldElsewhere(c, d, r, rid);
    }
  }

  /** Distinct ids: the head of the prefill queue holds nothing. */
  lemma HeadOwnsNothing(s: Rt)
    requires Distinct(s) && PagesHeld(s) && s.prefillQ != []
    ensures NoOwn(s.cache, s.prefillQ[0].requestId)
    ensures forall q :: q in Holders(s) ==> q.requestId != s.prefillQ[0].requestId
  {
    var x := s.prefillQ[0].requestId;
    InIds(s.prefillQ, s.prefillQ[0]);
    assert IdBag(s)[x] <= 1;
    forall q | q in Holders(s) ensures q.requestId != x {
      if q in s.prefilled { InIds(s.prefilled, q); }
      else if q in s.decodeQ { InIds(s.decodeQ, q); }
      else { InIds(BatchReqs(s.batch), q); }
    }
  }

  lemma DecodeHeadElsewhere(s: Rt, q: Req)
    requires Distinct(s) && s.decodeQ != []
    requires q in s.prefilled || q in s.decodeQ[1..] || q in BatchReqs(s.batch)
    ensures q.requestId != s.decodeQ[0].requestId
  {
    var x := s.decodeQ[0].requestId;
    IdsHead(s.decodeQ);
    assert IdBag(s)[x] <= 1;
    if q in s.prefilled { InIds(s.prefilled, q); }
    else if q in s.decodeQ[1..] { InIds(s.decodeQ[1..], q); }
    else { InIds(BatchReqs(s.batch), q); }
  }

  /**
   Work on `x` alone: the other holders stay, and so do their claims. Afterwards
   `x` is a holder in its new form, or owns nothing.
   */
  lemma OthersKeepHolding(cfg: Config, s: Rt, n: Rt, x: Req)
    requires Inv(s.cache) && Inv(n.cache) && Local(s.cache, n.cache, x.requestId) && PagesHeld(s)
    requires forall q :: q in Holders(s) ==> HolderOk(cfg, s.cache, q)
    requires forall q :: q in Holders(n) && q != x ==> q in Holders(s) && q.requestId != x.requestId
    requires forall q :: q in Holders(s) && q.requestId != x.requestId ==> q in Holders(n)
    requires if x in Holders(n) then HolderOk(cfg, n.cache, x) else NoOwn(n.cache, x.requestId)
    ensures PagesHeld(n)
    ensures forall q :: q in Holders(n) ==> HolderOk(cfg, n.cache, q)
  {
    forall q | q in Holders(n) ensures HolderOk(cfg, n.cache, q) {
      if q != x {
        HolderElsewhere(cfg, s.cache, n.cache, q, x.requestId);
      }
    }
    forall id | id in n.cache.pages
      ensures exists r :: r in Holders(n) && r.requestId == n.cache.pages[id].requestId
    {
      var o := n.cache.pages[id].requestId;
      if o == x.requestId {
        assert x in Holders(n);
      } else {
        assert id in s.cache.pages && s.cache.pages[id] == n.cache.pages[id];
        var r :| r in Holders(s) && r.requestId == o;
        assert r in Holders(n);
      }
    }
  }

  lemma PrefillKeepsResidency(cfg: Config, s: Rt, o: PrefillOutcome)
    requires Inv(s.cache) && HoldersOk(cfg, s) && s.prefillQ != []
    requires Inv(o.cache) && Local(s.cache, o.cache, s.prefillQ[0].requestId)
    requires o.Prefilled? && SameIdentity(o.req, s.prefillQ[0]) && !o.req.finished && StillHolds(cfg, o.cache, o.req)
    ensures HoldersOk(cfg, AfterPrefill(s, o))
  {
    var r, n := s.prefillQ[0], AfterPrefill(s, o);
    HeadOwnsNothing(s);
    PrefillKeepsIds(s, o);
    assert r in s.prefillQ && Unstarted(r);
    OthersKeepHolding(cfg, s, n, o.req);
  }

  lemma EnqueueKeepsResidency(cfg: Config, s: Rt)
    requires Inv(s.cache) && HoldersOk(cfg, s) && s.prefilled != []
    ensures HoldersOk(cfg, AfterEnqueue(s))
  {
    var n := AfterEnqueue(s);
    EnqueueKeepsIds(s);
    PushMember(s.decodeQ, s.prefilled[0]);
    assert s.prefilled == [s.prefilled[0]] + s.prefilled[1..];
    assert forall q :: q in Ready(n) <==> q in Ready(s);
    assert forall q :: q in Holders(n) <==> q in Holders(s);
  }

  lemma DecodeKeepsResidency(cfg: Config, s: Rt, o: DecodeOutcome)
    requires Inv(s.cache) && HoldersOk(cfg, s) && s.stage.Decoding? && s.stage.slots > 0 && s.decodeQ != []
    requires o.Decoded? && AfterOk(cfg, s.cache, o, s.decodeQ[0])
    ensures HoldersOk(cfg, AfterDecode(s, o))
  {
    var r, n := s.decodeQ[0], AfterDecode(s, o);
    DecodeKeepsIds(s, o);
    BatchSnoc(s.batch, o.req, o.trace);
    assert s.decodeQ == [r] + s.decodeQ[1..];
    assert r in Holders(s) && HolderOk(cfg, s.cache, r);
    forall q | q in Holders(n) && q != o.req ensures q in Holders(s) && q.requestId != r.requestId {
      DecodeHeadElsewhere(s, q);
    }
    OthersKeepHolding(cfg, s, n, o.req);
  }

  lemma SettleKeepsResidency(cfg: Config, s: Rt)
    requires Inv(s.cache) && HoldersOk(cfg, s) && s.batch != []
    ensures HoldersOk(cfg, AfterSettle(s))
  {
    var r, n := s.batch[0].0, AfterSettle(s);
    SettleKeepsIds(s);
    BatchHead(s.batch);
    PushMember(s.decodeQ, r);
    var b := BatchReqs(s.batch);
    assert b == [r] + b[1..];
    assert r in Holders(s) && HolderOk(cfg, s.cache, r);
    ReleaseLocal(s.cache, r.requestId);
    forall q | q in s.prefillQ || q in s.prefilled || q in s.decodeQ || q in b[1..] ensures q.requestId != r.requestId {
      BatchHeadElsewhere(s, q);
    }
    OthersKeepHolding(cfg, s, n, r);
  }

  lemma StepPrefillKeepsResidency(cfg: Config, s: Rt)
    requires ResidencyInv(cfg, s) && s.stage.Prefilling? && s.prefillQ != []
    ensures ResidencyInv(cfg, AfterPrefill(s, PrefillOne(cfg, s.cache, s.prefillQ[0])))
    ensures Contained(cfg, s.cache, PrefillOne(cfg, s.cache, s.prefillQ[0]).cache, s.prefillQ[0])
  {
    var r, o := s.prefillQ[0], PrefillOne(cfg, s.cache, s.prefillQ[0]);
    assert r in s.prefillQ && Unstarted(r);
    HeadOwnsNothing(s);
    PrefillContained(cfg, s.cache, r);
    PrefillTokens(cfg, s.cache, r);
    if o.Prefilled? {
      PrefillKeepsResidency(cfg, s, o);
    }
  }

  lemma StepDecodeKeepsResidency(cfg: Config, s: Rt)
    requires ResidencyInv(cfg, s) && s.stage.Decoding? && s.stage.slots > 0 && s.decodeQ != []
    ensures ResidencyInv(cfg, AfterDecode(s, DecodeOne(cfg, s.cache, s.decodeQ[0])))
    ensures AfterOk(cfg, s.cache, DecodeOne(cfg, s.cache, s.decodeQ[0]), s.decodeQ[0])
  {
    var r, o := s.decodeQ[0], DecodeOne(cfg, s.cache, s.decodeQ[0]);
    assert r in Ready(s) && r in Holders(s);
    DecodeContained(cfg, s.cache, r);
    if o.Decoded? {
      DecodeKeepsResidency(cfg, s, o);
    }
  }

  lemma StepSettleKeepsResidency(cfg: Config, s: Rt)
    requires ResidencyInv(cfg, s) && s.stage.Settling? && s.batch != []
    ensures ResidencyInv(cfg, AfterSettle(s))
  {
    var r := s.batch[0].0;
    SettleKeepsResidency(cfg, s);
    ReleaseLocal(s.cache, r.requestId);
    assert BatchReqs(s.batch)[0] == r && r in Holders(s) && HolderOk(cfg, s.cache, r);
  }

  lemma StageMoveKeepsResidency(cfg: Config, s: Rt, stage: Stage)
    requires ResidencyInv(cfg, s) && !s.stage.Raised?
    ensures ResidencyInv(cfg, s.(stage := stage))
  {
    var n := s.(stage := stage);
    StageMoveKeepsIds(s, stage);
    assert Holders(n) == Holders(s) && Ready(n) == Ready(s);
  }

  lemma StepKeepsResidency(cfg: Config, s: Rt)
    requires s.cache.pageSize >= 1 && ResidencyInv(cfg, s)
    ensures ResidencyInv(cfg, Step(cfg, s))
  {
    if s.stage.Prefilling? && s.prefillQ != [] {
      StepPrefillKeepsResidency(cfg, s);
    } else if s.stage.Enqueuing? && s.prefilled != [] {
      EnqueueKeepsResidency(cfg, s);
    } else if s.stage.Decoding? && s.stage.slots > 0 && s.decodeQ != [] {
      StepDecodeKeepsResidency(cfg, s);
    } else if s.stage.Settling? && s.batch != [] {
      StepSettleKeepsResidency(cfg, s);
    } else if !s.stage.Raised? {
      StageMoveKeepsResidency(cfg, s, Step(cfg, s).stage);
    }
  }

  /** The page belongs to a finished request whose result is about to be reported. */
  ghost predicate OwnerFinished(s: Rt, id: int) {
    && id in s.cache.pages
    && exists r :: r in BatchReqs(s.batch) && r.finished && r.requestId == s.cache.pages[id].requestId
  }

  /** Only finished requests have unpinned pages. */
  lemma LostUnpinned(cfg: Config, s: Rt, id: int)
    requires cfg.pinReady && Inv(s.cache) && HoldersOk(cfg, s)
    requires id in s.cache.pages && !s.cache.pages[id].pinned
    ensures OwnerFinished(s, id)
  {
    var r :| r in Holders(s) && r.requestId == s.cache.pages[id].requestId;
    assert HolderOk(cfg, s.cache, r);
    assert r.finished;
    assert r !in Ready(s);
  }

  /** Work that keeps the worker's own pages loses only unpinned pages of others. */
  lemma LocalLosesOnlyFinished(cfg: Config, s: Rt, d: Cache, rid: int, id: int)
    requires cfg.pinReady && Inv(s.cache) && HoldersOk(cfg, s)
    requires Local(s.cache, d, rid) && (KeepsOwn(s.cache, d, rid) || NoOwn(s.cache, rid))
    requires id in s.cache.pages && id !in d.pages
    ensures OwnerFinished(s, id)
  {
    LostUnpinned(cfg, s, id);
  }

  /** With ready requests pinned, a step loses only pages of finished requests. */
  lemma StepLosesOnlyFinished(cfg: Config, s: Rt, id: int)
    requires cfg.pinReady && s.cache.pageSize >= 1 && ResidencyInv(cfg, s)
    requires id in s.cache.pages && id !in Step(cfg, s).cache.pages
    ensures OwnerFinished(s, id)
  {
    if s.stage.Prefilling? && s.prefillQ != [] {
      StepPrefillKeepsResidency(cfg, s);
      HeadOwnsNothing(s);
      LocalLosesOnlyFinished(cfg, s, PrefillOne(cfg, s.cache, s.prefillQ[0]).cache, s.prefillQ[0].requestId, id);
    } else if s.stage.Decoding? && s.stage.slots > 0 && s.decodeQ != [] {
      StepDecodeKeepsResidency(cfg, s);
      LocalLosesOnlyFinished(cfg, s, DecodeOne(cfg, s.cache, s.decodeQ[0]).cache, s.decodeQ[0].requestId, id);
    } else if s.stage.Settling? && s.batch != [] {
      assert BatchReqs(s.batch)[0] == s.batch[0].0;
    }
  }

  ghost predicate FreshCache(c: Cache) { Inv(c) && c.pages == map[] && c.maxPages >= 0 }

  lemma InitialResidency(cfg: Config, c: Cache, q: seq<Req>)
    requires FreshCache(c) && NoDup(IdsOf(q)) && forall r :: r in q ==> Unstarted(r)
    ensures ResidencyInv(cfg, Initial(c, q))
  {
    NoDupBag(IdsOf(q));
    assert IdsOf([]) == [] && BatchReqs([]) == [] && ResultIds([]) == [];
  }

  lemma RunKeepsResidency(cfg: Config, s: Rt, k: nat)
    requires s.cache.pageSize >= 1 && ResidencyInv(cfg, s)
    ensures ResidencyInv(cfg, Iterate(cfg, s, k))
  {
    forall t: Rt | t.cache.pageSize >= 1 && ResidencyInv(cfg, t) ensures ResidencyInv(cfg, Step(cfg, t)) {
      StepKeepsResidency(cfg, t);
    }
    RunKeeps(cfg, t => ResidencyInv(cfg, t), s, k);
  }

  /**
   Residency safety: with ready requests pinned, at every step of every run a
   page that disappears belongs to a finished request, no request in flight has
   ever been rebuilt, and no result reports a rehydration.
   */
  lemma ResidencySafety(cfg: Config, c: Cache, q: seq<Req>, k: nat)
    requires cfg.pinReady && FreshCache(c) && NoDup(IdsOf(q)) && forall r :: r in q ==> Unstarted(r)
    ensures var s := Iterate(cfg, Initial(c, q), k);
      && (forall id :: id in s.cache.pages && id !in Step(cfg, s).cache.pages ==> OwnerFinished(s, id))
      && (!s.stage.Raised? ==> forall r :: r in AllReqs(s) ==> r.rehydrations == 0)
      && NeverRebuilt(s.results)
  {
    InitialResidency(cfg, c, q);
    RunKeepsResidency(cfg, Initial(c, q), k);
    var s := Iterate(cfg, Initial(c, q), k);
    forall id | id in s.cache.pages && id !in Step(cfg, s).cache.pages ensures OwnerFinished(s, id) {
      StepLosesOnlyFinished(cfg, s, id);
    }
    if !s.stage.Raised? {
      forall r | r in AllReqs(s) ensures r.rehydrations == 0 {
        assert r in s.prefillQ ==> Unstarted(r);
        assert r in Holders(s) ==> HolderOk(cfg, s.cache, r);
      }
    }
  }

  /** The page bound: without sparse selection, or with ready requests pinned, it holds in every reachable state. */
  lemma RunsKeepPageBound(cfg: Config, c: Cache, q: seq<Req>, k: nat)
    requires FreshCache(c) && NoDup(IdsOf(q)) && forall r :: r in q ==> Unstarted(r)
    requires cfg.sparseTopK.None? || cfg.pinReady
    ensures var d := Iterate(cfg, Initial(c, q), k).cache; Inv(d) && |d.pages| <= d.maxPages == c.maxPages
  {
    InitialResidency(cfg, c, q);
    RunKeepsResidency(cfg, Initial(c, q), k);
  }

  /** A run that returns leaves no page behind. */
  lemma ReturnsEmpty(cfg: Config, c: Cache, q: seq<Req>, k: nat)
    requires FreshCache(c) && NoDup(IdsOf(q)) && forall r :: r in q ==> Unstarted(r)
    requires Iterate(cfg, Initial(c, q), k).stage.Returned?
    ensures var d := Iterate(cfg, Initial(c, q), k).cache; d.pages == map[] && d.lru == []
  {
    var s := Iterate(cfg, Initial(c, q), k);
    InitialResidency(cfg, c, q);
    RunKeepsResidency(cfg, Initial(c, q), k);
    RunTidy(cfg, Initial(c, q), k);
    NoHoldersNoPages(s);
  }

  lemma NoHoldersNoPages(s: Rt)
    requires Inv(s.cache) && PagesHeld(s) && s.prefilled == [] && s.decodeQ == [] && s.batch == []
    ensures s.cache.pages == map[] && s.cache.lru == []
  {
    assert Holders(s) == [];
    assert forall id :: id !in s.cache.pages;
    LiveIsLru(s.cache);
  }
}
