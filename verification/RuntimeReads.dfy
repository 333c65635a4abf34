/**
 What a decode step reads. A request that has lost a page gets all of them back, and
 without sparse selection every decode step of every run reads, on each layer, pages
 for all prompt and committed tokens.
 */
module RuntimeReads {
  import opened Arithmetic
  import opened Sequences
  import opened KvCacheModel
  import opened KvAllocation
  import opened KvLaws
  import opened Requests
  import opened RuntimeModel
  import opened RuntimeTokens
  import opened RuntimeResidency

  /** `ids` are pages of request `rid` on layer `l`, as many as `total` tokens take; those alive are its own. */
  ghost predicate LayerListed(c: Cache, rid: int, l: int, ids: seq<int>, total: int)
    requires c.pageSize >= 1
  {
    && NoDup(ids) && |ids| == RequiredPages(c, total)
    && forall id :: id in ids ==> id < c.nextId && (id in c.pages ==> KeyOf(c.pages[id]) == (rid, l))
  }

  /** The snapshot lists, on each layer, the pages for all tokens of the request. */
  ghost predicate Listed(c: Cache, r: Req, total: int)
    requires c.pageSize >= 1
  {
    r.snapshot.Some? && forall l :: l in r.layers ==> MapLists(c, r.requestId, l, r.snapshot.value.layerPageMap, total)
  }

  ghost predicate MapLists(c: Cache, rid: int, l: int, m: map<int, seq<int>>, total: int)
    requires c.pageSize >= 1
  {
    l in m && LayerListed(c, rid, l, m[l], total)
  }

  /** Page ids are never used again: what lives in `d` is newer than `c`, or lived there under the same key. */
  ghost predicate Ages(c: Cache, d: Cache) {
    && c.pageSize == d.pageSize && c.nextId <= d.nextId
    && forall id :: id in d.pages && id < c.nextId ==> id in c.pages && KeyOf(d.pages[id]) == KeyOf(c.pages[id])
  }

  lemma AgesTrans(c: Cache, d: Cache, e: Cache)
    requires Ages(c, d) && Ages(d, e)
    ensures Ages(c, e)
  {
    forall id | id in e.pages && id < c.nextId ensures id in c.pages && KeyOf(e.pages[id]) == KeyOf(c.pages[id]) {
      assert KeyOf(e.pages[id]) == KeyOf(d.pages[id]);
    }
  }

  lemma StaysListed(c: Cache, d: Cache, r: Req, q: Req, total: int)
    requires c.pageSize >= 1 && Ages(c, d) && Listed(c, r, total)
    requires q.requestId == r.requestId && q.layers == r.layers && q.snapshot == r.snapshot
    ensures Listed(d, q, total)
  {
    forall l | l in r.layers ensures MapLists(d, r.requestId, l, r.snapshot.value.layerPageMap, total) {
      assert MapLists(c, r.requestId, l, r.snapshot.value.layerPageMap, total);
    }
  }

  /** The page lists of the cache, taken as a snapshot. */
  lemma SnapshotLists(c: Cache, r: Req, total: int)
    requires Inv(c) && r.snapshot.Some? && r.snapshot.value.layerPageMap == LayerMap(c, r.requestId, r.layers)
    requires forall l :: l in r.layers ==> |ListOf(c, (r.requestId, l))| == RequiredPages(c, total)
    ensures Listed(c, r, total)
  {
    forall l | l in r.layers ensures MapLists(c, r.requestId, l, LayerMap(c, r.requestId, r.layers), total) {
      ListOfFacts(c, (r.requestId, l));
      InvFreshIds(c);
    }
  }

  /** An allocation for at least what the request has fills each of its lists to exactly what is required. */
  lemma AllocateFills(c: Cache, r: Req, total: int, pin: bool)
    requires Inv(c) && OwnShape(c, r, total) && Allocate(c, r.requestId, r.layers, total, pin).Granted?
    ensures var d := Allocate(c, r.requestId, r.layers, total, pin).cache;
      && Inv(d) && Ages(c, d) && d.pageSize == c.pageSize
      && forall l :: l in r.layers ==> |ListOf(d, (r.requestId, l))| == RequiredPages(d, total)
  {
    var rid, n := r.requestId, Deficit(c, r.requestId, r.layers, total);
    var m, d := Room(c, rid, r.layers, total), Allocate(c, rid, r.layers, total, pin).cache;
    AllocateViaRoom(c, rid, r.layers, total, pin);
    RoomSize(c, rid, r.layers, total);
    AllocLayersFacts(m, rid, r.layers, total, pin);
    forall l | l in r.layers ensures |ListOf(d, (rid, l))| == RequiredPages(d, total) {
      EvictListOf(c, n, (rid, l));
      assert |ListOf(m, (rid, l))| <= RequiredPages(m, total);
    }
    InvFreshIds(m);
  }

  // ------------------------------------------------------------------- rehydration

  /**
   Rehydration: with all pages of the snapshot live nothing changes. Otherwise one
   rehydration is counted, and on each layer the request ends with pages for all its
   prompt and committed tokens, all of them live, pinned and in the new snapshot.
   */
  lemma RehydrateRestores(c: Cache, r: Req)
    requires Inv(c) && Rehydrate(c, r).Resident?
    ensures var d, q := Rehydrate(c, r).cache, Rehydrate(c, r).req;
      if r.snapshot.Some? && (forall id :: id in KvPageIds(r) ==> id in c.pages) then d == c && q == r
      else
        && q == r.(snapshot := q.snapshot, rehydrations := r.rehydrations + 1) && q.snapshot.Some?
        && d.pageSize == c.pageSize && HasSnapshot(d, q)
        && (forall l :: l in r.layers ==>
              l in q.snapshot.value.layerPageMap
              && q.snapshot.value.layerPageMap[l] == ListOf(d, (r.requestId, l))
              && NoDup(ListOf(d, (r.requestId, l)))
              && PagesCover(|ListOf(d, (r.requestId, l))|, c.pageSize, |r.prompt| + |r.committed|))
        && (forall id :: id in d.pages && d.pages[id].requestId == r.requestId ==>
              d.pages[id].pinned && id in KvPageIds(q))
  {
    if !HasSnapshot(c, r) {
      var total := TotalWith(r, 0);
      var e := Release(c, r.requestId);
      ReleaseLocal(c, r.requestId);
      NoOwnShape(e, r, total);
      AllocateFills(e, r, total, true);
      RebuiltArePinned(e, r, total);
      RebuiltShape(c, r);
      var d, q := Rehydrate(c, r).cache, Rehydrate(c, r).req;
      SnapshotIsExact(d, r, q, total);
      forall l | l in r.layers
        ensures NoDup(ListOf(d, (r.requestId, l))) && PagesCover(|ListOf(d, (r.requestId, l))|, c.pageSize, total)
      {
        ListOfFacts(d, (r.requestId, l));
        RequiredCovers(d, total);
      }
    }
  }

  /** `n` pages of `size` tokens are just enough for `total` tokens. */
  predicate PagesCover(n: nat, size: int, total: int) { (n - 1) * size < total <= n * size || (n == 0 && total <= 0) }

  lemma RequiredCovers(c: Cache, total: int)
    requires c.pageSize >= 1
    ensures RequiredPages(c, total) >= 0 && PagesCover(RequiredPages(c, total), c.pageSize, total)
  {
    if total > 0 {
      CeilDivFacts(total, c.pageSize);
    }
  }

  lemma RebuiltArePinned(e: Cache, r: Req, total: int)
    requires Inv(e) && NoOwn(e, r.requestId) && Allocate(e, r.requestId, r.layers, total, true).Granted?
    ensures OwnPinned(Allocate(e, r.requestId, r.layers, total, true).cache, r.requestId)
  {
    var m := Room(e, r.requestId, r.layers, total);
    AllocateViaRoom(e, r.requestId, r.layers, total, true);
    EvictLocal(e, Deficit(e, r.requestId, r.layers, total), r.requestId);
    AllocLayersFacts(m, r.requestId, r.layers, total, true);
    GrownLocal(m, AllocLayers(m, r.requestId, r.layers, total, true), r.requestId, r.layers, true);
  }

  lemma RebuiltShape(c: Cache, r: Req)
    requires Inv(c) && Rebuilt(c, r).Granted?
    ensures Inv(Rebuilt(c, r).cache) && OwnShape(Rebuilt(c, r).cache, r, TotalWith(r, 0))
  {
    var e, total := Release(c, r.requestId), TotalWith(r, 0);
    ReleaseLocal(c, r.requestId);
    NoOwnShape(e, r, total);
    var m := Room(e, r.requestId, r.layers, total);
    AllocateViaRoom(e, r.requestId, r.layers, total, true);
    EvictLocal(e, Deficit(e, r.requestId, r.layers, total), r.requestId);
    OwnShapeShrinks(e, m, r, total);
    AllocLayersFacts(m, r.requestId, r.layers, total, true);
    SettingsKeptLayers(m, r.requestId, r.layers, total, true);
    GrownShape(m, AllocLayers(m, r.requestId, r.layers, total, true), r, total, true);
  }

  // ------------------------------------------------------------------ one request's work

  lemma FlagsAge(c: Cache, d: Cache)
    requires d.pageSize == c.pageSize && d.nextId == c.nextId && d.pages.Keys <= c.pages.Keys
    requires forall id :: id in d.pages ==> KeyOf(d.pages[id]) == KeyOf(c.pages[id])
    ensures Ages(c, d)
  {}

  lemma ReadAges(c: Cache, ids: seq<int>)
    requires Inv(c)
    ensures var d := ReadPages(c, ids);
      && Ages(c, d) && Inv(d)
      && forall id :: id in d.pages ==> id in c.pages && KeyOf(d.pages[id]) == KeyOf(c.pages[id])
  {
    SetPinnedInv(c, ids, true);
    TouchInv(SetPinned(c, ids, true), ids);
    FlagsAge(c, ReadPages(c, ids));
  }

  lemma MarkAges(c: Cache, rid: int, layers: seq<int>)
    requires Inv(c)
    ensures Ages(c, CommitMark(c, rid, layers))
  {
    forall id | id in c.pages ensures KeyOf(CommitMark(c, rid, layers).pages[id]) == KeyOf(c.pages[id]) {
      assert PageOk(c, id);
    }
    FlagsAge(c, CommitMark(c, rid, layers));
  }

  lemma WrapAges(cfg: Config, c: Cache, r: Req, d: Decision, ids: seq<int>, width: int)
    requires Inv(c)
    ensures var o := Wrap(cfg, c, r, d, ids, width);
      o.Decoded? && Ages(c, o.cache) && SameIdentity(o.req, r) && o.req.snapshot == r.snapshot
      && o.req.committed == r.committed && o.trace.selected == ids
  {
    FlagsAge(c, Wrap(cfg, c, r, d, ids, width).cache);
  }

  /** `e` comes from `c` with exactly the required pages on each layer of `q`, whose snapshot lists them. */
  ghost predicate Filling(c: Cache, e: Cache, q: Req, total: int) {
    && Inv(e) && Ages(c, e) && q.snapshot.Some? && q.snapshot.value.layerPageMap == LayerMap(e, q.requestId, q.layers)
    && forall l :: l in q.layers ==> |ListOf(e, (q.requestId, l))| == RequiredPages(e, total)
  }

  lemma TouchedAfterFilling(c: Cache, e: Cache, q: Req, ids: seq<int>, total: int)
    requires Filling(c, e, q, total)
    ensures Ages(c, Touch(e, ids)) && Listed(Touch(e, ids), q, total)
  {
    SnapshotLists(e, q, total);
    TouchInv(e, ids);
    FlagsAge(e, Touch(e, ids));
    AgesTrans(c, e, Touch(e, ids));
    StaysListed(e, Touch(e, ids), q, q, total);
  }

  lemma WrappedAfterFilling(cfg: Config, c: Cache, e: Cache, q: Req, d: Decision, ids: seq<int>, width: int)
    requires Filling(c, e, q, TotalWith(q, 0))
    ensures var o := Wrap(cfg, e, q, d, ids, width);
      o.Decoded? && Ages(c, o.cache) && Listed(o.cache, o.req, TotalWith(o.req, 0)) && o.trace.selected == ids
  {
    SnapshotLists(e, q, TotalWith(q, 0));
    WrapLists(cfg, e, q, d, ids, width);
    AgesTrans(c, e, Wrap(cfg, e, q, d, ids, width).cache);
  }

  lemma WrapLists(cfg: Config, c: Cache, r: Req, d: Decision, ids: seq<int>, width: int)
    requires Inv(c) && Listed(c, r, TotalWith(r, 0))
    ensures var o := Wrap(cfg, c, r, d, ids, width);
      o.Decoded? && Ages(c, o.cache) && Listed(o.cache, o.req, TotalWith(o.req, 0)) && o.trace.selected == ids
  {
    WrapAges(cfg, c, r, d, ids, width);
    var o := Wrap(cfg, c, r, d, ids, width);
    StaysListed(c, o.cache, r, o.req, TotalWith(r, 0));
  }

  lemma PrefillLists(cfg: Config, c: Cache, r: Req)
    requires Inv(c) && NoOwn(c, r.requestId) && r.committed == []
    ensures var o := PrefillOne(cfg, c, r);
      o.Prefilled? ==> Ages(c, o.cache) && Listed(o.cache, o.req, TotalWith(o.req, 0))
  {
    var a := Allocate(c, r.requestId, r.layers, |r.prompt|, cfg.pinReady);
    NoOwnShape(c, r, |r.prompt|);
    if a.Granted? {
      AllocateFills(c, r, |r.prompt|, cfg.pinReady);
      PrefilledFrom(cfg, c, r, a.cache);
    }
  }

  lemma PrefilledFrom(cfg: Config, c: Cache, r: Req, e: Cache)
    requires c.pageSize >= 1 && Allocate(c, r.requestId, r.layers, |r.prompt|, cfg.pinReady) == Granted(e)
    requires Inv(e) && Ages(c, e) && r.committed == []
    requires forall l :: l in r.layers ==> |ListOf(e, (r.requestId, l))| == RequiredPages(e, |r.prompt|)
    ensures var o := PrefillOne(cfg, c, r); Ages(c, o.cache) && Listed(o.cache, o.req, TotalWith(o.req, 0))
  {
    var m := LayerMap(e, r.requestId, r.layers);
    TouchedAfterFilling(c, e, WithSnapshot(r, m).(phase := ReadyDecode), FlattenMap(m, r.layers), |r.prompt|);
  }

  lemma RebuildFills(c: Cache, r: Req)
    requires Inv(c) && Rebuilt(c, r).Granted?
    ensures Filling(c, Rebuilt(c, r).cache, AfterRebuild(r, Rebuilt(c, r)).req, TotalWith(r, 0))
  {
    var e := Release(c, r.requestId);
    ReleaseLocal(c, r.requestId);
    NoOwnShape(e, r, TotalWith(r, 0));
    AllocateFills(e, r, TotalWith(r, 0), true);
    FlagsAge(c, e);
    AgesTrans(c, e, Rebuilt(c, r).cache);
  }

  lemma RehydrateLists(c: Cache, r: Req)
    requires Inv(c) && Listed(c, r, TotalWith(r, 0)) && Rehydrate(c, r).Resident?
    ensures var d, q := Rehydrate(c, r).cache, Rehydrate(c, r).req;
      && Ages(c, d) && Listed(d, q, TotalWith(q, 0)) && SameIdentity(q, r) && q.committed == r.committed
  {
    if HasSnapshot(c, r) {
      FlagsAge(c, c);
    } else {
      RebuildLists(c, r);
    }
  }

  lemma RebuildLists(c: Cache, r: Req)
    requires Inv(c) && Rebuilt(c, r).Granted?
    ensures var d, q := Rebuilt(c, r).cache, AfterRebuild(r, Rebuilt(c, r)).req;
      && Ages(c, d) && Listed(d, q, TotalWith(q, 0)) && SameIdentity(q, r) && q.committed == r.committed
  {
    RebuildFills(c, r);
    FillingLists(c, Rebuilt(c, r).cache, AfterRebuild(r, Rebuilt(c, r)).req, TotalWith(r, 0));
  }

  lemma FillingLists(c: Cache, e: Cache, q: Req, total: int)
    requires Filling(c, e, q, total)
    ensures Ages(c, e) && Listed(e, q, total)
  {
    SnapshotLists(e, q, total);
  }

  lemma MarkFills(c: Cache, d: Cache, q: Req, total: int)
    requires Inv(d) && Ages(c, d)
    requires forall l :: l in q.layers ==> |ListOf(d, (q.requestId, l))| == RequiredPages(d, total)
    requires q.snapshot.Some?
    requires q.snapshot.value.layerPageMap == LayerMap(CommitMark(d, q.requestId, q.layers), q.requestId, q.layers)
    ensures Filling(c, CommitMark(d, q.requestId, q.layers), q, total)
  {
    var e := CommitMark(d, q.requestId, q.layers);
    MarkAges(d, q.requestId, q.layers);
    MarkOwnedInv(d, q.requestId, q.layers, CommitPage);
    AgesTrans(c, d, e);
    forall l | l in q.layers ensures |ListOf(e, (q.requestId, l))| == RequiredPages(e, total) {
      assert ListOf(e, (q.requestId, l)) == ListOf(d, (q.requestId, l));
    }
  }

  lemma MakeSpaceAges(c: Cache, r: Req, total: int)
    requires Inv(c) && OwnShape(c, r, TotalWith(r, 0)) && TotalWith(r, 0) <= total
    ensures var m := MakeSpace(c, r.requestId, r.layers, total);
      Inv(m) && Ages(c, m) && OwnShape(m, r, total)
  {
    var m := MakeSpace(c, r.requestId, r.layers, total);
    OwnShapeGrows(c, r, TotalWith(r, 0), total);
    EvictLocal(c, Needed(c, r.requestId, r.layers, total), r.requestId);
    OwnShapeShrinks(c, m, r, total);
    FlagsAge(c, m);
  }

  lemma CommitFills(c: Cache, r: Req, accepted: seq<int>)
    requires Inv(c) && OwnShape(c, r, TotalWith(r, 0)) && accepted != [] && CommitAccepted(c, r, |accepted|).Granted?
    ensures var e := CommitAccepted(c, r, |accepted|).cache;
      var q := Committed(r, accepted, LayerMap(e, r.requestId, r.layers));
      Filling(c, e, q, TotalWith(q, 0))
  {
    var rid, total := r.requestId, TotalWith(r, |accepted|);
    MakeSpaceAges(c, r, total);
    CommitAfter(c, MakeSpace(c, rid, r.layers, total), r, accepted);
  }

  lemma CommitAfter(c: Cache, m: Cache, r: Req, accepted: seq<int>)
    requires c.pageSize >= 1 && Inv(m) && Ages(c, m) && accepted != []
    requires OwnShape(m, r, TotalWith(r, |accepted|))
    requires Commit(m, r.requestId, r.layers, TotalWith(r, |accepted|), true).Granted?
    ensures var e := Commit(m, r.requestId, r.layers, TotalWith(r, |accepted|), true).cache;
      var q := Committed(r, accepted, LayerMap(e, r.requestId, r.layers));
      Filling(c, e, q, TotalWith(q, 0))
  {
    var total := TotalWith(r, |accepted|);
    AllocateAfter(c, m, r, total);
    MarkedAfter(c, Allocate(m, r.requestId, r.layers, total, true).cache, r, accepted);
  }

  lemma MarkedAfter(c: Cache, d: Cache, r: Req, accepted: seq<int>)
    requires Inv(d) && Ages(c, d) && accepted != []
    requires forall l :: l in r.layers ==>
      |ListOf(d, (r.requestId, l))| == RequiredPages(d, TotalWith(r, |accepted|))
    ensures var e := CommitMark(d, r.requestId, r.layers);
      var q := Committed(r, accepted, LayerMap(e, r.requestId, r.layers));
      Filling(c, e, q, TotalWith(q, 0))
  {
    var e := CommitMark(d, r.requestId, r.layers);
    MarkFills(c, d, Committed(r, accepted, LayerMap(e, r.requestId, r.layers)), TotalWith(r, |accepted|));
  }

  lemma AllocateAfter(c: Cache, m: Cache, r: Req, total: int)
    requires Inv(m) && Ages(c, m) && OwnShape(m, r, total) && Allocate(m, r.requestId, r.layers, total, true).Granted?
    ensures var d := Allocate(m, r.requestId, r.layers, total, true).cache;
      && Inv(d) && Ages(c, d)
      && forall l :: l in r.layers ==> |ListOf(d, (r.requestId, l))| == RequiredPages(d, total)
  {
    AllocateFills(m, r, total, true);
    AgesTrans(c, m, Allocate(m, r.requestId, r.layers, total, true).cache);
  }

  lemma CommitAndWrapLists(cfg: Config, c: Cache, r: Req, d: Decision, ids: seq<int>, width: int)
    requires Inv(c) && OwnShape(c, r, TotalWith(r, 0)) && Listed(c, r, TotalWith(r, 0))
    ensures var o := CommitAndWrap(cfg, c, r, d, ids, width);
      o.Decoded? ==> Ages(c, o.cache) && Listed(o.cache, o.req, TotalWith(o.req, 0)) && o.trace.selected == ids
  {
    if d.accepted == [] {
      WrapLists(cfg, c, r, d, ids, width);
    } else if CommitAccepted(c, r, |d.accepted|).Granted? {
      var e := CommitAccepted(c, r, |d.accepted|).cache;
      CommitFills(c, r, d.accepted);
      WrappedAfterFilling(cfg, c, e, Committed(r, d.accepted, LayerMap(e, r.requestId, r.layers)), d, ids, width);
    }
  }

  lemma AdaptKeeps(cfg: Config, c: Cache, r: Req, d: Decision)
    ensures var q := Adapt(cfg, c, r.(draft := d.proposed), d);
      SameIdentity(q, r) && q.snapshot == r.snapshot && q.committed == r.committed
  {}

  lemma ReadLists(c: Cache, r: Req, q: Req, ids: seq<int>)
    requires Inv(c) && OwnShape(c, r, TotalWith(r, 0)) && Listed(c, r, TotalWith(r, 0))
    requires SameIdentity(q, r) && q.snapshot == r.snapshot && q.committed == r.committed
    ensures var d := ReadPages(c, ids);
      Inv(d) && Ages(c, d) && OwnShape(d, q, TotalWith(q, 0)) && Listed(d, q, TotalWith(q, 0))
  {
    ReadAges(c, ids);
    SettingsKeptByRead(c, ids);
    StaysListed(c, ReadPages(c, ids), r, q, TotalWith(r, 0));
    OwnShapeShrinks(c, ReadPages(c, ids), r, TotalWith(r, 0));
  }

  /** A decode step leaves the request with exact lists, and records the pages it has read. */
  lemma ResidentLists(cfg: Config, c: Cache, r: Req)
    requires Inv(c) && Held(c, r) && Listed(c, r, TotalWith(r, 0))
    ensures var o := DecodeResident(cfg, c, r);
      o.Decoded? ==>
        Ages(c, o.cache) && Listed(o.cache, o.req, TotalWith(o.req, 0)) && o.trace.selected == DecodePages(cfg, c, r)
  {
    var ids, d := DecodePages(cfg, c, r), Decide(cfg, r);
    var c1 := ReadPages(c, ids);
    var q := Adapt(cfg, c1, r.(draft := d.proposed), d);
    AdaptKeeps(cfg, c1, r, d);
    ReadLists(c, r, q, ids);
    CommitAndWrapLists(cfg, c1, q, d, ids, BlockWidth(cfg, r));
    AgesIfDecoded(c, c1, CommitAndWrap(cfg, c1, q, d, ids, BlockWidth(cfg, r)));
  }

  lemma AgesIfDecoded(c: Cache, d: Cache, o: DecodeOutcome)
    requires Ages(c, d) && (o.Decoded? ==> Ages(d, o.cache))
    ensures o.Decoded? ==> Ages(c, o.cache)
  {
    if o.Decoded? {
      AgesTrans(c, d, o.cache);
    }
  }

  lemma DecodeLists(cfg: Config, c: Cache, r: Req)
    requires Inv(c) && NoDup(r.layers) && StillHolds(cfg, c, r) && Listed(c, r, TotalWith(r, 0))
    ensures var o := DecodeOne(cfg, c, r);
      o.Decoded? ==> Ages(c, o.cache) && Listed(o.cache, o.req, TotalWith(o.req, 0))
  {
    var r0 := r.(phase := Decode);
    assert KvPageIds(r0) == KvPageIds(r);
    FlagsAge(c, c);
    StaysListed(c, c, r, r0, TotalWith(r, 0));
    RehydrateContained(cfg, c, r0);
    if Rehydrate(c, r0).Resident? {
      var d, q := Rehydrate(c, r0).cache, Rehydrate(c, r0).req;
      RehydrateLists(c, r0);
      ResidentLists(cfg, d, q);
      AgesIfDecoded(c, d, DecodeResident(cfg, d, q));
    }
  }

  // ------------------------------------------------------------------------ whole runs

  ghost predicate HoldersListed(s: Rt)
    requires s.cache.pageSize >= 1
  {
    forall r :: r in Holders(s) && !r.finished ==> Listed(s.cache, r, TotalWith(r, 0))
  }

  ghost predicate ReadsInv(cfg: Config, s: Rt) {
    ResidencyInv(cfg, s) && (!s.stage.Raised? ==> HoldersListed(s))
  }

  lemma ListedElsewhere(c: Cache, d: Cache, r: Req, rid: int, total: int)
    requires Inv(c) && Local(c, d, rid) && r.requestId != rid && Listed(c, r, total)
    ensures Listed(d, r, total)
  {
    forall l | l in r.layers ensures MapLists(d, r.requestId, l, r.snapshot.value.layerPageMap, total) {
      var ids := r.snapshot.value.layerPageMap[l];
      assert MapLists(c, r.requestId, l, r.snapshot.value.layerPageMap, total);
      forall id | id in ids && id in d.pages ensures KeyOf(d.pages[id]) == (r.requestId, l) {
        assert id < c.nextId && id in c.pages && KeyOf(c.pages[id]) == (r.requestId, l);
      }
    }
  }

  /** Work on `x` alone leaves the lists of all others exact. */
  lemma OthersStayListed(s: Rt, n: Rt, x: Req)
    requires Inv(s.cache) && Local(s.cache, n.cache, x.requestId) && HoldersListed(s)
    requires forall q :: q in Holders(n) && q != x ==> q in Holders(s) && q.requestId != x.requestId
    requires x in Holders(n) && !x.finished ==> n.cache.pageSize >= 1 && Listed(n.cache, x, TotalWith(x, 0))
    ensures HoldersListed(n)
  {
    forall q | q in Holders(n) && !q.finished ensures Listed(n.cache, q, TotalWith(q, 0)) {
      if q != x {
        ListedElsewhere(s.cache, n.cache, q, x.requestId, TotalWith(q, 0));
      }
    }
  }

  lemma PrefillKeepsLists(cfg: Config, s: Rt)
    requires ReadsInv(cfg, s) && s.stage.Prefilling? && s.prefillQ != []
    ensures ReadsInv(cfg, AfterPrefill(s, PrefillOne(cfg, s.cache, s.prefillQ[0])))
  {
    var r, o := s.prefillQ[0], PrefillOne(cfg, s.cache, s.prefillQ[0]);
    StepPrefillKeepsResidency(cfg, s);
    HeadOwnsNothing(s);
    assert r in s.prefillQ && Unstarted(r);
    if o.Prefilled? {
      PrefillTokens(cfg, s.cache, r);
      PrefillLists(cfg, s.cache, r);
      OthersStayListed(s, AfterPrefill(s, o), o.req);
    }
  }

  lemma DecodeKeepsLists(cfg: Config, s: Rt)
    requires ReadsInv(cfg, s) && s.stage.Decoding? && s.stage.slots > 0 && s.decodeQ != []
    ensures ReadsInv(cfg, AfterDecode(s, DecodeOne(cfg, s.cache, s.decodeQ[0])))
  {
    var r, o := s.decodeQ[0], DecodeOne(cfg, s.cache, s.decodeQ[0]);
    StepDecodeKeepsResidency(cfg, s);
    assert r in Ready(s) && r in Holders(s) && HolderOk(cfg, s.cache, r);
    if o.Decoded? {
      DecodeLists(cfg, s.cache, r);
      DecodedStayListed(cfg, s, o);
    }
  }

  lemma DecodedStayListed(cfg: Config, s: Rt, o: DecodeOutcome)
    requires ReadsInv(cfg, s) && s.stage.Decoding? && s.stage.slots > 0 && s.decodeQ != []
    requires o.Decoded? && AfterOk(cfg, s.cache, o, s.decodeQ[0])
    requires Ages(s.cache, o.cache) && Listed(o.cache, o.req, TotalWith(o.req, 0))
    ensures HoldersListed(AfterDecode(s, o))
  {
    var r, n := s.decodeQ[0], AfterDecode(s, o);
    BatchSnoc(s.batch, o.req, o.trace);
    assert s.decodeQ == [r] + s.decodeQ[1..];
    forall q | q in Holders(n) && q != o.req ensures q in Holders(s) && q.requestId != r.requestId {
      DecodeHeadElsewhere(s, q);
    }
    OthersStayListed(s, n, o.req);
  }

  lemma SettleKeepsLists(cfg: Config, s: Rt)
    requires ReadsInv(cfg, s) && s.stage.Settling? && s.batch != []
    ensures ReadsInv(cfg, AfterSettle(s))
  {
    var r, n := s.batch[0].0, AfterSettle(s);
    StepSettleKeepsResidency(cfg, s);
    BatchHead(s.batch);
    PushMember(s.decodeQ, r);
    var b := BatchReqs(s.batch);
    assert b == [r] + b[1..];
    ReleaseLocal(s.cache, r.requestId);
    forall q | q in Holders(n) && q != r ensures q in Holders(s) && q.requestId != r.requestId {
      BatchHeadElsewhere(s, q);
    }
    if r.finished {
      forall q | q in s.prefilled || q in s.decodeQ || q in b[1..] ensures q != r {
        BatchHeadElsewhere(s, q);
      }
    }
    OthersStayListed(s, n, r);
  }

  lemma EnqueueKeepsLists(cfg: Config, s: Rt)
    requires ReadsInv(cfg, s) && s.stage.Enqueuing? && s.prefilled != []
    ensures ReadsInv(cfg, AfterEnqueue(s))
  {
    EnqueueKeepsResidency(cfg, s);
    PushMember(s.decodeQ, s.prefilled[0]);
    assert s.prefilled == [s.prefilled[0]] + s.prefilled[1..];
    assert forall q :: q in Holders(AfterEnqueue(s)) <==> q in Holders(s);
  }

  lemma StageMoveKeepsLists(cfg: Config, s: Rt, stage: Stage)
    requires ReadsInv(cfg, s) && !s.stage.Raised?
    ensures ReadsInv(cfg, s.(stage := stage))
  {
    StageMoveKeepsResidency(cfg, s, stage);
    assert Holders(s.(stage := stage)) == Holders(s);
  }

  lemma StepKeepsLists(cfg: Config, s: Rt)
    requires s.cache.pageSize >= 1 && ReadsInv(cfg, s)
    ensures ReadsInv(cfg, Step(cfg, s))
  {
    if s.stage.Prefilling? && s.prefillQ != [] {
      PrefillKeepsLists(cfg, s);
    } else if s.stage.Enqueuing? && s.prefilled != [] {
      EnqueueKeepsLists(cfg, s);
    } else if s.stage.Decoding? && s.stage.slots > 0 && s.decodeQ != [] {
      StepIsDecode(cfg, s);
      DecodeKeepsLists(cfg, s);
    } else if s.stage.Settling? && s.batch != [] {
      SettleKeepsLists(cfg, s);
    } else if !s.stage.Raised? {
      StageMoveKeepsLists(cfg, s, Step(cfg, s).stage);
    }
  }

  lemma RunKeepsLists(cfg: Config, c: Cache, q: seq<Req>, k: nat)
    requires FreshCache(c) && NoDup(IdsOf(q)) && forall r :: r in q ==> Unstarted(r)
    ensures ReadsInv(cfg, Iterate(cfg, Initial(c, q), k))
  {
    var s := Initial(c, q);
    InitialResidency(cfg, c, q);
    assert Holders(s) == [] by { assert BatchReqs(s.batch) == []; }
    forall t: Rt | t.cache.pageSize >= 1 && ReadsInv(cfg, t) ensures ReadsInv(cfg, Step(cfg, t)) {
      StepKeepsLists(cfg, t);
    }
    RunKeeps(cfg, (t: Rt) => ReadsInv(cfg, t), s, k);
  }

  /** Live pages of the request on layer `l`, just enough for `total` tokens. */
  ghost predicate Covers(c: Cache, rid: int, l: int, ids: seq<int>, total: int) {
    && NoDup(ids) && PagesCover(|ids|, c.pageSize, total)
    && forall id :: id in ids ==> id in c.pages && KeyOf(c.pages[id]) == (rid, l)
  }

  /** The read pages `ids` are, layer by layer, live pages for all of the request's tokens. */
  ghost predicate CoversAll(c: Cache, r: Req, ids: seq<int>) {
    && r.snapshot.Some? && ids == FlattenMap(r.snapshot.value.layerPageMap, r.layers)
    && forall l :: l in r.layers ==>
         Covers(c, r.requestId, l, MapGet(r.snapshot.value.layerPageMap, l), |r.prompt| + |r.committed|)
  }

  lemma ListedCovers(c: Cache, r: Req)
    requires c.pageSize >= 1 && Listed(c, r, TotalWith(r, 0)) && HasSnapshot(c, r)
    ensures CoversAll(c, r, KvPageIds(r))
  {
    var m := r.snapshot.value.layerPageMap;
    forall l | l in r.layers ensures Covers(c, r.requestId, l, MapGet(m, l), |r.prompt| + |r.committed|) {
      assert MapLists(c, r.requestId, l, m, TotalWith(r, 0));
      RequiredCovers(c, TotalWith(r, 0));
      forall id | id in MapGet(m, l) ensures id in c.pages {
        FlattenMember(m, r.layers, id);
      }
    }
  }

  /**
   In every reachable state, without sparse selection: a decode step that goes through
   reads, on every layer of its request, live pages for exactly the prompt and committed
   tokens, and its trace records them.
   */
  lemma DecodeReadsAll(cfg: Config, c: Cache, q: seq<Req>, k: nat)
    requires FreshCache(c) && NoDup(IdsOf(q)) && (forall r :: r in q ==> Unstarted(r)) && cfg.sparseTopK.None?
    ensures var s := Iterate(cfg, Initial(c, q), k);
      s.stage.Decoding? && s.decodeQ != [] && DecodeOne(cfg, s.cache, s.decodeQ[0]).Decoded? ==>
        var r := s.decodeQ[0];
        var x := Rehydrate(s.cache, r.(phase := Decode));
        && x.Resident? && SameIdentity(x.req, r) && x.req.committed == r.committed
        && CoversAll(x.cache, x.req, DecodeOne(cfg, s.cache, r).trace.selected)
  {
    RunKeepsLists(cfg, c, q, k);
    var s := Iterate(cfg, Initial(c, q), k);
    if s.stage.Decoding? && s.decodeQ != [] && DecodeOne(cfg, s.cache, s.decodeQ[0]).Decoded? {
      var r := s.decodeQ[0];
      assert r in Ready(s) && r in Holders(s) && HolderOk(cfg, s.cache, r);
      DecodeReads(cfg, s.cache, r);
    }
  }

  lemma DecodeReads(cfg: Config, c: Cache, r: Req)
    requires Inv(c) && NoDup(r.layers) && StillHolds(cfg, c, r) && Listed(c, r, TotalWith(r, 0))
    requires cfg.sparseTopK.None? && DecodeOne(cfg, c, r).Decoded?
    ensures var x := Rehydrate(c, r.(phase := Decode));
      && x.Resident? && SameIdentity(x.req, r) && x.req.committed == r.committed
      && CoversAll(x.cache, x.req, DecodeOne(cfg, c, r).trace.selected)
  {
    DecodeIsResident(cfg, c, r);
    ResidentIsReady(cfg, c, r);
    var x := Rehydrate(c, r.(phase := Decode));
    ResidentReads(cfg, x.cache, x.req, DecodeOne(cfg, c, r));
  }

  lemma DecodeIsResident(cfg: Config, c: Cache, r: Req)
    requires c.pageSize >= 1
    ensures var x := Rehydrate(c, r.(phase := Decode));
      && (DecodeOne(cfg, c, r).Decoded? ==> x.Resident?)
      && (x.Resident? ==> x.cache.pageSize >= 1 && DecodeOne(cfg, c, r) == DecodeResident(cfg, x.cache, x.req))
  {
    SettingsKeptByRehydrate(c, r.(phase := Decode));
  }

  lemma ResidentIsReady(cfg: Config, c: Cache, r: Req)
    requires Inv(c) && NoDup(r.layers) && StillHolds(cfg, c, r) && Listed(c, r, TotalWith(r, 0))
    ensures var x := Rehydrate(c, r.(phase := Decode));
      x.Resident? ==>
        && SameIdentity(x.req, r) && x.req.committed == r.committed
        && Inv(x.cache) && Held(x.cache, x.req) && HasSnapshot(x.cache, x.req)
        && Listed(x.cache, x.req, TotalWith(x.req, 0))
  {
    var r0 := r.(phase := Decode);
    assert KvPageIds(r0) == KvPageIds(r);
    FlagsAge(c, c);
    StaysListed(c, c, r, r0, TotalWith(r, 0));
    RehydrateContained(cfg, c, r0);
    if Rehydrate(c, r0).Resident? {
      RehydrateLists(c, r0);
    }
  }

  lemma ResidentReads(cfg: Config, c: Cache, r: Req, o: DecodeOutcome)
    requires Inv(c) && Held(c, r) && HasSnapshot(c, r) && Listed(c, r, TotalWith(r, 0)) && cfg.sparseTopK.None?
    requires o == DecodeResident(cfg, c, r) && o.Decoded?
    ensures CoversAll(c, r, o.trace.selected)
  {
    ResidentLists(cfg, c, r);
    ListedCovers(c, r);
  }
}
