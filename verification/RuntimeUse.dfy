/** What a decode step does to the pages it reads: they outlive it, become the most recently used, and end unpinned. */
module RuntimeUse {
  import opened Sequences
  import opened KvCacheModel
  import opened KvAllocation
  import opened KvLaws
  import opened KvRecency
  import opened Requests
  import opened RuntimeModel

  /** The pages in `read` are live and pinned; no page in `others` has been used since. */
  ghost predicate InUse(d: Cache, read: set<int>, others: set<int>) {
    && Inv(d)
    && (forall b :: b in read ==> b in d.pages && d.pages[b].pinned)
    && (forall a :: a in others ==> a < d.nextId)
    && (forall a, b :: a in others && a in d.pages && b in read ==> Older(d, a, b))
  }

  /** The live pages in a list. */
  ghost function LiveOf(c: Cache, ids: seq<int>): set<int> { set id | id in c.pages && id in ids }

  lemma ReadInUse(c: Cache, ids: seq<int>)
    requires Inv(c)
    ensures InUse(ReadPages(c, ids), LiveOf(c, ids), c.pages.Keys - LiveOf(c, ids))
  {
    var p := SetPinned(c, ids, true);
    SetPinnedInv(c, ids, true);
    TouchInv(p, ids);
    InvFreshIds(c);
    forall a, b | a in c.pages.Keys - LiveOf(c, ids) && b in LiveOf(c, ids) ensures Older(ReadPages(c, ids), a, b) {
      TouchOrder(p, ids, a, b);
      NeverUsed(ids, a, b);
    }
  }

  lemma {:induction false} BeforeKept(s: seq<int>, d: set<int>, a: int, b: int)
    requires Before(s, a, b) && a !in d && b !in d
    ensures Before(Without(s, d), a, b)
  {
    if s != [] {
      var k := |s| - 1;
      assert s == s[..k] + [s[k]];
      BeforeSnoc(s[..k], s[k], a, b);
      if Before(s[..k], a, b) {
        BeforeKept(s[..k], d, a, b);
      }
      WithoutMember(s[..k], d);
      BeforeSnoc(Without(s[..k], d), s[k], a, b);
    }
  }

  lemma EvictInUse(c: Cache, n: int, read: set<int>, others: set<int>)
    requires InUse(c, read, others)
    ensures InUse(Evict(c, n), read, others)
  {
    var d, v := Evict(c, n), Elems(Victims(c, n));
    VictimsFacts(c, n);
    EvictInv(c, n);
    forall a, b | a in others && a in d.pages && b in read ensures Older(d, a, b) {
      assert Older(c, a, b) && Before(c.lru, a, b);
      BeforeKept(c.lru, v, a, b);
    }
  }

  lemma GrownInUse(c: Cache, d: Cache, rid: int, layers: seq<int>, pin: bool, read: set<int>, others: set<int>)
    requires InUse(c, read, others) && Inv(d) && Grown(c, d, rid, layers, pin)
    ensures InUse(d, read, others)
  {
    forall a, b | a in others && a in d.pages && b in read ensures Older(d, a, b) {
      assert Older(c, a, b);
      var i, j :| 0 <= i < j < |c.lru| && c.lru[i] == a && c.lru[j] == b;
      assert d.lru[i] == a && d.lru[j] == b;
    }
  }

  lemma AllocateInUse(c: Cache, rid: int, layers: seq<int>, total: int, read: set<int>, others: set<int>)
    requires InUse(c, read, others) && Allocate(c, rid, layers, total, true).Granted?
    ensures InUse(Allocate(c, rid, layers, total, true).cache, read, others)
  {
    var m := Room(c, rid, layers, total);
    AllocateViaRoom(c, rid, layers, total, true);
    EvictInUse(c, Deficit(c, rid, layers, total), read, others);
    AllocLayersFacts(m, rid, layers, total, true);
    GrownInUse(m, AllocLayers(m, rid, layers, total, true), rid, layers, true, read, others);
  }

  lemma MarkInUse(c: Cache, rid: int, layers: seq<int>, read: set<int>, others: set<int>)
    requires InUse(c, read, others)
    ensures InUse(CommitMark(c, rid, layers), read, others)
  {
    var d := CommitMark(c, rid, layers);
    MarkOwnedInv(c, rid, layers, CommitPage);
    forall a, b | a in others && a in d.pages && b in read ensures Older(d, a, b) {
      assert Older(c, a, b);
    }
  }

  lemma CommitInUse(c: Cache, r: Req, n: int, read: set<int>, others: set<int>)
    requires InUse(c, read, others) && CommitAccepted(c, r, n).Granted?
    ensures InUse(CommitAccepted(c, r, n).cache, read, others)
  {
    var rid, total := r.requestId, TotalWith(r, n);
    var m := MakeSpace(c, rid, r.layers, total);
    EvictInUse(c, Needed(c, rid, r.layers, total), read, others);
    AllocateInUse(m, rid, r.layers, total, read, others);
    MarkInUse(Allocate(m, rid, r.layers, total, true).cache, rid, r.layers, read, others);
  }

  /** How a decode step that read the pages in `read` leaves them. */
  ghost predicate LeftBehind(cfg: Config, o: DecodeOutcome, read: set<int>, others: set<int>) {
    && (forall b :: b in read ==> b in o.cache.pages)
    && (forall a, b :: a in others && a in o.cache.pages && b in read ==> Older(o.cache, a, b))
    && (o.req.phase == Finished ==>
          forall b :: b in o.cache.pages && b in KvPageIds(o.req) ==> !o.cache.pages[b].pinned)
    && (o.req.phase != Finished ==> forall b :: b in read ==> (o.cache.pages[b].pinned <==> cfg.pinReady))
  }

  lemma WrapLeaves(cfg: Config, c: Cache, r: Req, d: Decision, ids: seq<int>, width: int, read: set<int>,
                   others: set<int>)
    requires InUse(c, read, others) && forall b :: b in read ==> b in ids
    ensures LeftBehind(cfg, Wrap(cfg, c, r, d, ids, width), read, others)
  {
    var o := Wrap(cfg, c, r, d, ids, width);
    forall a, b | a in others && a in o.cache.pages && b in read ensures Older(o.cache, a, b) {
      assert Older(c, a, b);
    }
  }

  lemma CommitLeaves(cfg: Config, c: Cache, r: Req, d: Decision, ids: seq<int>, width: int, read: set<int>,
                     others: set<int>)
    requires InUse(c, read, others) && forall b :: b in read ==> b in ids
    ensures var o := CommitAndWrap(cfg, c, r, d, ids, width); o.Decoded? ==> LeftBehind(cfg, o, read, others)
  {
    if d.accepted == [] {
      WrapLeaves(cfg, c, r, d, ids, width, read, others);
    } else if CommitAccepted(c, r, |d.accepted|).Granted? {
      var e := CommitAccepted(c, r, |d.accepted|).cache;
      CommitInUse(c, r, |d.accepted|, read, others);
      WrapLeaves(cfg, e, Committed(r, d.accepted, LayerMap(e, r.requestId, r.layers)), d, ids, width, read, others);
    }
  }

  /**
   The pages a decode step reads are never evicted by that step, and end up more recently
   used than every other page that was there before it. When the request finishes, none
   of its pages stays pinned; when it goes on, those it read stay pinned exactly if the
   runtime keeps ready requests pinned.
   */
  lemma StepKeepsWhatItReads(cfg: Config, c: Cache, r: Req)
    requires Inv(c) && DecodeResident(cfg, c, r).Decoded?
    ensures var o, ids := DecodeResident(cfg, c, r), DecodePages(cfg, c, r);
      LeftBehind(cfg, o, LiveOf(c, ids), c.pages.Keys - LiveOf(c, ids))
  {
    var ids, d := DecodePages(cfg, c, r), Decide(cfg, r);
    var c1 := ReadPages(c, ids);
    ReadInUse(c, ids);
    SettingsKeptByRead(c, ids);
    CommitLeaves(cfg, c1, Adapt(cfg, c1, r.(draft := d.proposed), d), d, ids, BlockWidth(cfg, r),
                 LiveOf(c, ids), c.pages.Keys - LiveOf(c, ids));
  }

  /**
   Prefill leaves the pages it lists in the snapshot live and more recently used than all
   others, and those it has allocated pinned exactly if ready requests are kept pinned.
   */
  lemma PrefillUsesItsPages(cfg: Config, c: Cache, r: Req, a: int, b: int)
    requires Inv(c) && PrefillOne(cfg, c, r).Prefilled? && b in KvPageIds(PrefillOne(cfg, c, r).req)
    ensures var o := PrefillOne(cfg, c, r);
      && o.req.phase == ReadyDecode && b in o.cache.pages && o.cache.pages[b].requestId == r.requestId
      && (a in o.cache.pages && a !in KvPageIds(o.req) ==> Older(o.cache, a, b))
      && (b !in c.pages ==> (o.cache.pages[b].pinned <==> cfg.pinReady))
  {
    var d := Allocate(c, r.requestId, r.layers, |r.prompt|, cfg.pinReady).cache;
    AllocatedForPrefill(cfg, c, r, d);
    ListedAndUsed(d, r, a, b);
  }

  lemma AllocatedForPrefill(cfg: Config, c: Cache, r: Req, d: Cache)
    requires Inv(c) && Allocate(c, r.requestId, r.layers, |r.prompt|, cfg.pinReady) == Granted(d)
    ensures Inv(d) && forall b :: b in d.pages && b !in c.pages ==> d.pages[b].pinned == cfg.pinReady
  {
    var m := Room(c, r.requestId, r.layers, |r.prompt|);
    AllocateViaRoom(c, r.requestId, r.layers, |r.prompt|, cfg.pinReady);
    EvictInv(c, Deficit(c, r.requestId, r.layers, |r.prompt|));
    AllocLayersFacts(m, r.requestId, r.layers, |r.prompt|, cfg.pinReady);
    assert forall b :: b in m.pages ==> b in c.pages;
  }

  lemma ListedAndUsed(d: Cache, r: Req, a: int, b: int)
    requires Inv(d)
    ensures var ids := FlattenMap(LayerMap(d, r.requestId, r.layers), r.layers);
      var t := Touch(d, ids);
      b in ids ==>
        && t.pages == d.pages && b in d.pages && d.pages[b].requestId == r.requestId
        && (a in d.pages && a !in ids ==> Older(t, a, b))
  {
    var m := LayerMap(d, r.requestId, r.layers);
    var ids := FlattenMap(m, r.layers);
    TouchInv(d, ids);
    if b in ids {
      FlattenMember(m, r.layers, b);
      var l :| l in r.layers && b in MapGet(m, l);
      ListOfFacts(d, (r.requestId, l));
      if a in d.pages && a !in ids {
        TouchOrder(d, ids, a, b);
        NeverUsed(ids, a, b);
      }
    }
  }
}
