/**
 Why the page bound needs pinned pages: with sparse selection and ready requests
 unpinned, a request's second decode step evicts pages it then allocates again, and
 the cache ends above its bound.
 */
module SparseOverrun {
  import opened Arithmetic
  import opened Sequences
  import opened KvCacheModel
  import opened KvAllocation
  import opened KvLaws
  import opened Requests
  import opened RuntimeModel
  import opened BlockWalk
  import opened RuntimeTokens
  import opened RuntimeResidency
  import opened RuntimeCapacity
  import opened SparseSelector

  /** One request on one layer with a page a token, and room for its prompt and one token. */
  ghost predicate Tight(cfg: Config, c: Cache, r: Req) {
    && cfg.adaptive.None? && cfg.blockSize == 1 && cfg.decodeWorkers >= 1 && !cfg.pinReady
    && cfg.sparseTopK.Some? && 1 <= cfg.sparseTopK.value < |r.prompt|
    && FreshCache(c) && c.pageSize == 1 && c.maxPages == |r.prompt| + 1
    && Unstarted(r) && |r.layers| == 1 && Goal(r) >= 3 && r.target[0] != r.eos
  }

  lemma PageEach(c: Cache, n: nat)
    requires c.pageSize == 1
    ensures RequiredPages(c, n) == n
  {
    if n > 0 {
      CeilDivUnique(n, 1, n);
    }
  }

  lemma OneLayer(c: Cache, r: Req, n: nat)
    requires c.pageSize == 1 && |r.layers| == 1
    ensures PagesFor(c, r, n) == n
  {
    PageEach(c, n);
    assert Times(n, 1) == Times(n, 0) + n;
  }

  /** All pages are the request's, on its one layer. */
  ghost predicate AllOwn(c: Cache, r: Req) {
    |r.layers| == 1 && forall id :: id in c.pages ==> KeyOf(c.pages[id]) == (r.requestId, r.layers[0])
  }

  /** The request has been prefilled into the empty cache. */
  ghost predicate Prompted(c: Cache, r: Req) {
    && Inv(c) && c.pageSize == 1 && c.maxPages == |r.prompt| + 1 && |c.pages| == |r.prompt|
    && AllOwn(c, r) && Exact(c, r, |r.prompt|)
    && forall id :: id in c.pages ==> !c.pages[id].pinned && !c.pages[id].isCommitted
  }

  lemma PrefillFills(cfg: Config, c: Cache, r: Req)
    requires Tight(cfg, c, r)
    ensures var o := PrefillOne(cfg, c, r);
      && o.Prefilled? && Prompted(o.cache, o.req) && SameIdentity(o.req, r)
      && o.req.committed == [] && !o.req.finished
  {
    var o := PrefillOne(cfg, c, r);
    OneLayer(c, r, |r.prompt|);
    PrefillWithRoom(cfg, c, r);
    PrefillTokens(cfg, c, r);
    PrefillFlags(cfg, c, r);
    PromptedFrom(c, r, o.cache, o.req);
  }

  lemma PromptedFrom(c: Cache, r: Req, d: Cache, q: Req)
    requires FreshCache(c) && c.pageSize == 1 && c.maxPages == |r.prompt| + 1 && q.committed == []
    requires Roomy(c, d, r, q, 0) && AllOwn(d, r)
    requires forall id :: id in d.pages ==> !d.pages[id].pinned && !d.pages[id].isCommitted
    ensures Prompted(d, q)
  {
    OneLayer(c, q, |q.prompt|);
  }

  lemma PrefillFlags(cfg: Config, c: Cache, r: Req)
    requires FreshCache(c) && NoDup(r.layers) && |r.layers| == 1 && !cfg.pinReady && PrefillOne(cfg, c, r).Prefilled?
    ensures var d := PrefillOne(cfg, c, r).cache;
      AllOwn(d, r) && forall id :: id in d.pages ==> !d.pages[id].pinned && !d.pages[id].isCommitted
  {
    var o, d := PrefillOne(cfg, c, r), Allocate(c, r.requestId, r.layers, |r.prompt|, false).cache;
    var m := Room(c, r.requestId, r.layers, |r.prompt|);
    RoomSize(c, r.requestId, r.layers, |r.prompt|);
    AllocateViaRoom(c, r.requestId, r.layers, |r.prompt|, false);
    AllocLayersFacts(m, r.requestId, r.layers, |r.prompt|, false);
    TouchInv(d, FlattenMap(LayerMap(d, r.requestId, r.layers), r.layers));
    forall id | id in d.pages
      ensures KeyOf(d.pages[id]) == (r.requestId, r.layers[0]) && !d.pages[id].pinned && !d.pages[id].isCommitted
    {
      assert FreshPage(d.pages[id], r.requestId, r.layers, false);
    }
  }

  // --------------------------------------------------------------- the first decode step

  /** Without committed pages nothing is selected, and all pages are read. */
  lemma ReadsAll(cfg: Config, c: Cache, r: Req)
    requires forall id :: id in c.pages ==> !c.pages[id].isCommitted
    ensures DecodePages(cfg, c, r) == KvPageIds(r)
  {
    WithinNone(c.lru, ActiveIds(c, r.requestId));
  }

  /** A commit with room enough allocates, marks, and evicts nothing. */
  lemma RoomyCommit(c: Cache, r: Req, n: nat)
    requires Inv(c) && NoDup(r.layers)
    requires |c.pages| + Needed(c, r.requestId, r.layers, TotalWith(r, n)) <= c.maxPages
    ensures CommitAccepted(c, r, n) == Granted(CommitMark(
              AllocLayers(c, r.requestId, r.layers, TotalWith(r, n), true), r.requestId, r.layers))
  {
    assert Deficit(c, r.requestId, r.layers, TotalWith(r, n)) == 0;
  }

  /** After a commit that evicts nothing the old own pages are live and committed; unpinning releases those listed. */
  lemma CommittedFlags(c: Cache, r: Req, n: nat, ids: seq<int>, id: int)
    requires Inv(c) && NoDup(r.layers) && id in c.pages && Owned(c.pages[id], r.requestId, r.layers) && id in ids
    ensures var e := CommitMark(AllocLayers(c, r.requestId, r.layers, TotalWith(r, n), true), r.requestId, r.layers);
      var f := SetPinned(e, ids, false);
      id in f.pages && !f.pages[id].pinned && f.pages[id].isCommitted && !f.pages[id].isDraft
      && f.pages[id].requestId == r.requestId
  {
    AllocLayersFacts(c, r.requestId, r.layers, TotalWith(r, n), true);
  }

  /** A resident request goes straight to reading its pages and committing. */
  lemma DecodeUnfolds(cfg: Config, c: Cache, r: Req)
    requires cfg.adaptive.None? && c.pageSize >= 1 && HasSnapshot(c, r)
    ensures var r0 := r.(phase := Decode);
      var ids, d := DecodePages(cfg, c, r0), Decide(cfg, r0);
      ReadPages(c, ids).pageSize >= 1 && DecodeOne(cfg, c, r)
        == CommitAndWrap(cfg, ReadPages(c, ids), r0.(draft := d.proposed), d, ids, BlockWidth(cfg, r0))
  {
    var r0 := r.(phase := Decode);
    assert Rehydrate(c, r0) == Resident(c, r0);
    SettingsKeptByRead(c, DecodePages(cfg, c, r0));
  }

  /** With room, a first token that is no EOS is committed, and the pages read are unpinned. */
  lemma OneTokenCommit(cfg: Config, c: Cache, r: Req, d: Decision, ids: seq<int>, width: int)
    requires !cfg.pinReady && Inv(c) && NoDup(r.layers) && r.committed == [] && Goal(r) >= 3
    requires |d.accepted| == 1 && d.accepted[0] != r.eos
    requires |c.pages| + Needed(c, r.requestId, r.layers, TotalWith(r, 1)) <= c.maxPages
    ensures CommitAndWrap(cfg, c, r, d, ids, width).cache == SetPinned(CommitMark(
              AllocLayers(c, r.requestId, r.layers, TotalWith(r, 1), true), r.requestId, r.layers), ids, false)
  {
    RoomyCommit(c, r, 1);
    var a := CommitAccepted(c, r, 1);
    assert !Finishes(Committed(r, d.accepted, LayerMap(a.cache, r.requestId, r.layers)), d);
  }

  /** The first decode step reads all pages, commits one token, and unpins what it has read. */
  lemma FirstDecodeIs(cfg: Config, c: Cache, r: Req, c1: Cache, r1: Req)
    requires cfg.adaptive.None? && !cfg.pinReady && c.pageSize >= 1 && HasSnapshot(c, r) && NoDup(r.layers)
    requires r.committed == [] && Goal(r) >= 3 && DecodePages(cfg, c, r.(phase := Decode)) == KvPageIds(r)
    requires |Decide(cfg, r).accepted| == 1 && Decide(cfg, r).accepted[0] != r.eos
    requires c1 == ReadPages(c, KvPageIds(r)) && r1 == r.(phase := Decode, draft := Decide(cfg, r).proposed)
    requires Inv(c1) && |c1.pages| + Needed(c1, r.requestId, r.layers, TotalWith(r1, 1)) <= c1.maxPages
    ensures DecodeOne(cfg, c, r).cache == SetPinned(CommitMark(
              AllocLayers(c1, r.requestId, r.layers, TotalWith(r1, 1), true), r.requestId, r.layers),
              KvPageIds(r), false)
  {
    DecideSame(cfg, r, r.(phase := Decode));
    DecodeUnfolds(cfg, c, r);
    OneTokenCommit(cfg, c1, r1, Decide(cfg, r), KvPageIds(r), BlockWidth(cfg, r));
  }

  /** Where the first decode step leaves the old pages: committed, and none of them pinned. */
  lemma FirstDecodeFlags(cfg: Config, c: Cache, r: Req, id: int)
    requires cfg.adaptive.None? && !cfg.pinReady && Prompted(c, r) && r.committed == [] && NoDup(r.layers)
    requires |Decide(cfg, r).accepted| == 1 && Goal(r) >= 3 && Decide(cfg, r).accepted[0] != r.eos && id in c.pages
    ensures var d := DecodeOne(cfg, c, r).cache;
      id in d.pages && !d.pages[id].pinned && id in ActiveIds(d, r.requestId)
  {
    var c1, r1 := ReadPages(c, KvPageIds(r)), r.(phase := Decode, draft := Decide(cfg, r).proposed);
    ReadsAll(cfg, c, r.(phase := Decode));
    ReadsInRoom(c, r1, KvPageIds(r));
    FirstDecodeIs(cfg, c, r, c1, r1);
    TouchInv(SetPinned(c, KvPageIds(r), true), KvPageIds(r)) by { SetPinnedInv(c, KvPageIds(r), true); }
    assert KeyOf(c.pages[id]) == (r.requestId, r.layers[0]) && id in KvPageIds(r);
    assert c1.pages[id].requestId == c.pages[id].requestId && c1.pages[id].layerId == c.pages[id].layerId;
    CommittedFlags(c1, r1, 1, KvPageIds(r), id);
  }

  /** Pinning and touching leaves room for one more token. */
  lemma ReadsInRoom(c: Cache, r: Req, ids: seq<int>)
    requires Prompted(c, r) && r.committed == []
    ensures var d := ReadPages(c, ids);
      && Inv(d) && d.pages == SetPinned(c, ids, true).pages
      && |d.pages| + Needed(d, r.requestId, r.layers, TotalWith(r, 1)) <= d.maxPages
  {
    var p, d := SetPinned(c, ids, true), ReadPages(c, ids);
    SetPinnedInv(c, ids, true);
    TouchInv(p, ids);
    ReadReflags(c, ids);
    ReflaggedGains(c, d, r.requestId);
    PageEach(d, |r.prompt|);
    PageEach(d, |r.prompt| + 1);
    PageEach(c, |r.prompt|);
    NeededEven(d, r.requestId, r.layers, |r.prompt| + 1, |r.prompt|);
    assert Times(1, 1) == Times(1, 0) + 1;
  }

  /** The cache is full of the request's pages; all but at most one are committed and unpinned. */
  ghost predicate Full(c: Cache, r: Req) {
    && Inv(c) && c.pageSize == 1 && c.maxPages == |r.prompt| + 1 == |c.pages|
    && AllOwn(c, r) && HasSnapshot(c, r) && |r.committed| == 1 && !r.finished
    && |Unpinned(c) * ActiveIds(c, r.requestId)| >= |r.prompt|
  }

  /** With one token more the cache is full. */
  lemma OneMoreFills(c: Cache, r: Req, d: Cache, q: Req)
    requires c.pageSize == 1 && |c.pages| == |r.prompt| && AllOwn(c, r) && r.committed == []
    requires Roomy(c, d, r, q, PagesFor(c, r, TotalWith(r, 0)))
    ensures Inv(d) && SameSettings(c, d) && HasSnapshot(d, q) && AllOwn(d, q)
    ensures |q.committed| == 1 ==> |d.pages| == |r.prompt| + 1
  {
    OneLayer(c, r, |r.prompt|);
    OneLayer(c, q, |r.prompt| + 1);
    StillOwn(c, r, d, q);
  }

  lemma StillOwn(c: Cache, r: Req, d: Cache, q: Req)
    requires AllOwn(c, r) && SameIdentity(q, r) && Gained(c, d, r.requestId)
    requires forall id :: id in d.pages && d.pages[id].requestId == q.requestId ==> d.pages[id].layerId in q.layers
    ensures AllOwn(d, q)
  {
    forall id | id in d.pages ensures KeyOf(d.pages[id]) == (r.requestId, r.layers[0]) {
      assert id in c.pages ==> KeyOf(c.pages[id]) == (r.requestId, r.layers[0]);
    }
  }

  lemma FirstDecodePages(cfg: Config, c: Cache, r: Req)
    requires Prompted(c, r) && NoDup(r.layers) && r.committed == [] && |Decide(cfg, r).accepted| == 1
    ensures var o := DecodeOne(cfg, c, r);
      && o.Decoded? && SameIdentity(o.req, r) && Roomy(c, o.cache, r, o.req, PagesFor(c, r, TotalWith(r, 0)))
  {
    OneLayer(c, r, |r.prompt|);
    OneLayer(c, r, |r.prompt| + 1);
    DecodeWithRoom(cfg, c, r);
  }

  lemma FirstDecode(cfg: Config, c: Cache, r: Req)
    requires cfg.adaptive.None? && cfg.blockSize == 1 && !cfg.pinReady && Prompted(c, r) && NoDup(r.layers)
    requires r.committed == [] && !r.finished && Goal(r) >= 3 && r.target[0] != r.eos
    ensures var o := DecodeOne(cfg, c, r); o.Decoded? && SameIdentity(o.req, r) && Full(o.cache, o.req)
  {
    var o := DecodeOne(cfg, c, r);
    DecideAdvances(cfg, r);
    assert Decide(cfg, r).accepted == [r.target[0]];
    FirstDecodePages(cfg, c, r);
    OneMoreFills(c, r, o.cache, o.req);
    DecodeTokens(cfg, c, r);
    FirstDecodeFree(cfg, c, r);
  }

  /** As many pages are committed and unpinned as there were before. */
  lemma FirstDecodeFree(cfg: Config, c: Cache, r: Req)
    requires cfg.adaptive.None? && !cfg.pinReady && Prompted(c, r) && r.committed == [] && NoDup(r.layers)
    requires |Decide(cfg, r).accepted| == 1 && Goal(r) >= 3 && Decide(cfg, r).accepted[0] != r.eos
    ensures var d := DecodeOne(cfg, c, r).cache; |Unpinned(d) * ActiveIds(d, r.requestId)| >= |r.prompt|
  {
    var d := DecodeOne(cfg, c, r).cache;
    var free := Unpinned(d) * ActiveIds(d, r.requestId);
    forall id | id in c.pages ensures id in free {
      FirstDecodeFlags(cfg, c, r, id);
    }
    assert |c.pages| == |c.pages.Keys|;
    SubsetSize(c.pages.Keys, free);
  }

  // -------------------------------------------------------------- the second decode step

  /** Fewer pages are selected than are committed and unpinned: one of these stays unpinned. */
  lemma OneStaysUnpinned(cfg: Config, c: Cache, r: Req) returns (x: int)
    requires cfg.sparseTopK.Some? && 1 <= cfg.sparseTopK.value < |r.prompt| && Full(c, r)
    ensures x in Unpinned(c) && x !in DecodePages(cfg, c, r)
  {
    var ids, free := SelectSparse(c, r, cfg.sparseTopK.value), Unpinned(c) * ActiveIds(c, r.requestId);
    SelectedPagesAreBest(c, r, cfg.sparseTopK.value, 0, 0);
    SubsetSize(free, ActiveIds(c, r.requestId));
    assert DecodePages(cfg, c, r) == ids;
    NoDupSize(ids);
    if forall y :: y in free ==> y in Elems(ids) {
      SubsetSize(free, Elems(ids));
      assert false;
    }
    x :| x in free && x !in Elems(ids);
    assert x !in ids;
  }

  /** From a full cache with an own unpinned page, one more token is granted and passes the bound. */
  lemma FullCommitOvershoots(c: Cache, r: Req, x: int)
    requires Inv(c) && c.pageSize == 1 && AllOwn(c, r) && |c.pages| == c.maxPages && x in Unpinned(c)
    requires TotalWith(r, 1) == c.maxPages + 1
    ensures var a := CommitAccepted(c, r, 1); a.Granted? && |a.cache.pages| > c.maxPages
  {
    var total := TotalWith(r, 1);
    PageEach(c, total);
    assert r.layers == [r.layers[0]];
    OwnPagesOvershoot(c, r.requestId, r.layers[0], total, true);
    AllocateRaises(c, r.requestId, r.layers, total, true);
    var d := Allocate(c, r.requestId, r.layers, total, true).cache;
    assert CommitMark(d, r.requestId, r.layers).pages.Keys == d.pages.Keys;
    assert |CommitMark(d, r.requestId, r.layers).pages| == |CommitMark(d, r.requestId, r.layers).pages.Keys|;
    assert |d.pages| == |d.pages.Keys|;
  }

  lemma ReadKeepsFull(c: Cache, r: Req, ids: seq<int>, x: int)
    requires Full(c, r) && x in Unpinned(c) && x !in ids
    ensures var d := ReadPages(c, ids);
      && Inv(d) && d.pageSize == 1 && AllOwn(d, r) && |d.pages| == d.maxPages == c.maxPages && x in Unpinned(d)
  {
    var p, d := SetPinned(c, ids, true), ReadPages(c, ids);
    SetPinnedInv(c, ids, true);
    TouchInv(p, ids);
    ReadReflags(c, ids);
    ReflaggedGains(c, d, r.requestId);
    forall id | id in d.pages ensures KeyOf(d.pages[id]) == (r.requestId, r.layers[0]) {
      assert KeyOf(d.pages[id]) == KeyOf(c.pages[id]);
    }
    assert d.pages[x] == c.pages[x];
  }

  /** Finishing or not, wrapping up keeps the number of pages. */
  lemma WrapKeepsPages(cfg: Config, c: Cache, r: Req, d: Decision, ids: seq<int>, width: int)
    ensures var o := Wrap(cfg, c, r, d, ids, width); o.Decoded? && |o.cache.pages| == |c.pages|
  {
    var e := Wrap(cfg, c, r, d, ids, width).cache;
    assert e.pages.Keys == c.pages.Keys && |e.pages| == |e.pages.Keys| && |c.pages| == |c.pages.Keys|;
  }

  lemma SecondDecode(cfg: Config, c: Cache, r: Req)
    requires cfg.adaptive.None? && cfg.blockSize == 1 && cfg.sparseTopK.Some?
    requires 1 <= cfg.sparseTopK.value < |r.prompt| && Full(c, r) && Goal(r) >= 3
    ensures var o := DecodeOne(cfg, c, r); o.Decoded? && |o.cache.pages| > c.maxPages
  {
    var r0 := r.(phase := Decode);
    assert Rehydrate(c, r0) == Resident(c, r0);
    DecideAdvances(cfg, r0);
    var ids, d := DecodePages(cfg, c, r0), Decide(cfg, r0);
    var x := OneStaysUnpinned(cfg, c, r0);
    var c1, r1 := ReadPages(c, ids), r0.(draft := d.proposed);
    ReadKeepsFull(c, r0, ids, x);
    FullCommitOvershoots(c1, r1, x);
    var a := CommitAccepted(c1, r1, 1);
    assert |d.accepted| == 1;
    WrapKeepsPages(cfg, a.cache, Committed(r1, d.accepted, LayerMap(a.cache, r1.requestId, r1.layers)), d, ids, 1);
  }

  // ------------------------------------------------------------------------------ the run

  /** From a state that the run reaches, one more step. */
  lemma Advance(cfg: Config, s: Rt, k: nat, now: Rt) returns (n: nat)
    requires s.cache.pageSize >= 1 && Iterate(cfg, s, k) == now
    ensures now.cache.pageSize >= 1 && Iterate(cfg, s, n) == Step(cfg, now)
  {
    n := k + 1;
    IterateNext(cfg, s, k);
  }

  lemma NextStage(cfg: Config, s: Rt, k: nat, now: Rt) returns (n: nat)
    requires s.cache.pageSize >= 1 && Iterate(cfg, s, k) == now && StageDone(now)
    ensures Iterate(cfg, s, n) == now.(stage := StageAfter(cfg, now))
  {
    n := Advance(cfg, s, k, now);
    StepMovesOn(cfg, now);
  }

  /** Nothing in flight but one request in the decode queue. */
  ghost predicate Queued(t: Rt, r: Req) {
    t.prefillQ == [] && t.prefilled == [] && t.decodeQ == [r] && t.batch == []
  }

  /** The run reaches the point where the prefilled request is queued for decode. */
  lemma FirstRound(cfg: Config, c: Cache, r: Req, o: PrefillOutcome) returns (k: nat, t: Rt)
    requires c.pageSize >= 1 && o == PrefillOne(cfg, c, r) && o.Prefilled?
    ensures Iterate(cfg, Initial(c, [r]), k) == t
    ensures t.stage.Enqueuing? && Queued(t, o.req) && t.cache == o.cache
  {
    var s := Initial(c, [r]);
    k := 0;
    k := NextStage(cfg, s, k, s);
    var s1 := s.(stage := Prefilling);
    k := Advance(cfg, s, k, s1);
    var s2 := AfterPrefill(s1, o);
    k := NextStage(cfg, s, k, s2);
    var s3 := s2.(stage := Enqueuing);
    k := Advance(cfg, s, k, s3);
    t := AfterEnqueue(s3);
  }

  /** The queued request makes a decode step. */
  lemma ToDecode(cfg: Config, s: Rt, k: nat, now: Rt, r: Req, o: DecodeOutcome) returns (n: nat)
    requires s.cache.pageSize >= 1 && Iterate(cfg, s, k) == now && now.cache.pageSize >= 1
    requires now.stage.Enqueuing? && Queued(now, r) && cfg.decodeWorkers >= 1 && o == DecodeOne(cfg, now.cache, r)
    ensures Iterate(cfg, s, n) == AfterDecode(now.(stage := Decoding(1)), o)
  {
    n := NextStage(cfg, s, k, now);
    var s1 := now.(stage := Decoding(1));
    n := Advance(cfg, s, n, s1);
    StepIsDecode(cfg, s1);
  }

  /** A request that has not finished is queued for the next round. */
  lemma NextRound(cfg: Config, s: Rt, k: nat, now: Rt, r: Req, t: Trace) returns (n: nat, next: Rt)
    requires s.cache.pageSize >= 1 && Iterate(cfg, s, k) == now && now.stage == Decoding(0) && !r.finished
    requires now.batch == [(r, t)] && now.decodeQ == [] && now.prefillQ == [] && now.prefilled == []
    ensures Iterate(cfg, s, n) == next && next.stage.Enqueuing? && Queued(next, r) && next.cache == now.cache
  {
    n := NextStage(cfg, s, k, now);
    var s1 := now.(stage := Settling);
    n := Advance(cfg, s, n, s1);
    var s2 := AfterSettle(s1);
    n := NextStage(cfg, s, n, s2);
    n := NextStage(cfg, s, n, s2.(stage := Top));
    n := NextStage(cfg, s, n, s2.(stage := Prefilling));
    next := s2.(stage := Enqueuing);
  }

  /** Two decode rounds of the prefilled request. */
  lemma TwoRounds(cfg: Config, s: Rt, k: nat, now: Rt, r: Req) returns (n: nat)
    requires s.cache.pageSize >= 1 && Iterate(cfg, s, k) == now
    requires now.stage.Enqueuing? && Queued(now, r) && Prompted(now.cache, r) && NoDup(r.layers)
    requires cfg.adaptive.None? && cfg.blockSize == 1 && cfg.decodeWorkers >= 1 && !cfg.pinReady
    requires cfg.sparseTopK.Some? && 1 <= cfg.sparseTopK.value < |r.prompt|
    requires r.committed == [] && !r.finished && Goal(r) >= 3 && r.target[0] != r.eos
    ensures |Iterate(cfg, s, n).cache.pages| > now.cache.maxPages
  {
    var o := DecodeOne(cfg, now.cache, r);
    FirstDecode(cfg, now.cache, r);
    n := ToDecode(cfg, s, k, now, r, o);
    var next;
    n, next := NextRound(cfg, s, n, AfterDecode(now.(stage := Decoding(1)), o), o.req, o.trace);
    SecondDecode(cfg, o.cache, o.req);
    n := ToDecode(cfg, s, n, next, o.req, DecodeOne(cfg, o.cache, o.req));
  }

  /** A run of one such request passes the bound: some steps in, the cache holds more than `maxPages`. */
  lemma BoundIsPassed(cfg: Config, c: Cache, r: Req) returns (k: nat)
    requires Tight(cfg, c, r)
    ensures |Iterate(cfg, Initial(c, [r]), k).cache.pages| > c.maxPages
  {
    var o := PrefillOne(cfg, c, r);
    PrefillFills(cfg, c, r);
    var t;
    k, t := FirstRound(cfg, c, r, o);
    k := TwoRounds(cfg, Initial(c, [r]), k, t, o.req);
  }
}
