/** The prefill and decode workers: requests and the cache updated in place. */
module Workers {
  import opened KvCacheModel
  import opened KvCache
  import opened Requests
  import opened Backend
  import opened SpecDecode
  import opened RuntimeModel
  import opened SparseSelector

  class PrefillWorker {
    const config: Config
    const kvCache: KVCache

    constructor (config: Config, kvCache: KVCache)
      ensures this.config == config && this.kvCache == kvCache
    {
      this.config, this.kvCache := config, kvCache;
    }

    /** `process`; `ok` is false where the allocation raises. */
    method Process(request: RequestState) returns (ok: bool)
      requires kvCache.Valid()
      modifies request, kvCache
      ensures kvCache.Valid()
      ensures var o := PrefillOne(config, old(kvCache.State()), old(request.Value()));
        ok == o.Prefilled? && kvCache.State() == o.cache && request.Value() == o.req
    {
      request.phase := Prefill;
      var layerMap: map<int, seq<int>>;
      ok, layerMap := kvCache.AllocateForRequest(request.requestId, request.layerIds, |request.promptTokens|,
                                                 config.pinReady);
      if ok {
        kvCache.TouchPages(FlattenMap(layerMap, request.layerIds));
        request.kvSnapshot := Some(KVSnapshot(request.requestId, layerMap, |request.promptTokens|));
        request.phase := ReadyDecode;
      }
    }
  }

  class DecodeWorker {
    const config: Config
    const kvCache: KVCache
    const backend: CPUStubBackend

    constructor (config: Config, kvCache: KVCache, backend: CPUStubBackend)
      ensures this.config == config && this.kvCache == kvCache && this.backend == backend
    {
      this.config, this.kvCache, this.backend := config, kvCache, backend;
    }

    /** The cache's `has_snapshot`. */
    method SnapshotIsLive(request: RequestState) returns (live: bool)
      requires kvCache.Valid()
      ensures live == HasSnapshot(kvCache.State(), request.Value())
    {
      if request.kvSnapshot.None? {
        return false;
      }
      var ids := request.KvPageIdList();
      for i := 0 to |ids|
        invariant forall j :: 0 <= j < i ==> ids[j] in kvCache.pages
      {
        var id := ids[i];
        assert id in KvPageIds(request.Value());
        if id !in kvCache.pages {
          assert id !in kvCache.State().pages;
          return false;
        }
      }
      return true;
    }

    /** Drops the request's pages and allocates all of them anew. */
    method RebuildPages(request: RequestState) returns (ok: bool, layerMap: map<int, seq<int>>)
      requires kvCache.Valid()
      modifies kvCache
      ensures kvCache.Valid()
      ensures var r := request.Value();
        var a := Rebuilt(old(kvCache.State()), r);
        && ok == a.Granted? && kvCache.State() == a.cache
        && (ok ==> layerMap == LayerMap(a.cache, r.requestId, r.layers))
    {
      var total := |request.promptTokens| + |request.committedTokens|;
      kvCache.ReleaseRequest(request.requestId);
      ok, layerMap := kvCache.AllocateForRequest(request.requestId, request.layerIds, total, true);
    }

    /** `_rehydrate_if_needed`; `ok` is false where the allocation raises. */
    method RehydrateIfNeeded(request: RequestState) returns (ok: bool)
      requires kvCache.Valid()
      modifies request, kvCache
      ensures kvCache.Valid()
      ensures var o := Rehydrate(old(kvCache.State()), old(request.Value()));
        && ok == o.Resident? && kvCache.State() == o.cache
        && request.Value() == if o.Resident? then o.req else old(request.Value())
    {
      var live := SnapshotIsLive(request);
      if live {
        return true;
      }
      var layerMap: map<int, seq<int>>;
      ok, layerMap := RebuildPages(request);
      if ok {
        request.kvSnapshot := Some(KVSnapshot(request.requestId, layerMap, |request.promptTokens|));
        request.rehydrationCount := request.rehydrationCount + 1;
      }
    }

    /** The pages to read: the sparse selection if there is one and it is not empty, else all. */
    method PagesToRead(request: RequestState) returns (ids: seq<int>)
      requires kvCache.Valid()
      ensures ids == DecodePages(config, kvCache.State(), request.Value())
    {
      ids := request.KvPageIdList();
      if config.sparseTopK.Some? {
        var selected := Select(kvCache, request, config.sparseTopK.value);
        if selected != [] {
          ids := selected;
        }
      }
    }

    /** Proposes a block, verifies it, and takes the accepted prefix. */
    method TryProposal(request: RequestState, width: int) returns (proposal: seq<int>, mask: seq<bool>)
      requires backend.activeRequest == request
      modifies request`draftTokens
      ensures request.Value() == old(request.Value()).(draft := proposal)
      ensures (proposal, AcceptedCount(mask)) == TryBlock(config, old(request.Value()), width) && |mask| == |proposal|
    {
      proposal := ProposeBlock(request, width, config.proposerEos);
      request.draftTokens := proposal;
      SameAnswers(config, old(request.Value()), request.Value(), width);
      var answer := Verify(request, proposal, config.acceptance, backend);
      mask := answer.value;
    }

    /** Proposal, verification and the serial fallback. */
    method Speculate(request: RequestState, width: int) returns (d: Decision, mask: seq<bool>)
      requires backend.activeRequest == request && width == BlockWidth(config, request.Value())
      modifies request`draftTokens
      ensures d == Decide(config, old(request.Value()))
      ensures request.Value() == old(request.Value()).(draft := d.proposed)
      ensures d.blockAccepted == AcceptedCount(mask) && d.blockProposed == |mask|
    {
      ghost var r := request.Value();
      var proposal: seq<int>;
      proposal, mask := TryProposal(request, width);
      var n := CountAccepted(mask);
      if n == 0 && |proposal| > 1 {
        SameAnswers(config, r, request.Value(), 1);
        var single, singleMask := TryProposal(request, 1);
        var m := CountAccepted(singleMask);
        d := Decision(single, Prefix(single, m), true, n, |proposal|);
      } else {
        d := Decision(proposal, Prefix(proposal, n), false, n, |proposal|);
      }
    }

    /** The eviction before a commit that would not fit. */
    method EvictForCommit(rid: int, layers: seq<int>, total: int)
      requires kvCache.Valid()
      modifies kvCache
      ensures kvCache.Valid() && kvCache.State() == MakeSpace(old(kvCache.State()), rid, layers, total)
    {
      var fits := kvCache.CanAllocatePages(rid, layers, total);
      if !fits {
        var needed := kvCache.PagesNeeded(rid, layers, total);
        var _ := kvCache.EvictLru(needed);
      }
    }

    /** Makes room if need be and commits; `ok` is false where the allocation raises. */
    method CommitTokens(request: RequestState, accepted: seq<int>) returns (ok: bool)
      requires kvCache.Valid() && accepted != []
      modifies request`committedTokens, request`kvSnapshot, kvCache
      ensures kvCache.Valid()
      ensures var r := old(request.Value());
        var a := CommitAccepted(old(kvCache.State()), r, |accepted|);
        && ok == a.Granted? && kvCache.State() == a.cache
        && request.Value() == if a.Granted? then Committed(r, accepted, LayerMap(a.cache, r.requestId, r.layers)) else r
    {
      var rid, layers := request.requestId, request.layerIds;
      var total := TotalWith(request.Value(), |accepted|);
      EvictForCommit(rid, layers, total);
      var layerMap: map<int, seq<int>>;
      ok, layerMap := kvCache.CommitTokens(rid, layers, total, true);
      if ok {
        request.committedTokens := request.committedTokens + accepted;
        request.kvSnapshot := Some(KVSnapshot(rid, layerMap, |request.promptTokens|));
      }
    }

    /** The finish test, and the two ways a decode step ends. */
    method Conclude(request: RequestState, d: Decision, ids: seq<int>, width: int) returns (trace: Trace)
      requires kvCache.Valid()
      modifies request`phase, request`finished, request`wasPreempted, kvCache
      ensures kvCache.Valid()
      ensures Decoded(kvCache.State(), request.Value(), trace)
           == Wrap(config, old(kvCache.State()), old(request.Value()), d, ids, width)
    {
      trace := Trace(d.proposed, d.accepted, d.fallback, width, ids);
      var budget := request.TokenBudgetLeft();
      var finish :=
        || budget == 0
        || (d.accepted != [] && d.accepted[|d.accepted| - 1] == request.eosTokenId)
        || |request.committedTokens| >= |request.targetTokens|
        || (d.accepted == [] && |d.proposed| == 1);
      if finish {
        request.phase, request.finished := Finished, true;
        var own := request.KvPageIdList();
        kvCache.UnpinPages(own);
      } else {
        request.phase, request.wasPreempted := ReadyDecode, true;
        if !config.pinReady {
          kvCache.UnpinPages(ids);
        }
      }
    }

    /** Commits what was accepted, if anything, and concludes; the trace is absent where the commit raises. */
    method CommitAndConclude(request: RequestState, d: Decision, ids: seq<int>,
                             width: int) returns (trace: Option<Trace>)
      requires kvCache.Valid()
      modifies request, kvCache
      ensures kvCache.Valid()
      ensures var o := CommitAndWrap(config, old(kvCache.State()), old(request.Value()), d, ids, width);
        && kvCache.State() == o.cache && request.Value() == o.req
        && trace == if o.Decoded? then Some(o.trace) else None
    {
      if d.accepted != [] {
        var ok := CommitTokens(request, d.accepted);
        if !ok {
          return None;
        }
      }
      var t := Conclude(request, d, ids, width);
      trace := Some(t);
    }

    /** `process` from a resident request on; the trace is absent where a commit raises. */
    method ProcessResident(request: RequestState) returns (trace: Option<Trace>)
      requires kvCache.Valid()
      modifies request, kvCache, backend
      ensures kvCache.Valid()
      ensures var o := DecodeResident(config, old(kvCache.State()), old(request.Value()));
        && kvCache.State() == o.cache && request.Value() == o.req
        && trace == if o.Decoded? then Some(o.trace) else None
    {
      var ids := PagesToRead(request);
      kvCache.PinPages(ids);
      kvCache.TouchPages(ids);
      var width := if config.adaptive.Some? then request.currentBlockSize else config.blockSize;
      var _, _ := backend.DecodeStep(request);
      var d, mask := Speculate(request, width);
      if config.adaptive.Some? {
        var pressure := kvCache.IsUnderPressure();
        UpdateRequestBlockSize(request, mask, config.adaptive.value, pressure);
      }
      trace := CommitAndConclude(request, d, ids, width);
    }

    /** `process`, from cache `c` and request `r`; the trace is absent where an allocation raises. */
    method Process(request: RequestState, ghost c: Cache, ghost r: Req)
        returns (trace: Option<Trace>, ghost o: DecodeOutcome)
      requires kvCache.Valid() && c == kvCache.State() && r == request.Value()
      modifies request, kvCache, backend
      ensures kvCache.Valid() && c.pageSize >= 1 && o == DecodeOne(config, c, r)
      ensures kvCache.State() == o.cache && request.Value() == o.req
      ensures trace == if o.Decoded? then Some(o.trace) else None
    {
      o := DecodeOne(config, c, r);
      request.phase := Decode;
      var ok := RehydrateIfNeeded(request);
      if !ok {
        return None, o;
      }
      trace := ProcessResident(request);
    }
  }

  /** A changed draft buffer changes no proposal and no answer. */
  lemma SameAnswers(cfg: Config, r: Req, q: Req, width: int)
    requires q == r.(draft := q.draft)
    ensures TryBlock(cfg, q, width) == TryBlock(cfg, r, width)
    ensures Remaining(q) == Remaining(r)
  {
    AcceptFromSame(r, q, Propose(r, width, cfg.proposerEos), Remaining(r), cfg.acceptance.mismatchStride, 0);
  }
}
