/**
 Lossless speculation: what tokens a run returns for each request, whatever the
 block sizes, stride, draft rejection, priorities, workers, evictions or sparse
 selection.
 */
module RuntimeTokens {
  import opened Sequences
  import opened KvCacheModel
  import opened Requests
  import opened SpecDecode
  import opened RuntimeModel
  import opened BlockWalk
  import opened BlockPace

  /** Block sizes are at least one, wherever they come from. */
  predicate GoodBlocks(cfg: Config) {
    cfg.blockSize >= 1 && (cfg.adaptive.Some? ==> cfg.adaptive.value.minBlock >= 1)
  }

  predicate GoodWidth(cfg: Config, r: Req) { cfg.adaptive.Some? ==> r.blockSize >= 1 }

  // ----------------------------------------------------------- one decode step

  /** The decision depends on the tokens, the budget and the block size alone. */
  lemma DecideSame(cfg: Config, r: Req, q: Req)
    requires r.committed == q.committed && r.target == q.target && r.maxNew == q.maxNew && r.blockSize == q.blockSize
    ensures Decide(cfg, r) == Decide(cfg, q)
  {
    var w := BlockWidth(cfg, r);
    AcceptFromSame(r, q, Propose(r, w, cfg.proposerEos), Remaining(r), cfg.acceptance.mismatchStride, 0);
    AcceptFromSame(r, q, Propose(r, 1, cfg.proposerEos), Remaining(r), cfg.acceptance.mismatchStride, 0);
  }

  /** A block cut from the request's own remaining tokens, at least one wide. */
  lemma TryOwnBlock(cfg: Config, r: Req, width: int)
    requires width >= 1 && Remaining(r) != [] && BudgetLeft(r) > 0
    ensures var (p, n) := TryBlock(cfg, r, width);
      && 1 <= |p| <= Min(|Remaining(r)|, BudgetLeft(r)) && p == Remaining(r)[..|p|]
      && (width == 1 ==> |p| == 1)
      && (!(cfg.acceptance.rejectDraftBlocks && |p| > 1) ==> n >= 1)
  {
    var p := Propose(r, width, cfg.proposerEos);
    OwnTokensAccepted(r, p, cfg.acceptance.mismatchStride, 0);
  }

  /** With tokens left and budget left, a decode step accepts at least one of the next target tokens. */
  lemma DecideProgress(cfg: Config, r: Req)
    requires GoodBlocks(cfg) && GoodWidth(cfg, r)
    requires Remaining(r) != [] && BudgetLeft(r) > 0
    ensures var d := Decide(cfg, r);
      && 1 <= |d.accepted| <= Min(|Remaining(r)|, BudgetLeft(r))
      && d.accepted == Remaining(r)[..|d.accepted|]
      && (BlockWidth(cfg, r) == 1 ==> |d.accepted| == 1)
  {
    TryOwnBlock(cfg, r, BlockWidth(cfg, r));
    TryOwnBlock(cfg, r, 1);
  }

  /** With nothing left or no budget, the proposer offers its own EOS token, which only a matching target accepts. */
  lemma DecideExhausted(cfg: Config, r: Req)
    requires Remaining(r) == [] || BudgetLeft(r) == 0
    ensures var d := Decide(cfg, r);
      && d.proposed == [cfg.proposerEos]
      && d.accepted == if Remaining(r) != [] && Remaining(r)[0] == cfg.proposerEos then [cfg.proposerEos] else []
  {}

  /** What one decode step does to a request's tokens. */
  ghost predicate TokenStep(cfg: Config, r: Req, q: Req, t: Trace) {
    var d := Decide(cfg, r);
    && SameIdentity(q, r)
    && q.committed == r.committed + d.accepted
    && t.accepted == d.accepted && t.proposed == d.proposed && t.usedFallback == d.fallback
    && t.blockSizeUsed == BlockWidth(cfg, r) && (cfg.adaptive.Some? ==> Repaced(cfg.adaptive.value, r, q, t))
    && (q.finished <==> r.finished || Finishes(r.(committed := q.committed), d))
    && (r.finished || (q.wasPreempted <==> r.wasPreempted || !q.finished))
    && (GoodBlocks(cfg) && GoodWidth(cfg, r) ==> GoodWidth(cfg, q))
  }

  /** What committing and wrapping up a decision makes of a request. */
  ghost predicate WrappedUp(r: Req, d: Decision, width: int, o: DecodeOutcome) {
    o.Decoded? ==>
      && SameIdentity(o.req, r) && o.req.committed == r.committed + d.accepted && o.req.blockSize == r.blockSize
      && o.req.ema == r.ema && o.req.rehydrations == r.rehydrations
      && o.trace.accepted == d.accepted && o.trace.proposed == d.proposed && o.trace.usedFallback == d.fallback
      && o.trace.blockSizeUsed == width
      && (o.req.finished <==> r.finished || Finishes(r.(committed := o.req.committed), d))
      && (r.finished || (o.req.wasPreempted <==> r.wasPreempted || !o.req.finished))
  }

  lemma WrapTokens(cfg: Config, c: Cache, r: Req, d: Decision, ids: seq<int>, width: int)
    requires c.pageSize >= 1
    ensures WrappedUp(r, d, width, CommitAndWrap(cfg, c, r, d, ids, width))
  {
    if d.accepted == [] {
      assert r.committed + d.accepted == r.committed;
    }
  }

  /** From the request that is wrapped up back to the one that was decoded. */
  lemma WrappedStep(cfg: Config, c: Cache, r: Req, q: Req, o: DecodeOutcome)
    requires SameIdentity(q, r) && q.committed == r.committed && q.finished == r.finished && q.ema == r.ema
    requires q.wasPreempted == r.wasPreempted && q.blockSize == r.blockSize
    requires WrappedUp(Adapt(cfg, c, q, Decide(cfg, r)), Decide(cfg, r), BlockWidth(cfg, r), o)
    ensures o.Decoded? ==> TokenStep(cfg, r, o.req, o.trace)
  {
    if o.Decoded? {
      var a := Adapt(cfg, c, q, Decide(cfg, r));
      FinishesSame(a, r, o.req.committed, Decide(cfg, r));
      if cfg.adaptive.Some? {
        AdaptRepaces(cfg, c, r, q, o.trace);
      }
    }
  }

  lemma DecodeTokens(cfg: Config, c: Cache, r: Req)
    requires c.pageSize >= 1
    ensures var o := DecodeOne(cfg, c, r); o.Decoded? ==> TokenStep(cfg, r, o.req, o.trace)
  {
    var r0 := r.(phase := Decode);
    if Rehydrate(c, r0).Resident? {
      var Resident(c1, r1) := Rehydrate(c, r0);
      SettingsKeptByRehydrate(c, r0);
      ResidentTokens(cfg, c1, r, r1);
    }
  }

  lemma ResidentTokens(cfg: Config, c: Cache, r: Req, q: Req)
    requires c.pageSize >= 1 && SameIdentity(q, r) && q.committed == r.committed && q.finished == r.finished
    requires q.ema == r.ema && q.wasPreempted == r.wasPreempted && q.blockSize == r.blockSize
    ensures var o := DecodeResident(cfg, c, q); o.Decoded? ==> TokenStep(cfg, r, o.req, o.trace)
  {
    DecideSame(cfg, r, q);
    var ids, d := DecodePages(cfg, c, q), Decide(cfg, r);
    var c1 := ReadPages(c, ids);
    SettingsKeptByRead(c, ids);
    var q1 := q.(draft := d.proposed);
    WrapTokens(cfg, c1, Adapt(cfg, c1, q1, d), d, ids, BlockWidth(cfg, r));
    WrappedStep(cfg, c1, r, q1, CommitAndWrap(cfg, c1, Adapt(cfg, c1, q1, d), d, ids, BlockWidth(cfg, r)));
  }

  lemma FinishesSame(r: Req, q: Req, tokens: seq<int>, d: Decision)
    requires SameIdentity(r, q)
    ensures Finishes(r.(committed := tokens), d) == Finishes(q.(committed := tokens), d)
  {}

  // ------------------------------------------------------- progress of a request

  /** A request that still has to decode: a proper prefix of its goal, or nothing yet. */
  ghost predicate Waiting(cfg: Config, r: Req) {
    && !r.finished && GoodWidth(cfg, r)
    && r.committed <= r.target
    && (|r.committed| == 0 || (|r.committed| < Goal(r) && r.committed[|r.committed| - 1] != r.eos))
    && (SerialConfig(cfg) ==> r.eos !in r.committed)
  }

  /** Plain serial decode: one token per step. */
  predicate SerialConfig(cfg: Config) { cfg.adaptive.None? && cfg.blockSize == 1 }

  /**
   What a finished request may have returned. With a positive token budget: a
   prefix of the target, either the whole goal or one that ends in EOS; serial
   decode never runs past an EOS. Without budget: nothing, or the proposer's EOS token if the target starts with it.
   */
  ghost predicate FinalTokens(cfg: Config, r: Req, tokens: seq<int>) {
    if r.maxNew >= 1 then
      && tokens <= r.target && |tokens| <= Goal(r)
      && (|tokens| == Goal(r) || (|tokens| > 0 && tokens[|tokens| - 1] == r.eos))
      && (SerialConfig(cfg) ==> forall i :: 0 <= i < |tokens| - 1 ==> tokens[i] != r.eos)
    else tokens == if r.target != [] && r.target[0] == cfg.proposerEos then [cfg.proposerEos] else []
  }

  /** One decode step leaves the request waiting and further along, or finished with admissible tokens. */
  lemma TokenStepProgress(cfg: Config, r: Req, q: Req, t: Trace)
    requires GoodBlocks(cfg) && Waiting(cfg, r) && TokenStep(cfg, r, q, t)
    ensures if q.finished then FinalTokens(cfg, r, q.committed)
            else Waiting(cfg, q) && |q.committed| > |r.committed|
    ensures q.finished || |q.committed| < Goal(r)
  {
    if Remaining(r) != [] && BudgetLeft(r) > 0 {
      ProgressCase(cfg, r, q, t);
      assert q.committed <= r.target;
    } else {
      DecideExhausted(cfg, r);
      assert |r.committed| == 0 && Remaining(r) == r.target;
      assert q.committed == Decide(cfg, r).accepted;
    }
  }

  lemma ProgressCase(cfg: Config, r: Req, q: Req, t: Trace)
    requires GoodBlocks(cfg) && Waiting(cfg, r) && TokenStep(cfg, r, q, t)
    requires Remaining(r) != [] && BudgetLeft(r) > 0
    ensures |r.committed| < |q.committed| <= Goal(r) && q.committed == r.target[..|q.committed|]
    ensures q.finished <==> |q.committed| == Goal(r) || q.committed[|q.committed| - 1] == r.eos
    ensures SerialConfig(cfg) ==> q.committed == r.committed + [q.committed[|q.committed| - 1]]
  {
    var d := Decide(cfg, r);
    DecideProgress(cfg, r);
    TokensGrow(r, q.committed, d.accepted);
  }

  /** Accepting the next target tokens leads to a longer prefix of the goal. */
  lemma TokensGrow(r: Req, tokens: seq<int>, accepted: seq<int>)
    requires r.committed <= r.target && tokens == r.committed + accepted
    requires 1 <= |accepted| <= Min(|Remaining(r)|, BudgetLeft(r)) && accepted == Remaining(r)[..|accepted|]
    ensures |r.committed| < |tokens| <= Goal(r) && tokens == r.target[..|tokens|]
    ensures tokens[|tokens| - 1] == accepted[|accepted| - 1]
  {
    assert r.target == r.committed + Remaining(r);
    assert tokens == r.target[..|r.committed| + |accepted|];
  }

  /** One decode step of a waiting request is one step of the walk over its goal. */
  lemma StepWalks(cfg: Config, sub: Req, r: Req, q: Req, t: Trace)
    requires GoodBlocks(cfg) && Waiting(cfg, r) && TokenStep(cfg, r, q, t) && SameIdentity(r, sub)
    requires r.committed == [] ==> r.blockSize == sub.blockSize
    ensures sub.maxNew >= 1 ==> WalkStep(cfg, sub, |r.committed|, t)
  {
    if |r.committed| < Goal(r) {
      DecideAdvances(cfg, r);
    } else {
      DecideExhausted(cfg, r);
    }
  }

  // ------------------------------------------------------------ whole runs

  function IdsOf(q: seq<Req>): seq<int> { seq(|q|, i requires 0 <= i < |q| => q[i].requestId) }

  function BatchReqs(b: seq<(Req, Trace)>): seq<Req> { seq(|b|, i requires 0 <= i < |b| => b[i].0) }

  function ResultIds(rs: seq<DecodeResult>): seq<int> { seq(|rs|, i requires 0 <= i < |rs| => rs[i].requestId) }

  /** All requests in the runtime, wherever they are. */
  function AllReqs(s: Rt): seq<Req> { s.prefillQ + s.prefilled + s.decodeQ + BatchReqs(s.batch) }

  /** Every id, of requests in flight and of results. */
  ghost function IdBag(s: Rt): multiset<int> {
    multiset(IdsOf(s.prefillQ)) + multiset(IdsOf(s.prefilled)) + multiset(IdsOf(s.decodeQ))
    + multiset(IdsOf(BatchReqs(s.batch))) + multiset(ResultIds(s.results))
  }

  lemma {:induction false} PushMember(q: seq<Req>, r: Req)
    ensures forall x :: x in Push(q, r) <==> x == r || x in q
  {
    if !(q == [] || q[|q| - 1].priority >= r.priority) {
      PushMember(q[..|q| - 1], r);
      assert q == q[..|q| - 1] + [q[|q| - 1]];
    }
  }

  lemma IdsSnoc(q: seq<Req>, r: Req)
    ensures multiset(IdsOf(q + [r])) == multiset(IdsOf(q)) + multiset{r.requestId}
  {
    assert IdsOf(q + [r]) == IdsOf(q) + [r.requestId];
  }

  lemma IdsHead(q: seq<Req>)
    requires q != []
    ensures multiset(IdsOf(q)) == multiset{q[0].requestId} + multiset(IdsOf(q[1..]))
  {
    assert IdsOf(q) == [q[0].requestId] + IdsOf(q[1..]);
  }

  lemma {:induction false} IdsPush(q: seq<Req>, r: Req)
    ensures multiset(IdsOf(Push(q, r))) == multiset(IdsOf(q)) + multiset{r.requestId}
  {
    if q == [] || q[|q| - 1].priority >= r.priority {
      IdsSnoc(q, r);
    } else {
      var k := |q| - 1;
      IdsPush(q[..k], r);
      IdsSnoc(Push(q[..k], r), q[k]);
      IdsSnoc(q[..k], q[k]);
      assert q == q[..k] + [q[k]];
    }
  }

  lemma BatchHead(b: seq<(Req, Trace)>)
    requires b != []
    ensures BatchReqs(b)[0] == b[0].0 && BatchReqs(b)[1..] == BatchReqs(b[1..])
  {}

  lemma BatchSnoc(b: seq<(Req, Trace)>, r: Req, t: Trace)
    ensures BatchReqs(b + [(r, t)]) == BatchReqs(b) + [r]
  {}

  lemma PrefillKeepsIds(s: Rt, o: PrefillOutcome)
    requires s.prefillQ != [] && (o.Prefilled? ==> o.req.requestId == s.prefillQ[0].requestId)
    ensures IdBag(AfterPrefill(s, o)) == IdBag(s)
  {
    IdsHead(s.prefillQ);
    IdsSnoc(s.prefilled, o.req);
  }

  lemma EnqueueKeepsIds(s: Rt)
    requires s.prefilled != []
    ensures IdBag(AfterEnqueue(s)) == IdBag(s)
  {
    IdsHead(s.prefilled);
    IdsPush(s.decodeQ, s.prefilled[0]);
  }

  lemma DecodeKeepsIds(s: Rt, o: DecodeOutcome)
    requires s.stage.Decoding? && s.stage.slots > 0 && s.decodeQ != []
    requires o.Decoded? ==> o.req.requestId == s.decodeQ[0].requestId
    ensures IdBag(AfterDecode(s, o)) == IdBag(s)
  {
    if o.Decoded? {
      IdsHead(s.decodeQ);
      BatchSnoc(s.batch, o.req, o.trace);
      IdsSnoc(BatchReqs(s.batch), o.req);
    }
  }

  lemma SettleKeepsIds(s: Rt)
    requires s.batch != []
    ensures IdBag(AfterSettle(s)) == IdBag(s)
  {
    var (r, t) := s.batch[0];
    BatchHead(s.batch);
    IdsHead(BatchReqs(s.batch));
    if r.finished {
      ResultIdsSnoc(s.results, BuildResult(r, TracesOf(s, r.requestId) + [t]));
    } else {
      IdsPush(s.decodeQ, r);
    }
  }

  lemma ResultIdsSnoc(rs: seq<DecodeResult>, res: DecodeResult)
    ensures multiset(ResultIds(rs + [res])) == multiset(ResultIds(rs)) + multiset{res.requestId}
  {
    assert ResultIds(rs + [res]) == ResultIds(rs) + [res.requestId];
  }

  lemma StepPrefillKeepsIds(cfg: Config, s: Rt)
    requires s.cache.pageSize >= 1 && s.prefillQ != []
    ensures IdBag(AfterPrefill(s, PrefillOne(cfg, s.cache, s.prefillQ[0]))) == IdBag(s)
  {
    PrefillTokens(cfg, s.cache, s.prefillQ[0]);
    PrefillKeepsIds(s, PrefillOne(cfg, s.cache, s.prefillQ[0]));
  }

  lemma StepDecodeKeepsIds(cfg: Config, s: Rt)
    requires s.cache.pageSize >= 1 && s.stage.Decoding? && s.stage.slots > 0 && s.decodeQ != []
    ensures IdBag(AfterDecode(s, DecodeOne(cfg, s.cache, s.decodeQ[0]))) == IdBag(s)
  {
    DecodeTokens(cfg, s.cache, s.decodeQ[0]);
    DecodeKeepsIds(s, DecodeOne(cfg, s.cache, s.decodeQ[0]));
  }

  lemma StageMoveKeepsIds(s: Rt, stage: Stage)
    ensures IdBag(s.(stage := stage)) == IdBag(s)
  {}

  /** No step loses or invents a request: the ids in flight and in results stay the same. */
  lemma StepKeepsIds(cfg: Config, s: Rt)
    requires s.cache.pageSize >= 1
    ensures IdBag(Step(cfg, s)) == IdBag(s)
  {
    if s.stage.Prefilling? && s.prefillQ != [] {
      StepPrefillKeepsIds(cfg, s);
    } else if s.stage.Enqueuing? && s.prefilled != [] {
      EnqueueKeepsIds(s);
    } else if s.stage.Decoding? && s.stage.slots > 0 && s.decodeQ != [] {
      StepIsDecode(cfg, s);
      StepDecodeKeepsIds(cfg, s);
    } else if s.stage.Settling? && s.batch != [] {
      SettleKeepsIds(s);
    } else {
      StageMoveKeepsIds(s, Step(cfg, s).stage);
    }
  }

  ghost predicate Distinct(s: Rt) { forall x :: IdBag(s)[x] <= 1 }

  /** A request and the submitted request it descends from. */
  ghost predicate Descends(subs: map<int, Req>, r: Req) {
    && r.requestId in subs && SameIdentity(r, subs[r.requestId])
    && (r.committed == [] && !r.finished ==> r.blockSize == subs[r.requestId].blockSize)
  }

  /** The traces recorded for a request account for all its tokens but `pending`. */
  ghost predicate Traced(s: Rt, r: Req, pending: seq<int>) {
    Concat(TracesOf(s, r.requestId)) + pending == r.committed
  }

  /** A request counts as preempted once it has been handed back, that is, after each step but its last. */
  ghost predicate Preempted(subs: map<int, Req>, r: Req, handedBack: seq<Trace>) {
    r.requestId in subs && (r.wasPreempted <==> subs[r.requestId].wasPreempted || handedBack != [])
  }

  ghost predicate QueuedOk(cfg: Config, subs: map<int, Req>, s: Rt, r: Req) {
    && Descends(subs, r) && Waiting(cfg, r) && Traced(s, r, [])
    && Walked(cfg, subs[r.requestId], TracesOf(s, r.requestId)) && Preempted(subs, r, TracesOf(s, r.requestId))
    && Paced(cfg, subs[r.requestId], r, TracesOf(s, r.requestId))
  }

  ghost predicate BatchOk(cfg: Config, subs: map<int, Req>, s: Rt, r: Req, t: Trace) {
    && Descends(subs, r) && Traced(s, r, t.accepted)
    && Walked(cfg, subs[r.requestId], TracesOf(s, r.requestId) + [t])
    && Preempted(subs, r, TracesOf(s, r.requestId) + if r.finished then [] else [t])
    && Paced(cfg, subs[r.requestId], r, TracesOf(s, r.requestId) + [t])
    && (if r.finished then FinalTokens(cfg, r, r.committed) else Waiting(cfg, r))
  }

  ghost predicate ResultOk(cfg: Config, subs: map<int, Req>, res: DecodeResult) {
    && res.requestId in subs && res.prompt == subs[res.requestId].prompt
    && FinalTokens(cfg, subs[res.requestId], res.committed)
    && Walked(cfg, subs[res.requestId], res.traces) && PacedTraces(cfg, subs[res.requestId].ema, res.traces)
    && Concat(res.traces) == res.committed
    && (res.wasPreempted <==> subs[res.requestId].wasPreempted || |res.traces| > 1)
  }

  ghost predicate TokenInv(cfg: Config, subs: map<int, Req>, s: Rt) {
    && Distinct(s)
    && (forall r :: r in s.prefillQ || r in s.prefilled || r in s.decodeQ ==> QueuedOk(cfg, subs, s, r))
    && (forall i :: 0 <= i < |s.batch| ==> BatchOk(cfg, subs, s, s.batch[i].0, s.batch[i].1))
    && (forall i :: 0 <= i < |s.results| ==> ResultOk(cfg, subs, s.results[i]))
  }

  lemma InIds(q: seq<Req>, r: Req)
    requires r in q
    ensures multiset(IdsOf(q))[r.requestId] >= 1
  {
    var i :| 0 <= i < |q| && q[i] == r;
    assert IdsOf(q)[i] == r.requestId;
    assert r.requestId in IdsOf(q);
  }

  lemma PrefillTokens(cfg: Config, c: Cache, r: Req)
    requires c.pageSize >= 1
    ensures var o := PrefillOne(cfg, c, r);
      && SameIdentity(o.req, r) && o.req.committed == r.committed && o.req.finished == r.finished
      && o.req.blockSize == r.blockSize && o.req.rehydrations == r.rehydrations
      && o.req.wasPreempted == r.wasPreempted && o.req.ema == r.ema
  {}

  /** Whether a queued request is in order depends on the traces alone. */
  lemma SameTracesQueued(cfg: Config, subs: map<int, Req>, s: Rt, n: Rt, r: Req)
    requires QueuedOk(cfg, subs, s, r) && n.traces == s.traces
    ensures QueuedOk(cfg, subs, n, r)
  {}

  lemma PrefilledQueued(cfg: Config, subs: map<int, Req>, s: Rt, n: Rt, r: Req, q: Req)
    requires QueuedOk(cfg, subs, s, r) && n.traces == s.traces
    requires SameIdentity(q, r) && q.committed == r.committed && q.finished == r.finished && q.blockSize == r.blockSize
    requires q.wasPreempted == r.wasPreempted && q.ema == r.ema
    ensures QueuedOk(cfg, subs, n, q)
  {}

  lemma BatchSameTraces(cfg: Config, subs: map<int, Req>, s: Rt, n: Rt)
    requires n.traces == s.traces && n.batch == s.batch
    requires forall i :: 0 <= i < |s.batch| ==> BatchOk(cfg, subs, s, s.batch[i].0, s.batch[i].1)
    ensures forall i :: 0 <= i < |n.batch| ==> BatchOk(cfg, subs, n, n.batch[i].0, n.batch[i].1)
  {
    forall i | 0 <= i < |n.batch| ensures BatchOk(cfg, subs, n, n.batch[i].0, n.batch[i].1) {
      assert BatchOk(cfg, subs, s, s.batch[i].0, s.batch[i].1);
    }
  }

  lemma PrefillKeepsTokens(cfg: Config, subs: map<int, Req>, s: Rt, o: PrefillOutcome)
    requires TokenInv(cfg, subs, s) && s.prefillQ != []
    requires SameIdentity(o.req, s.prefillQ[0]) && o.req.committed == s.prefillQ[0].committed
    requires o.req.finished == s.prefillQ[0].finished && o.req.blockSize == s.prefillQ[0].blockSize
    requires o.req.wasPreempted == s.prefillQ[0].wasPreempted && o.req.ema == s.prefillQ[0].ema
    ensures TokenInv(cfg, subs, AfterPrefill(s, o))
  {
    PrefillKeepsIds(s, o);
    var n := AfterPrefill(s, o);
    assert s.prefillQ[0] in s.prefillQ;
    forall r | r in n.prefillQ || r in n.prefilled || r in n.decodeQ ensures QueuedOk(cfg, subs, n, r) {
      if r == o.req {
        PrefilledQueued(cfg, subs, s, n, s.prefillQ[0], r);
      } else {
        SameTracesQueued(cfg, subs, s, n, r);
      }
    }
    BatchSameTraces(cfg, subs, s, n);
  }

  lemma EnqueueKeepsTokens(cfg: Config, subs: map<int, Req>, s: Rt)
    requires TokenInv(cfg, subs, s) && s.prefilled != []
    ensures TokenInv(cfg, subs, AfterEnqueue(s))
  {
    EnqueueKeepsIds(s);
    var n := AfterEnqueue(s);
    PushMember(s.decodeQ, s.prefilled[0]);
    assert s.prefilled[0] in s.prefilled;
    forall r | r in n.prefillQ || r in n.prefilled || r in n.decodeQ ensures QueuedOk(cfg, subs, n, r) {
      SameTracesQueued(cfg, subs, s, n, r);
    }
    BatchSameTraces(cfg, subs, s, n);
  }

  lemma DecodeKeepsTokens(cfg: Config, subs: map<int, Req>, s: Rt, o: DecodeOutcome)
    requires GoodBlocks(cfg) && TokenInv(cfg, subs, s)
    requires s.stage.Decoding? && s.stage.slots > 0 && s.decodeQ != []
    requires o.Decoded? ==> TokenStep(cfg, s.decodeQ[0], o.req, o.trace)
    ensures TokenInv(cfg, subs, AfterDecode(s, o))
  {
    var r, n := s.decodeQ[0], AfterDecode(s, o);
    assert r in s.decodeQ;
    DecodeKeepsIds(s, o);
    forall q | q in n.prefillQ || q in n.prefilled || q in n.decodeQ ensures QueuedOk(cfg, subs, n, q) {
      SameTracesQueued(cfg, subs, s, n, q);
    }
    if o.Decoded? {
      DecodedHead(cfg, subs, s, n, o) by { assert QueuedOk(cfg, subs, s, r); }
      BatchGrows(cfg, subs, s, n, o.req, o.trace);
    } else {
      BatchSameTraces(cfg, subs, s, n);
    }
  }

  lemma DecodedHead(cfg: Config, subs: map<int, Req>, s: Rt, n: Rt, o: DecodeOutcome)
    requires GoodBlocks(cfg) && s.decodeQ != [] && o.Decoded? && n.traces == s.traces
    requires QueuedOk(cfg, subs, s, s.decodeQ[0]) && TokenStep(cfg, s.decodeQ[0], o.req, o.trace)
    ensures BatchOk(cfg, subs, n, o.req, o.trace)
  {
    TokenStepProgress(cfg, s.decodeQ[0], o.req, o.trace);
    DecodedBatchOk(cfg, subs, s, n, o);
  }

  lemma BatchGrows(cfg: Config, subs: map<int, Req>, s: Rt, n: Rt, r: Req, t: Trace)
    requires n.traces == s.traces && n.batch == s.batch + [(r, t)]
    requires forall i :: 0 <= i < |s.batch| ==> BatchOk(cfg, subs, s, s.batch[i].0, s.batch[i].1)
    requires BatchOk(cfg, subs, n, r, t)
    ensures forall i :: 0 <= i < |n.batch| ==> BatchOk(cfg, subs, n, n.batch[i].0, n.batch[i].1)
  {
    forall i | 0 <= i < |n.batch| ensures BatchOk(cfg, subs, n, n.batch[i].0, n.batch[i].1) {
      if i < |s.batch| {
        assert BatchOk(cfg, subs, s, s.batch[i].0, s.batch[i].1);
      }
    }
  }

  lemma DecodedBatchOk(cfg: Config, subs: map<int, Req>, s: Rt, n: Rt, o: DecodeOutcome)
    requires GoodBlocks(cfg) && s.decodeQ != [] && o.Decoded? && n.traces == s.traces
    requires QueuedOk(cfg, subs, s, s.decodeQ[0]) && TokenStep(cfg, s.decodeQ[0], o.req, o.trace)
    requires if o.req.finished then FinalTokens(cfg, s.decodeQ[0], o.req.committed) else Waiting(cfg, o.req)
    ensures BatchOk(cfg, subs, n, o.req, o.trace)
  {
    var r := s.decodeQ[0];
    StepWalks(cfg, subs[r.requestId], r, o.req, o.trace);
    WalkedSnoc(cfg, subs[r.requestId], TracesOf(s, r.requestId), o.trace);
    PacedSnoc(cfg, subs[r.requestId], r, o.req, TracesOf(s, r.requestId), o.trace);
    assert Concat(TracesOf(s, r.requestId)) + [] == r.committed;
    assert Concat(TracesOf(n, r.requestId)) == r.committed;
  }

  /** Distinct ids: the request at the head of the batch is nowhere else. */
  lemma BatchHeadElsewhere(s: Rt, q: Req)
    requires Distinct(s) && s.batch != []
    requires q in s.prefillQ || q in s.prefilled || q in s.decodeQ || q in BatchReqs(s.batch[1..])
    ensures q.requestId != s.batch[0].0.requestId
  {
    var x := s.batch[0].0.requestId;
    BatchHead(s.batch);
    IdsHead(BatchReqs(s.batch));
    assert IdBag(s)[x] <= 1;
    if q in s.prefillQ { InIds(s.prefillQ, q); }
    else if q in s.prefilled { InIds(s.prefilled, q); }
    else if q in s.decodeQ { InIds(s.decodeQ, q); }
    else { InIds(BatchReqs(s.batch[1..]), q); }
  }

  lemma SettleTraces(s: Rt, x: int)
    requires s.batch != []
    ensures var (r, t) := s.batch[0];
      TracesOf(AfterSettle(s), x) == if x == r.requestId then TracesOf(s, x) + [t] else TracesOf(s, x)
  {}

  lemma SettleKeepsQueued(cfg: Config, subs: map<int, Req>, s: Rt, q: Req)
    requires Distinct(s) && s.batch != [] && QueuedOk(cfg, subs, s, q)
    requires q in s.prefillQ || q in s.prefilled || q in s.decodeQ
    ensures QueuedOk(cfg, subs, AfterSettle(s), q)
  {
    BatchHeadElsewhere(s, q);
    SettleTraces(s, q.requestId);
  }

  lemma SettleKeepsBatched(cfg: Config, subs: map<int, Req>, s: Rt, i: nat)
    requires Distinct(s) && i + 1 < |s.batch| && BatchOk(cfg, subs, s, s.batch[i + 1].0, s.batch[i + 1].1)
    ensures BatchOk(cfg, subs, AfterSettle(s), s.batch[i + 1].0, s.batch[i + 1].1)
  {
    assert BatchReqs(s.batch[1..])[i] == s.batch[i + 1].0;
    BatchHeadElsewhere(s, s.batch[i + 1].0);
    SettleTraces(s, s.batch[i + 1].0.requestId);
  }

  lemma SettledHead(cfg: Config, subs: map<int, Req>, s: Rt)
    requires s.batch != [] && BatchOk(cfg, subs, s, s.batch[0].0, s.batch[0].1)
    ensures var (r, t) := s.batch[0];
      if r.finished then ResultOk(cfg, subs, BuildResult(r, TracesOf(s, r.requestId) + [t]))
      else QueuedOk(cfg, subs, AfterSettle(s), r)
  {
    var (r, t) := s.batch[0];
    var ts := TracesOf(s, r.requestId) + [t];
    SettleTraces(s, r.requestId);
    ConcatSnoc(TracesOf(s, r.requestId), t);
    assert Concat(ts) == r.committed && r.committed + [] == r.committed;
    if r.finished {
      assert ts[..|ts| - 1] == TracesOf(s, r.requestId) + [];
      ReportedHead(cfg, subs, r, ts);
    } else {
      QueuedAgain(cfg, subs, AfterSettle(s), r, ts);
    }
  }

  lemma ReportedHead(cfg: Config, subs: map<int, Req>, r: Req, ts: seq<Trace>)
    requires Descends(subs, r) && FinalTokens(cfg, r, r.committed) && Concat(ts) == r.committed
    requires Walked(cfg, subs[r.requestId], ts) && ts != [] && Preempted(subs, r, ts[..|ts| - 1])
    requires PacedTraces(cfg, subs[r.requestId].ema, ts)
    ensures ResultOk(cfg, subs, BuildResult(r, ts))
  {}

  lemma QueuedAgain(cfg: Config, subs: map<int, Req>, n: Rt, r: Req, ts: seq<Trace>)
    requires Descends(subs, r) && Waiting(cfg, r) && TracesOf(n, r.requestId) == ts
    requires Concat(ts) + [] == r.committed && Walked(cfg, subs[r.requestId], ts) && Preempted(subs, r, ts)
    requires Paced(cfg, subs[r.requestId], r, ts)
    ensures QueuedOk(cfg, subs, n, r)
  {}

  /** The requests still queued after the head of the batch is settled. */
  lemma SettleKeepsQueues(cfg: Config, subs: map<int, Req>, s: Rt, q: Req)
    requires TokenInv(cfg, subs, s) && s.batch != []
    requires var n := AfterSettle(s); q in n.prefillQ || q in n.prefilled || q in n.decodeQ
    ensures QueuedOk(cfg, subs, AfterSettle(s), q)
  {
    PushMember(s.decodeQ, s.batch[0].0);
    if q in s.prefillQ || q in s.prefilled || q in s.decodeQ {
      SettleKeepsQueued(cfg, subs, s, q);
    } else {
      SettledHead(cfg, subs, s) by { assert BatchOk(cfg, subs, s, s.batch[0].0, s.batch[0].1); }
    }
  }

  lemma SettleKeepsResults(cfg: Config, subs: map<int, Req>, s: Rt, i: nat)
    requires TokenInv(cfg, subs, s) && s.batch != [] && i < |AfterSettle(s).results|
    ensures ResultOk(cfg, subs, AfterSettle(s).results[i])
  {
    if i < |s.results| {
      assert ResultOk(cfg, subs, s.results[i]);
    } else {
      SettledHead(cfg, subs, s) by { assert BatchOk(cfg, subs, s, s.batch[0].0, s.batch[0].1); }
    }
  }

  lemma SettleKeepsTokens(cfg: Config, subs: map<int, Req>, s: Rt)
    requires TokenInv(cfg, subs, s) && s.batch != []
    ensures TokenInv(cfg, subs, AfterSettle(s))
  {
    SettledState(cfg, subs, s, AfterSettle(s));
  }

  lemma SettledState(cfg: Config, subs: map<int, Req>, s: Rt, n: Rt)
    requires TokenInv(cfg, subs, s) && s.batch != [] && n == AfterSettle(s)
    ensures TokenInv(cfg, subs, n)
  {
    SettleKeepsIds(s);
    forall q | q in n.prefillQ || q in n.prefilled || q in n.decodeQ ensures QueuedOk(cfg, subs, n, q) {
      SettleKeepsQueues(cfg, subs, s, q);
    }
    forall i | 0 <= i < |n.batch| ensures BatchOk(cfg, subs, n, n.batch[i].0, n.batch[i].1) {
      SettleKeepsBatched(cfg, subs, s, i);
    }
    forall i | 0 <= i < |n.results| ensures ResultOk(cfg, subs, n.results[i]) {
      SettleKeepsResults(cfg, subs, s, i);
    }
  }

  lemma StepPrefillKeepsTokens(cfg: Config, subs: map<int, Req>, s: Rt)
    requires s.cache.pageSize >= 1 && TokenInv(cfg, subs, s) && s.prefillQ != []
    ensures TokenInv(cfg, subs, AfterPrefill(s, PrefillOne(cfg, s.cache, s.prefillQ[0])))
  {
    PrefillTokens(cfg, s.cache, s.prefillQ[0]);
    PrefillKeepsTokens(cfg, subs, s, PrefillOne(cfg, s.cache, s.prefillQ[0]));
  }

  lemma StepDecodeKeepsTokens(cfg: Config, subs: map<int, Req>, s: Rt)
    requires GoodBlocks(cfg) && s.cache.pageSize >= 1 && TokenInv(cfg, subs, s)
    requires s.stage.Decoding? && s.stage.slots > 0 && s.decodeQ != []
    ensures TokenInv(cfg, subs, AfterDecode(s, DecodeOne(cfg, s.cache, s.decodeQ[0])))
  {
    DecodeTokens(cfg, s.cache, s.decodeQ[0]);
    DecodeKeepsTokens(cfg, subs, s, DecodeOne(cfg, s.cache, s.decodeQ[0]));
  }

  lemma StepKeepsTokens(cfg: Config, subs: map<int, Req>, s: Rt)
    requires GoodBlocks(cfg) && s.cache.pageSize >= 1 && TokenInv(cfg, subs, s)
    ensures TokenInv(cfg, subs, Step(cfg, s))
  {
    if s.stage.Prefilling? && s.prefillQ != [] {
      StepPrefillKeepsTokens(cfg, subs, s);
    } else if s.stage.Enqueuing? && s.prefilled != [] {
      EnqueueKeepsTokens(cfg, subs, s);
    } else if s.stage.Decoding? && s.stage.slots > 0 && s.decodeQ != [] {
      StepIsDecode(cfg, s);
      StepDecodeKeepsTokens(cfg, subs, s);
    } else if s.stage.Settling? && s.batch != [] {
      SettleKeepsTokens(cfg, subs, s);
    } else {
      StageMoveKeepsTokens(cfg, subs, s, Step(cfg, s).stage);
    }
  }

  lemma StageMoveKeepsTokens(cfg: Config, subs: map<int, Req>, s: Rt, stage: Stage)
    requires TokenInv(cfg, subs, s)
    ensures TokenInv(cfg, subs, s.(stage := stage))
  {
    var n := s.(stage := stage);
    assert IdBag(n) == IdBag(s);
    forall q | q in n.prefillQ || q in n.prefilled || q in n.decodeQ ensures QueuedOk(cfg, subs, n, q) {
      assert QueuedOk(cfg, subs, s, q);
    }
    forall i | 0 <= i < |n.batch| ensures BatchOk(cfg, subs, n, n.batch[i].0, n.batch[i].1) {
      assert BatchOk(cfg, subs, s, s.batch[i].0, s.batch[i].1);
    }
  }

  // --------------------------------------------------------------- main results

  /** A request as submitted: nothing committed, not finished. */
  ghost predicate FreshRequest(cfg: Config, r: Req) {
    !r.finished && r.committed == [] && GoodWidth(cfg, r)
  }

  /** The submitted requests by id. */
  ghost function Submissions(q: seq<Req>): map<int, Req> {
    if q == [] then map[] else Submissions(q[..|q| - 1])[q[|q| - 1].requestId := q[|q| - 1]]
  }

  lemma {:induction false} SubmissionsAre(q: seq<Req>)
    requires NoDup(IdsOf(q))
    ensures forall i :: 0 <= i < |q| ==> q[i].requestId in Submissions(q) && Submissions(q)[q[i].requestId] == q[i]
    ensures forall x :: x in Submissions(q) ==> exists i :: 0 <= i < |q| && q[i].requestId == x
  {
    if q != [] {
      var k := |q| - 1;
      assert IdsOf(q[..k]) == IdsOf(q)[..k];
      SubmissionsAre(q[..k]);
      forall i | 0 <= i < k ensures q[i].requestId != q[k].requestId {
        assert IdsOf(q)[i] == q[i].requestId && IdsOf(q)[k] == q[k].requestId;
      }
      forall x | x in Submissions(q) ensures exists i :: 0 <= i < |q| && q[i].requestId == x {
        if x in Submissions(q[..k]) {
          var i :| 0 <= i < |q[..k]| && q[..k][i].requestId == x;
          assert q[i].requestId == x;
        } else {
          assert q[k].requestId == x;
        }
      }
    }
  }

  lemma {:induction false} NoDupBag(s: seq<int>)
    requires NoDup(s)
    ensures forall x :: multiset(s)[x] <= 1
  {
    if s != [] {
      var k := |s| - 1;
      NoDupBag(s[..k]);
      assert s == s[..k] + [s[k]];
      assert s[k] !in s[..k];
    }
  }

  lemma InitialTokens(cfg: Config, c: Cache, q: seq<Req>)
    requires NoDup(IdsOf(q)) && forall r :: r in q ==> FreshRequest(cfg, r)
    ensures TokenInv(cfg, Submissions(q), Initial(c, q))
    ensures IdBag(Initial(c, q)) == multiset(IdsOf(q))
  {
    var s := Initial(c, q);
    NoDupBag(IdsOf(q));
    SubmissionsAre(q);
    assert IdsOf([]) == [] && BatchReqs([]) == [] && ResultIds([]) == [];
    forall r | r in q ensures QueuedOk(cfg, Submissions(q), s, r) {
      var i :| 0 <= i < |q| && q[i] == r;
      InitialQueued(cfg, s, Submissions(q), r);
    }
  }

  lemma InitialQueued(cfg: Config, s: Rt, subs: map<int, Req>, r: Req)
    requires FreshRequest(cfg, r) && r.requestId in subs && subs[r.requestId] == r && s.traces == map[]
    ensures QueuedOk(cfg, subs, s, r)
  {
    assert Concat([]) + [] == r.committed;
  }

  lemma RunKeepsTokens(cfg: Config, subs: map<int, Req>, s: Rt, k: nat)
    requires GoodBlocks(cfg) && s.cache.pageSize >= 1 && TokenInv(cfg, subs, s)
    ensures TokenInv(cfg, subs, Iterate(cfg, s, k))
  {
    forall t: Rt | t.cache.pageSize >= 1 && TokenInv(cfg, subs, t) ensures TokenInv(cfg, subs, Step(cfg, t)) {
      StepKeepsTokens(cfg, subs, t);
    }
    RunKeeps(cfg, t => TokenInv(cfg, subs, t), s, k);
  }

  lemma RunKeepsIds(cfg: Config, s: Rt, k: nat)
    requires s.cache.pageSize >= 1
    ensures IdBag(Iterate(cfg, s, k)) == IdBag(s)
  {
    forall t: Rt | t.cache.pageSize >= 1 ensures IdBag(Step(cfg, t)) == IdBag(t) {
      StepKeepsIds(cfg, t);
    }
    RunKeeps(cfg, t => IdBag(t) == IdBag(s), s, k);
  }

  /** The runtime is between rounds or done: nothing prefilled or batched is left over. */
  ghost predicate Tidy(s: Rt) {
    && (s.stage in {Top, Returned, Prefilling, Enqueuing} ==> s.batch == [])
    && (!s.stage.Prefilling? && !s.stage.Enqueuing? && !s.stage.Raised? ==> s.prefilled == [])
    && (!s.stage.Top? && !s.stage.Prefilling? && !s.stage.Raised? ==> s.prefillQ == [])
    && (s.stage.Returned? ==> s.decodeQ == [])
  }

  lemma StepTidy(cfg: Config, s: Rt)
    requires s.cache.pageSize >= 1 && Tidy(s)
    ensures Tidy(Step(cfg, s))
  {}

  lemma RunTidy(cfg: Config, s: Rt, k: nat)
    requires s.cache.pageSize >= 1 && Tidy(s)
    ensures Tidy(Iterate(cfg, s, k))
  {
    forall t: Rt | t.cache.pageSize >= 1 && Tidy(t) ensures Tidy(Step(cfg, t)) {
      StepTidy(cfg, t);
    }
    RunKeeps(cfg, t => Tidy(t), s, k);
  }

  /**
   Each request is reported exactly once, with admissible tokens that its traces account
   for, as preempted exactly if it took more than one decode step, and with block sizes
   that follow from the acceptances recorded before them.
   */
  ghost predicate EachReportedOnce(cfg: Config, q: seq<Req>, rs: seq<DecodeResult>) {
    && multiset(ResultIds(rs)) == multiset(IdsOf(q))
    && forall i, j :: 0 <= i < |rs| && 0 <= j < |q| && rs[i].requestId == q[j].requestId ==>
         && FinalTokens(cfg, q[j], rs[i].committed) && Walked(cfg, q[j], rs[i].traces)
         && PacedTraces(cfg, q[j].ema, rs[i].traces)
         && Concat(rs[i].traces) == rs[i].committed && rs[i].prompt == q[j].prompt
         && (rs[i].wasPreempted <==> q[j].wasPreempted || |rs[i].traces| > 1)
  }

  /** Every run that returns reports each submitted request exactly once. */
  lemma RunReturns(cfg: Config, c: Cache, q: seq<Req>, k: nat)
    requires GoodBlocks(cfg) && c.pageSize >= 1
    requires NoDup(IdsOf(q)) && forall r :: r in q ==> FreshRequest(cfg, r)
    requires Iterate(cfg, Initial(c, q), k).stage.Returned?
    ensures EachReportedOnce(cfg, q, Iterate(cfg, Initial(c, q), k).results)
  {
    var s := Iterate(cfg, Initial(c, q), k);
    InitialTokens(cfg, c, q);
    RunKeepsTokens(cfg, Submissions(q), Initial(c, q), k);
    RunKeepsIds(cfg, Initial(c, q), k);
    RunTidy(cfg, Initial(c, q), k);
    SubmissionsAre(q);
    assert IdsOf([]) == [] && BatchReqs([]) == [];
    forall i, j | 0 <= i < |s.results| && 0 <= j < |q| && s.results[i].requestId == q[j].requestId
      ensures FinalTokens(cfg, q[j], s.results[i].committed) && Walked(cfg, q[j], s.results[i].traces)
      ensures PacedTraces(cfg, q[j].ema, s.results[i].traces)
      ensures Concat(s.results[i].traces) == s.results[i].committed
      ensures s.results[i].prompt == q[j].prompt
      ensures s.results[i].wasPreempted <==> q[j].wasPreempted || |s.results[i].traces| > 1
    {
      assert ResultOk(cfg, Submissions(q), s.results[i]);
    }
  }

  /** `sorted(results, key=request_id)`: stable, ascending. */
  function InsertResult(r: DecodeResult, rs: seq<DecodeResult>): (t: seq<DecodeResult>)
    ensures |t| == |rs| + 1
  {
    if rs == [] || r.requestId < rs[|rs| - 1].requestId
    then (if rs == [] then [r] else InsertResult(r, rs[..|rs| - 1]) + [rs[|rs| - 1]])
    else rs + [r]
  }

  function SortResults(rs: seq<DecodeResult>): (t: seq<DecodeResult>)
    ensures |t| == |rs|
  {
    if rs == [] then [] else InsertResult(rs[|rs| - 1], SortResults(rs[..|rs| - 1]))
  }

  ghost predicate ById(rs: seq<DecodeResult>) {
    forall i, j :: 0 <= i < j < |rs| ==> rs[i].requestId <= rs[j].requestId
  }

  /** A sorted list stays sorted when something no smaller is put behind it. */
  lemma LastById(rs: seq<DecodeResult>, r: DecodeResult)
    requires ById(rs) && forall x :: x in rs ==> x.requestId <= r.requestId
    ensures ById(rs + [r])
  {
    forall i | 0 <= i < |rs| ensures rs[i].requestId <= r.requestId {
      assert rs[i] in rs;
    }
  }

  lemma {:induction false} InsertResultMembers(r: DecodeResult, rs: seq<DecodeResult>)
    ensures forall x :: x in InsertResult(r, rs) <==> x == r || x in rs
    ensures multiset(InsertResult(r, rs)) == multiset(rs) + multiset{r}
  {
    if rs != [] && r.requestId < rs[|rs| - 1].requestId {
      var k := |rs| - 1;
      InsertResultMembers(r, rs[..k]);
      assert rs == rs[..k] + [rs[k]];
    }
  }

  lemma {:induction false} InsertResultFacts(r: DecodeResult, rs: seq<DecodeResult>)
    requires ById(rs)
    ensures ById(InsertResult(r, rs)) && multiset(InsertResult(r, rs)) == multiset(rs) + multiset{r}
  {
    InsertResultMembers(r, rs);
    if rs == [] || r.requestId >= rs[|rs| - 1].requestId {
      LastById(rs, r);
    } else {
      var k := |rs| - 1;
      InsertResultFacts(r, rs[..k]);
      InsertResultMembers(r, rs[..k]);
      LastById(InsertResult(r, rs[..k]), rs[k]);
    }
  }

  /** Sorting orders the results by id and neither loses nor invents any. */
  lemma {:induction false} SortResultsFacts(rs: seq<DecodeResult>)
    ensures ById(SortResults(rs)) && multiset(SortResults(rs)) == multiset(rs)
  {
    if rs != [] {
      var k := |rs| - 1;
      SortResultsFacts(rs[..k]);
      InsertResultFacts(rs[k], SortResults(rs[..k]));
      assert rs == rs[..k] + [rs[k]];
    }
  }

  lemma {:induction false} InsertResultIds(r: DecodeResult, rs: seq<DecodeResult>)
    ensures multiset(ResultIds(InsertResult(r, rs))) == multiset(ResultIds(rs)) + multiset{r.requestId}
  {
    if rs != [] && r.requestId < rs[|rs| - 1].requestId {
      var k := |rs| - 1;
      InsertResultIds(r, rs[..k]);
      ResultIdsSnoc(InsertResult(r, rs[..k]), rs[k]);
      ResultIdsSnoc(rs[..k], rs[k]);
      assert rs == rs[..k] + [rs[k]];
    } else {
      ResultIdsSnoc(rs, r);
    }
  }

  lemma {:induction false} SortResultIds(rs: seq<DecodeResult>)
    ensures multiset(ResultIds(SortResults(rs))) == multiset(ResultIds(rs))
  {
    if rs != [] {
      var k := |rs| - 1;
      SortResultIds(rs[..k]);
      InsertResultIds(rs[k], SortResults(rs[..k]));
      ResultIdsSnoc(rs[..k], rs[k]);
      assert rs == rs[..k] + [rs[k]];
    }
  }

  /** What was reported is the same once sorted. */
  lemma SortedReport(cfg: Config, q: seq<Req>, rs: seq<DecodeResult>)
    requires EachReportedOnce(cfg, q, rs)
    ensures EachReportedOnce(cfg, q, SortResults(rs)) && ById(SortResults(rs))
    ensures ReturnsGoals(q, rs) ==> ReturnsGoals(q, SortResults(rs))
  {
    var ts := SortResults(rs);
    SortResultsFacts(rs);
    SortResultIds(rs);
    forall i | 0 <= i < |ts| ensures ts[i] in rs {
      assert ts[i] in multiset(ts);
    }
  }

  /** Each result is the request's whole goal. */
  ghost predicate ReturnsGoals(q: seq<Req>, rs: seq<DecodeResult>) {
    forall i, j :: 0 <= i < |rs| && 0 <= j < |q| && rs[i].requestId == q[j].requestId ==>
      rs[i].committed == q[j].target[..Goal(q[j])]
  }

  /** Lossless speculation: exactly the goal comes back, and the traces concatenate to it. */
  lemma Lossless(cfg: Config, c: Cache, q: seq<Req>, k: nat)
    requires GoodBlocks(cfg) && c.pageSize >= 1
    requires NoDup(IdsOf(q)) && forall r :: r in q ==> FreshRequest(cfg, r)
    requires forall r :: r in q ==> r.maxNew >= 1 && EosOnlyLast(r)
    requires Iterate(cfg, Initial(c, q), k).stage.Returned?
    ensures ReturnsGoals(q, Iterate(cfg, Initial(c, q), k).results)
    ensures EachReportedOnce(cfg, q, Iterate(cfg, Initial(c, q), k).results)
  {
    RunReturns(cfg, c, q, k);
    var rs := Iterate(cfg, Initial(c, q), k).results;
    forall i, j | 0 <= i < |rs| && 0 <= j < |q| && rs[i].requestId == q[j].requestId
      ensures rs[i].committed == q[j].target[..Goal(q[j])]
    {
      assert q[j] in q;
      FinalIsGoal(cfg, q[j], rs[i].committed);
    }
  }

  lemma FinalIsGoal(cfg: Config, r: Req, tokens: seq<int>)
    requires FinalTokens(cfg, r, tokens) && r.maxNew >= 1 && EosOnlyLast(r)
    ensures tokens == r.target[..Goal(r)]
  {
    var n := |tokens|;
    assert tokens == r.target[..n];
    assert forall i :: 0 <= i < n ==> tokens[i] == r.target[i];
  }
}
