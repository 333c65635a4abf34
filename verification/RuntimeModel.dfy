/**
 The persistent decode runtime as a state machine: prefilling one request,
 decoding one request, and the steps of the run loop that schedules them.
 */
module RuntimeModel {
  import opened Sequences
  import opened KvCacheModel
  import opened KvTable
  import opened Requests
  import opened SpecDecode
  import opened Ranking

  datatype Config = Config(
    blockSize: int, proposerEos: int, numLayers: nat, decodeWorkers: nat, pinReady: bool,
    acceptance: AcceptancePolicy, adaptive: Option<AdaptivePolicy>, sparseTopK: Option<int>)

  datatype Trace = Trace(
    proposed: seq<int>, accepted: seq<int>, usedFallback: bool, blockSizeUsed: int, selected: seq<int>)

  datatype DecodeResult = DecodeResult(
    requestId: int, prompt: seq<int>, committed: seq<int>, traces: seq<Trace>, wasPreempted: bool, rehydrations: int)

  // ------------------------------------------------------------------- prefill

  datatype PrefillOutcome = PrefillRaised(cache: Cache, req: Req) | Prefilled(cache: Cache, req: Req)

  function WithSnapshot(r: Req, m: map<int, seq<int>>): Req {
    r.(snapshot := Some(KVSnapshot(r.requestId, m, |r.prompt|)))
  }

  /** `PrefillWorker.process`. */
  function PrefillOne(cfg: Config, c: Cache, r: Req): PrefillOutcome
    requires c.pageSize >= 1
  {
    match Allocate(c, r.requestId, r.layers, |r.prompt|, cfg.pinReady)
    case Refused(d) => PrefillRaised(d, r.(phase := Prefill))
    case Granted(d) =>
      var m := LayerMap(d, r.requestId, r.layers);
      Prefilled(Touch(d, FlattenMap(m, r.layers)), WithSnapshot(r, m).(phase := ReadyDecode))
  }

  // -------------------------------------------------------------------- decode

  /** `has_snapshot`. */
  predicate HasSnapshot(c: Cache, r: Req) {
    r.snapshot.Some? && forall id :: id in KvPageIds(r) ==> id in c.pages
  }

  datatype Rehydration = RehydrationRaised(cache: Cache) | Resident(cache: Cache, req: Req)

  /** The tokens a request holds once `n` more are committed. */
  function TotalWith(r: Req, n: int): int { |r.prompt| + |r.committed| + n }

  /** Everything of the request is dropped and allocated anew. */
  function Rebuilt(c: Cache, r: Req): AllocResult
    requires c.pageSize >= 1
  {
    Allocate(Release(c, r.requestId), r.requestId, r.layers, TotalWith(r, 0), true)
  }

  function AfterRebuild(r: Req, a: AllocResult): Rehydration {
    match a
    case Refused(d) => RehydrationRaised(d)
    case Granted(d) =>
      Resident(d, WithSnapshot(r, LayerMap(d, r.requestId, r.layers)).(rehydrations := r.rehydrations + 1))
  }

  /** `_rehydrate_if_needed`. */
  function Rehydrate(c: Cache, r: Req): Rehydration
    requires c.pageSize >= 1
  {
    if HasSnapshot(c, r) then Resident(c, r) else AfterRebuild(r, Rebuilt(c, r))
  }

  /** The pages a sparse selection ranks: committed, not draft. */
  function ActiveIds(c: Cache, rid: int): set<int> {
    set id | id in c.pages && c.pages[id].requestId == rid && c.pages[id].isCommitted && !c.pages[id].isDraft
  }

  function Abs(x: int): int { if x < 0 then -x else x }

  /** `_score_page`, over the integers. */
  function PageScore(g: KVPage, decodeTokens: int): int {
    g.tokenCount * 10000 - Abs(g.tokenStart + g.tokenCount - decodeTokens) * 100 - g.layerId
  }

  /** The sort key of the selector: descending score, then layer, first token and page id. */
  predicate RanksBefore(a: KVPage, b: KVPage, decodeTokens: int) {
    var x, y := PageScore(a, decodeTokens), PageScore(b, decodeTokens);
    if x != y then x > y
    else if a.layerId != b.layerId then a.layerId < b.layerId
    else if a.tokenStart != b.tokenStart then a.tokenStart < b.tokenStart
    else a.pageId < b.pageId
  }

  function SelectionOrder(c: Cache, decodeTokens: int): Order {
    (a: int, b: int) => a in c.pages && b in c.pages && RanksBefore(c.pages[a], c.pages[b], decodeTokens)
  }

  /** The page ids `SparseKVSelector.select` returns. */
  function SelectSparse(c: Cache, r: Req, topK: int): seq<int> {
    Take(Sort(SelectionOrder(c, |r.prompt| + |r.committed|), Within(c.lru, ActiveIds(c, r.requestId))), topK)
  }

  /** The pages one decode iteration reads. */
  function DecodePages(cfg: Config, c: Cache, r: Req): seq<int> {
    var sparse := if cfg.sparseTopK.Some? then SelectSparse(c, r, cfg.sparseTopK.value) else [];
    if sparse != [] then sparse else KvPageIds(r)
  }

  datatype Decision = Decision(proposed: seq<int>, accepted: seq<int>, fallback: bool, blockAccepted: nat,
                               blockProposed: nat)

  /** One block proposed and verified. */
  function TryBlock(cfg: Config, r: Req, width: int): (seq<int>, nat) {
    var p := Propose(r, width, cfg.proposerEos);
    (p, AcceptLength(r, p, Remaining(r), cfg.acceptance))
  }

  function BlockWidth(cfg: Config, r: Req): int { if cfg.adaptive.Some? then r.blockSize else cfg.blockSize }

  /** Propose, verify, and fall back to a single token when a longer block is rejected outright. */
  function Decide(cfg: Config, r: Req): Decision {
    var (p, n) := TryBlock(cfg, r, BlockWidth(cfg, r));
    if n == 0 && |p| > 1 then
      var (q, m) := TryBlock(cfg, r, 1);
      Decision(q, Prefix(q, m), true, n, |p|)
    else Decision(p, Prefix(p, n), false, n, |p|)
  }

  function Adapt(cfg: Config, c: Cache, r: Req, d: Decision): Req {
    if cfg.adaptive.Some?
    then UpdateBlockSize(r, d.blockAccepted, d.blockProposed, cfg.adaptive.value, UnderPressure(c)) else r
  }

  /** The explicit eviction before a commit that `can_allocate` refuses. */
  function MakeSpace(c: Cache, rid: int, layers: seq<int>, total: int): Cache
    requires c.pageSize >= 1
  {
    if CanAllocate(c, rid, layers, total) then c else Evict(c, Needed(c, rid, layers, total))
  }

  /** The commit part of `DecodeWorker.process`. */
  function CommitAccepted(c: Cache, r: Req, n: int): AllocResult
    requires c.pageSize >= 1
  {
    Commit(MakeSpace(c, r.requestId, r.layers, TotalWith(r, n)), r.requestId, r.layers, TotalWith(r, n), true)
  }

  predicate Finishes(r: Req, d: Decision) {
    || BudgetLeft(r) == 0
    || (d.accepted != [] && d.accepted[|d.accepted| - 1] == r.eos)
    || |r.committed| >= |r.target|
    || (d.accepted == [] && |d.proposed| == 1)
  }

  datatype DecodeOutcome = DecodeRaised(cache: Cache, req: Req) | Decoded(cache: Cache, req: Req, trace: Trace)

  /** What a request looks like after its accepted tokens are committed, and before the finish test. */
  function Committed(r: Req, accepted: seq<int>, m: map<int, seq<int>>): Req {
    if accepted == [] then r else WithSnapshot(r.(committed := r.committed + accepted), m)
  }

  /** The end of `DecodeWorker.process`: finish and unpin, or hand the request back. */
  function Wrap(cfg: Config, c: Cache, r: Req, d: Decision, ids: seq<int>, width: int): DecodeOutcome {
    var t := Trace(d.proposed, d.accepted, d.fallback, width, ids);
    if Finishes(r, d) then
      Decoded(SetPinned(c, KvPageIds(r), false), r.(phase := Finished, finished := true), t)
    else
      Decoded(if cfg.pinReady then c else SetPinned(c, ids, false),
              r.(phase := ReadyDecode, wasPreempted := true), t)
  }

  /** The commit came out as `a`. */
  function AfterCommit(cfg: Config, a: AllocResult, r: Req, d: Decision, ids: seq<int>, width: int): DecodeOutcome {
    match a
    case Refused(c) => DecodeRaised(c, r)
    case Granted(c) => Wrap(cfg, c, Committed(r, d.accepted, LayerMap(c, r.requestId, r.layers)), d, ids, width)
  }

  /** Commits what was accepted, if anything, and wraps up. */
  function CommitAndWrap(cfg: Config, c: Cache, r: Req, d: Decision, ids: seq<int>, width: int): DecodeOutcome
    requires c.pageSize >= 1
  {
    if d.accepted == [] then Wrap(cfg, c, r, d, ids, width)
    else AfterCommit(cfg, CommitAccepted(c, r, |d.accepted|), r, d, ids, width)
  }

  /** The pages of this iteration are pinned and touched. */
  function ReadPages(c: Cache, ids: seq<int>): Cache { Touch(SetPinned(c, ids, true), ids) }

  /** `DecodeWorker.process` from a resident request on; the tokens do not depend on the cache. */
  function DecodeResident(cfg: Config, c: Cache, r: Req): DecodeOutcome
    requires c.pageSize >= 1
  {
    var ids := DecodePages(cfg, c, r);
    var d := Decide(cfg, r);
    var c1 := ReadPages(c, ids);
    SettingsKeptByRead(c, ids);
    CommitAndWrap(cfg, c1, Adapt(cfg, c1, r.(draft := d.proposed), d), d, ids, BlockWidth(cfg, r))
  }

  /** `DecodeWorker.process`. */
  function DecodeOne(cfg: Config, c: Cache, r: Req): DecodeOutcome
    requires c.pageSize >= 1
  {
    var r0 := r.(phase := Decode);
    match Rehydrate(c, r0)
    case RehydrationRaised(d) => DecodeRaised(d, r0)
    case Resident(d, r1) => SettingsKeptByRehydrate(c, r0); DecodeResident(cfg, d, r1)
  }

  lemma {:induction false} SettingsKeptByTouch(c: Cache, ids: seq<int>)
    ensures Touch(c, ids) == c.(lru := Touch(c, ids).lru, accesses := Touch(c, ids).accesses,
                                    hits := Touch(c, ids).hits)
    decreases |ids|
  {
    if ids != [] {
      SettingsKeptByTouch(TouchOne(c, ids[0]), ids[1..]);
    }
  }

  predicate SameSettings(c: Cache, d: Cache) {
    d.pageSize == c.pageSize && d.maxPages == c.maxPages && d.bytesPerToken == c.bytesPerToken
  }

  lemma SettingsKeptByEvict(c: Cache, n: int)
    ensures SameSettings(c, Evict(c, n))
  {}

  lemma SettingsKeptByRelease(c: Cache, rid: int)
    ensures SameSettings(c, Release(c, rid))
  {}

  lemma SettingsKeptByAllocate(c: Cache, rid: int, layers: seq<int>, total: int, pin: bool)
    requires c.pageSize >= 1
    ensures SameSettings(c, Allocate(c, rid, layers, total, pin).cache)
  {
    var n := Deficit(c, rid, layers, total);
    SettingsKeptByEvict(c, n);
    SettingsKeptLayers(if n > 0 then Evict(c, n) else c, rid, layers, total, pin);
  }

  lemma SettingsKeptByRehydrate(c: Cache, r: Req)
    requires c.pageSize >= 1
    ensures SameSettings(c, Rehydrate(c, r).cache)
  {
    var d := Release(c, r.requestId);
    SettingsKeptByRelease(c, r.requestId);
    SettingsKeptByAllocate(d, r.requestId, r.layers, TotalWith(r, 0), true);
  }

  lemma SettingsKeptByCommit(c: Cache, rid: int, layers: seq<int>, total: int)
    requires c.pageSize >= 1
    ensures SameSettings(c, Commit(c, rid, layers, total, true).cache)
  {
    SettingsKeptByAllocate(c, rid, layers, total, true);
  }

  lemma SettingsKeptByMakeSpace(c: Cache, rid: int, layers: seq<int>, total: int)
    requires c.pageSize >= 1
    ensures SameSettings(c, MakeSpace(c, rid, layers, total))
  {
    SettingsKeptByEvict(c, Needed(c, rid, layers, total));
  }

  lemma SettingsKeptByRead(c: Cache, ids: seq<int>)
    ensures SameSettings(c, ReadPages(c, ids))
  {
    SettingsKeptByTouch(SetPinned(c, ids, true), ids);
  }

  lemma SettingsKeptByWrap(cfg: Config, c: Cache, r: Req, d: Decision, ids: seq<int>, width: int)
    requires c.pageSize >= 1
    ensures SameSettings(c, CommitAndWrap(cfg, c, r, d, ids, width).cache)
  {
    var total := TotalWith(r, |d.accepted|);
    SettingsKeptByMakeSpace(c, r.requestId, r.layers, total);
    SettingsKeptByCommit(MakeSpace(c, r.requestId, r.layers, total), r.requestId, r.layers, total);
  }

  lemma SettingsKeptByResident(cfg: Config, c: Cache, r: Req)
    requires c.pageSize >= 1
    ensures SameSettings(c, DecodeResident(cfg, c, r).cache)
  {
    var ids := DecodePages(cfg, c, r);
    var d := Decide(cfg, r);
    var c1 := ReadPages(c, ids);
    SettingsKeptByRead(c, ids);
    SettingsKeptByWrap(cfg, c1, Adapt(cfg, c1, r.(draft := d.proposed), d), d, ids, BlockWidth(cfg, r));
  }

  // ---------------------------------------------------------- queues and the loop

  /** The stable max-priority queue: behind every request of at least the same priority. */
  function Push(q: seq<Req>, r: Req): seq<Req> {
    if q == [] || q[|q| - 1].priority >= r.priority then q + [r]
    else Push(q[..|q| - 1], r) + [q[|q| - 1]]
  }

  /** Where the run loop stands. */
  datatype Stage = Top | Prefilling | Enqueuing | Decoding(slots: nat) | Settling | Returned | Raised

  datatype Rt = Rt(
    stage: Stage, prefillQ: seq<Req>, prefilled: seq<Req>, decodeQ: seq<Req>, batch: seq<(Req, Trace)>,
    cache: Cache, traces: map<int, seq<Trace>>, results: seq<DecodeResult>, decodeSteps: nat)

  /** `submit`: default layers, and the adaptive policy's starting values. */
  function Submitted(cfg: Config, r: Req): Req {
    var r1 := if r.layers == [] then r.(layers := Range(0, cfg.numLayers)) else r;
    if cfg.adaptive.Some? then r1.(blockSize := cfg.blockSize, ema := 0.80, blockHistory := [cfg.blockSize]) else r1
  }

  function TracesOf(s: Rt, rid: int): seq<Trace> { if rid in s.traces then s.traces[rid] else [] }

  /** `_build_result`. */
  function BuildResult(r: Req, traces: seq<Trace>): DecodeResult {
    DecodeResult(r.requestId, r.prompt, r.committed, traces, r.wasPreempted, r.rehydrations)
  }

  predicate Done(s: Rt) { s.stage.Returned? || s.stage.Raised? }

  /** The head of the prefill queue comes out of prefill with outcome `o`. */
  function AfterPrefill(s: Rt, o: PrefillOutcome): Rt
    requires s.prefillQ != []
  {
    match o
    case PrefillRaised(c, _) => s.(stage := Raised, cache := c)
    case Prefilled(c, r) => s.(prefillQ := s.prefillQ[1..], prefilled := s.prefilled + [r], cache := c)
  }

  /** The next prefilled request joins the decode queue. */
  function AfterEnqueue(s: Rt): Rt
    requires s.prefilled != []
  {
    s.(decodeQ := Push(s.decodeQ, s.prefilled[0]), prefilled := s.prefilled[1..])
  }

  /** The head of the decode queue comes out of a decode step with outcome `o`. */
  function AfterDecode(s: Rt, o: DecodeOutcome): Rt
    requires s.stage.Decoding? && s.stage.slots > 0 && s.decodeQ != []
  {
    match o
    case DecodeRaised(c, _) => s.(stage := Raised, cache := c)
    case Decoded(c, r, t) =>
      s.(stage := Decoding(s.stage.slots - 1), decodeQ := s.decodeQ[1..], batch := s.batch + [(r, t)], cache := c,
         decodeSteps := s.decodeSteps + 1)
  }

  /** The first result of the batch is settled: traced, then reported and released, or queued again. */
  function AfterSettle(s: Rt): Rt
    requires s.batch != []
  {
    var (r, t) := s.batch[0];
    var ts := TracesOf(s, r.requestId) + [t];
    var s1 := s.(traces := s.traces[r.requestId := ts], batch := s.batch[1..]);
    if r.finished
    then s1.(results := s.results + [BuildResult(r, ts)], cache := Release(s.cache, r.requestId))
    else s1.(decodeQ := Push(s.decodeQ, r))
  }

  /** One step of `run`: a loop test, one prefill, one enqueue, one decode, or one settled result. */
  function Step(cfg: Config, s: Rt): Rt
    requires s.cache.pageSize >= 1
  {
    match s.stage
    case Top => s.(stage := if s.prefillQ == [] && s.decodeQ == [] then Returned else Prefilling)
    case Prefilling =>
      if s.prefillQ == [] then s.(stage := Enqueuing)
      else AfterPrefill(s, PrefillOne(cfg, s.cache, s.prefillQ[0]))
    case Enqueuing =>
      if s.prefilled == [] then s.(stage := Decoding(Min(|s.decodeQ|, cfg.decodeWorkers))) else AfterEnqueue(s)
    case Decoding(n) =>
      if n == 0 || s.decodeQ == [] then s.(stage := Settling)
      else AfterDecode(s, DecodeOne(cfg, s.cache, s.decodeQ[0]))
    case Settling => if s.batch == [] then s.(stage := Top) else AfterSettle(s)
    case Returned => s
    case Raised => s
  }

  /** The current stage has nothing left to do. */
  predicate StageDone(s: Rt) {
    match s.stage
    case Prefilling => s.prefillQ == []
    case Enqueuing => s.prefilled == []
    case Decoding(n) => n == 0 || s.decodeQ == []
    case Settling => s.batch == []
    case _ => true
  }

  function StageAfter(cfg: Config, s: Rt): Stage {
    match s.stage
    case Top => if s.prefillQ == [] && s.decodeQ == [] then Returned else Prefilling
    case Prefilling => Enqueuing
    case Enqueuing => Decoding(Min(|s.decodeQ|, cfg.decodeWorkers))
    case Decoding(_) => Settling
    case Settling => Top
    case end => end
  }

  lemma StepMovesOn(cfg: Config, s: Rt)
    requires s.cache.pageSize >= 1 && StageDone(s)
    ensures Step(cfg, s) == s.(stage := StageAfter(cfg, s))
  {}

  lemma StepIsDecode(cfg: Config, s: Rt)
    requires s.cache.pageSize >= 1 && s.stage.Decoding? && s.stage.slots > 0 && s.decodeQ != []
    ensures Step(cfg, s) == AfterDecode(s, DecodeOne(cfg, s.cache, s.decodeQ[0]))
  {}

  lemma StepKeepsPageSize(cfg: Config, s: Rt)
    requires s.cache.pageSize >= 1
    ensures SameSettings(s.cache, Step(cfg, s).cache)
  {
    match s.stage
    case Prefilling =>
      if s.prefillQ != [] {
        PrefillKeepsSettings(cfg, s.cache, s.prefillQ[0]);
      }
    case Decoding(n) =>
      if n > 0 && s.decodeQ != [] {
        DecodeKeepsSettings(cfg, s.cache, s.decodeQ[0]);
      }
    case _ =>
  }

  lemma PrefillKeepsSettings(cfg: Config, c: Cache, r: Req)
    requires c.pageSize >= 1
    ensures SameSettings(c, PrefillOne(cfg, c, r).cache)
  {
    SettingsKeptByAllocate(c, r.requestId, r.layers, |r.prompt|, cfg.pinReady);
    var d := Allocate(c, r.requestId, r.layers, |r.prompt|, cfg.pinReady).cache;
    SettingsKeptByTouch(d, FlattenMap(LayerMap(d, r.requestId, r.layers), r.layers));
  }

  lemma DecodeKeepsSettings(cfg: Config, c: Cache, r: Req)
    requires c.pageSize >= 1
    ensures SameSettings(c, DecodeOne(cfg, c, r).cache)
  {
    var r0 := r.(phase := Decode);
    SettingsKeptByRehydrate(c, r0);
    if Rehydrate(c, r0).Resident? {
      SettingsKeptByResident(cfg, Rehydrate(c, r0).cache, Rehydrate(c, r0).req);
    }
  }

  /** The state after `k` steps. */
  function Iterate(cfg: Config, s: Rt, k: nat): Rt
    requires s.cache.pageSize >= 1
    ensures SameSettings(s.cache, Iterate(cfg, s, k).cache)
  {
    if k == 0 then s
    else
      var p := Iterate(cfg, s, k - 1);
      StepKeepsPageSize(cfg, p);
      Step(cfg, p)
  }

  lemma IterateNext(cfg: Config, s: Rt, k: nat)
    requires s.cache.pageSize >= 1
    ensures Iterate(cfg, s, k + 1) == Step(cfg, Iterate(cfg, s, k))
  {}

  /** What holds at the start and is kept by every step holds in every reachable state. */
  lemma {:induction false} RunKeeps(cfg: Config, inv: Rt -> bool, s: Rt, k: nat)
    requires s.cache.pageSize >= 1 && inv(s)
    requires forall t: Rt {:trigger Step(cfg, t)} :: t.cache.pageSize >= 1 && inv(t) ==> inv(Step(cfg, t))
    ensures inv(Iterate(cfg, s, k))
  {
    if k > 0 {
      RunKeeps(cfg, inv, s, k - 1);
      assert inv(Step(cfg, Iterate(cfg, s, k - 1)));
    }
  }

  /** A fresh runtime with its submitted requests waiting for prefill. */
  function Initial(c: Cache, q: seq<Req>): Rt {
    Rt(Top, q, [], [], [], c, map[], [], 0)
  }
}
