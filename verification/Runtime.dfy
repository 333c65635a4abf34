/**
 The persistent decode runtime as an object: queues of requests, a shared cache,
 and the run loop, proved step by step against the state machine of RuntimeModel.
 */
module Runtime {
  import opened Arithmetic
  import opened Sequences
  import opened KvCacheModel
  import opened KvTable
  import opened KvCache
  import opened Requests
  import opened Backend
  import opened RuntimeModel
  import opened BlockWalk
  import opened RuntimeTokens
  import opened RuntimeResidency
  import opened RuntimeProgress
  import opened RuntimeCapacity
  import opened Workers

  ghost function Values(q: seq<RequestState>): (v: seq<Req>)
    reads q
    ensures |v| == |q| && forall i :: 0 <= i < |q| ==> v[i] == q[i].Value()
  {
    seq(|q|, i reads q requires 0 <= i < |q| => q[i].Value())
  }

  /** The stable max-priority queue over requests: the same walk as `Push`. */
  function PushRequest(q: seq<RequestState>, r: RequestState): (p: seq<RequestState>)
    ensures |p| == |q| + 1
  {
    if q == [] || q[|q| - 1].priority >= r.priority then q + [r]
    else PushRequest(q[..|q| - 1], r) + [q[|q| - 1]]
  }

  ghost predicate Excludes(q: seq<RequestState>, r: RequestState) {
    forall i :: 0 <= i < |q| ==> q[i] != r
  }

  lemma {:induction false} PushValues(q: seq<RequestState>, r: RequestState)
    ensures Values(PushRequest(q, r)) == Push(Values(q), r.Value())
    ensures forall x :: x in PushRequest(q, r) <==> x == r || x in q
  {
    if q != [] && q[|q| - 1].priority < r.priority {
      var k := |q| - 1;
      assert q == q[..k] + [q[k]];
      PushValues(q[..k], r);
      assert Values(q)[..k] == Values(q[..k]);
      assert PushRequest(q, r)[..|q|] == PushRequest(q[..k], r);
    } else {
      assert Values(q + [r]) == Values(q) + [r.Value()];
    }
  }

  /** The batch as the state machine sees it. */
  ghost predicate BatchIs(b: seq<(Req, Trace)>, requests: seq<RequestState>, traces: seq<Trace>)
    reads requests
  {
    |b| == |requests| == |traces| && forall i :: 0 <= i < |b| ==> b[i] == (requests[i].Value(), traces[i])
  }

  /** Every state reached from distinct submissions has distinct ids. */
  lemma ReachedDistinct(cfg: Config, s: Rt, k: nat)
    requires s.cache.pageSize >= 1 && NoDup(IdsOf(s.prefillQ)) && s == Initial(s.cache, s.prefillQ)
    ensures Distinct(Iterate(cfg, s, k))
  {
    NoDupBag(IdsOf(s.prefillQ));
    assert IdsOf([]) == [] && BatchReqs([]) == [] && ResultIds([]) == [];
    RunKeepsIds(cfg, s, k);
  }

  lemma PrefillHeadElsewhere(s: Rt, q: Req)
    requires Distinct(s) && s.prefillQ != []
    requires q in s.prefillQ[1..] || q in s.prefilled || q in s.decodeQ
    ensures q.requestId != s.prefillQ[0].requestId
  {
    var x := s.prefillQ[0].requestId;
    IdsHead(s.prefillQ);
    assert IdBag(s)[x] <= 1;
    if q in s.prefillQ[1..] { InIds(s.prefillQ[1..], q); }
    else if q in s.prefilled { InIds(s.prefilled, q); }
    else { InIds(s.decodeQ, q); }
  }

  /** In a chain of states, what a step keeps is kept from any point on. */
  lemma ChainKeeps(at: nat -> Rt, inv: Rt -> bool, k: nat, j: nat)
    requires k <= j && inv(at(k))
    requires forall n: nat :: inv(at(n)) ==> inv(at(n + 1))
    ensures inv(at(j))
  {
    CountUp((n: nat) => inv(at(n)), k, j);
  }

  /** A run that is done stays done. */
  lemma DoneStays(cfg: Config, s: Rt, k: nat, j: nat)
    requires s.cache.pageSize >= 1 && k <= j && Done(Iterate(cfg, s, k))
    ensures Done(Iterate(cfg, s, j))
  {
    forall n: nat | Done(Iterate(cfg, s, n)) ensures Done(Iterate(cfg, s, n + 1)) {
      IterateNext(cfg, s, n);
    }
    ChainKeeps((n: nat) => Iterate(cfg, s, n), t => Done(t), k, j);
  }

  /** What a returned run has reported, and what it leaves in the cache. */
  lemma ReturnedRun(cfg: Config, c: Cache, q: seq<Req>, k: nat)
    requires GoodBlocks(cfg) && FreshCache(c) && Submittable(cfg, q)
    requires Iterate(cfg, Initial(c, q), k).stage.Returned?
    ensures var s := Iterate(cfg, Initial(c, q), k);
      && EachReportedOnce(cfg, q, SortResults(s.results)) && ById(SortResults(s.results))
      && ((forall r :: r in q ==> r.maxNew >= 1 && EosOnlyLast(r)) ==> ReturnsGoals(q, SortResults(s.results)))
      && s.cache.pages == map[] && s.cache.lru == []
  {
    RunReturns(cfg, c, q, k);
    if forall r :: r in q ==> r.maxNew >= 1 && EosOnlyLast(r) {
      Lossless(cfg, c, q, k);
    }
    SortedReport(cfg, q, Iterate(cfg, Initial(c, q), k).results);
    ReturnsEmpty(cfg, c, q, k);
  }

  lemma EmptyTable(t: map<LayerKey, seq<int>>, c: Cache)
    requires TableMatches(t, c) && c.pages == map[]
    ensures t == map[]
  {
    forall k | k in t ensures false {
      assert EntryMatches(t, c, k);
      WithinNone(AllIds(c), Under(c, k));
    }
  }

  /** An empty cache has all its counters at zero. */
  lemma EmptyCounters(c: Cache, live: int, pinned: int, used: int, capacity: int)
    requires Kept(c, live, pinned, used, capacity) && c.lru == [] && c.pages == map[]
    ensures live == 0 && pinned == 0 && used == 0 && capacity == 0
  {}

  class PersistentDecodeRuntime {
    const config: Config
    const kvCache: KVCache
    const backend: CPUStubBackend
    const prefillWorkers: seq<PrefillWorker>
    const decodeWorkers: seq<DecodeWorker>
    var prefillRr: nat
    var decodeRr: nat
    var prefillQueue: seq<RequestState>
    var decodeQueue: seq<RequestState>
    var traces: map<int, seq<Trace>>
    ghost var requests: set<RequestState>
    ghost var start: Rt
    ghost var current: Rt
    ghost var steps: nat

    /** The workers share the runtime's cache, backend and configuration. */
    ghost predicate Wired() {
      && |prefillWorkers| >= 1 && |decodeWorkers| == config.decodeWorkers >= 1
      && (forall i :: 0 <= i < |prefillWorkers| ==>
            prefillWorkers[i].config == config && prefillWorkers[i].kvCache == kvCache)
      && (forall i :: 0 <= i < |decodeWorkers| ==>
            && decodeWorkers[i].config == config && decodeWorkers[i].kvCache == kvCache
            && decodeWorkers[i].backend == backend)
    }

    ghost predicate Owns(q: seq<RequestState>)
      reads this
    {
      forall r :: r in q ==> r in requests
    }

    ghost predicate Valid()
      reads this, kvCache
    {
      Wired() && kvCache.Valid() && Owns(prefillQueue) && Owns(decodeQueue)
    }

    /** The part of `Mirrors` that is about queues, cache and traces. */
    ghost predicate Reflects(s: Rt)
      reads this, kvCache, prefillQueue, decodeQueue
    {
      && s.prefillQ == Values(prefillQueue) && s.decodeQ == Values(decodeQueue)
      && s.cache == kvCache.State() && s.traces == traces
    }

    /** `s` is what the runtime's objects currently amount to. */
    ghost predicate Mirrors(s: Rt, prefilled: seq<RequestState>, batch: seq<RequestState>, batchTraces: seq<Trace>)
      reads this, kvCache, prefillQueue, decodeQueue, prefilled, batch
    {
      Reflects(s) && s.prefilled == Values(prefilled) && BatchIs(s.batch, batch, batchTraces)
    }

    /** Of the runtime's requests only `r` may have changed. */
    twostate predicate OthersUnchanged(r: RequestState)
      reads this, requests
    {
      forall q :: q in old(requests) && q in requests && q != r ==> q.Value() == old(q.Value())
    }

    /** `current` is the state machine's state after `steps` steps of this run. */
    ghost predicate Tracked()
      reads this
    {
      && start.cache.pageSize >= 1 && NoDup(IdsOf(start.prefillQ)) && start == Initial(start.cache, start.prefillQ)
      && current.cache.pageSize >= 1 && current == Iterate(config, start, steps)
    }

    ghost method Advance()
      requires Tracked()
      modifies this`current, this`steps
      ensures Tracked() && current == Step(config, old(current)) && steps == old(steps) + 1
    {
      StepKeepsPageSize(config, current);
      current, steps := Step(config, current), steps + 1;
    }

    /** The stage is done; the next one begins. */
    ghost method AdvanceStage()
      requires Tracked() && StageDone(current)
      modifies this`current, this`steps
      ensures Tracked() && current == old(current).(stage := StageAfter(config, old(current))) && steps > old(steps)
    {
      StepMovesOn(config, current);
      Advance();
    }

    ghost method AdvancePrefill(o: PrefillOutcome)
      requires Tracked() && current.stage.Prefilling? && current.prefillQ != []
      requires o == PrefillOne(config, current.cache, current.prefillQ[0])
      modifies this`current, this`steps
      ensures Tracked() && current == AfterPrefill(old(current), o) && steps > old(steps)
    {
      Advance();
    }

    ghost method AdvanceDecode(o: DecodeOutcome)
      requires Tracked() && current.stage.Decoding? && current.stage.slots > 0 && current.decodeQ != []
      requires o == DecodeOne(config, current.cache, current.decodeQ[0])
      modifies this`current, this`steps
      ensures Tracked() && current == AfterDecode(old(current), o) && steps > old(steps)
    {
      StepIsDecode(config, current);
      Advance();
    }

    ghost method AdvanceSettle()
      requires Tracked() && current.stage.Settling? && current.batch != []
      modifies this`current, this`steps
      ensures Tracked() && current == AfterSettle(old(current)) && steps > old(steps)
    {
      Advance();
    }

    constructor (config: Config, kvCache: KVCache, backend: CPUStubBackend, numPrefillWorkers: nat)
      requires config.decodeWorkers >= 1 && numPrefillWorkers >= 1 && kvCache.Valid()
      ensures Valid() && this.config == config && this.kvCache == kvCache && this.backend == backend
      ensures prefillQueue == [] && decodeQueue == [] && traces == map[] && requests == {}
    {
      var ps: seq<PrefillWorker> := [];
      while |ps| < numPrefillWorkers
        invariant |ps| <= numPrefillWorkers
        invariant forall i :: 0 <= i < |ps| ==> ps[i].config == config && ps[i].kvCache == kvCache
      {
        var w := new PrefillWorker(config, kvCache);
        ps := ps + [w];
      }
      var ds: seq<DecodeWorker> := [];
      while |ds| < config.decodeWorkers
        invariant |ds| <= config.decodeWorkers
        invariant forall i :: 0 <= i < |ds| ==>
          ds[i].config == config && ds[i].kvCache == kvCache && ds[i].backend == backend
      {
        var w := new DecodeWorker(config, kvCache, backend);
        ds := ds + [w];
      }
      this.config, this.kvCache, this.backend := config, kvCache, backend;
      prefillWorkers, decodeWorkers, prefillRr, decodeRr := ps, ds, 0, 0;
      prefillQueue, decodeQueue, traces, requests := [], [], map[], {};
      start, current, steps := Initial(kvCache.State(), []), Initial(kvCache.State(), []), 0;
    }

    /** The defaults that `submit` fills in. */
    method Prepare(request: RequestState)
      modifies request
      ensures request.Value() == Submitted(config, old(request.Value()))
    {
      if request.layerIds == [] {
        request.layerIds := Range(0, config.numLayers);
      }
      if config.adaptive.Some? {
        request.currentBlockSize, request.emaAcceptanceRate := config.blockSize, 0.80;
        request.blockSizeHistory := [config.blockSize];
      }
    }

    /** `submit`. */
    method Submit(request: RequestState)
      requires Valid() && request !in requests
      modifies this`prefillQueue, this`requests, request
      ensures Valid() && requests == old(requests) + {request}
      ensures request.Value() == Submitted(config, old(request.Value()))
      ensures Values(prefillQueue) == Push(old(Values(prefillQueue)), request.Value())
    {
      ghost var before := Values(prefillQueue);
      assert forall i :: 0 <= i < |prefillQueue| ==> prefillQueue[i] in requests;
      Prepare(request);
      requests := requests + {request};
      assert Values(prefillQueue) == before;
      PushValues(prefillQueue, request);
      ghost var after := Push(before, request.Value());
      prefillQueue := PushRequest(prefillQueue, request);
      assert Values(prefillQueue) == after;
    }

    /** Distinct ids: no other waiting object is the head of the prefill queue. */
    lemma PrefillHeadAlone(completed: seq<RequestState>)
      requires Tracked() && Mirrors(current, completed, [], []) && prefillQueue != []
      ensures Excludes(prefillQueue[1..], prefillQueue[0]) && Excludes(completed, prefillQueue[0])
      ensures Excludes(decodeQueue, prefillQueue[0])
    {
      ReachedDistinct(config, start, steps);
      forall i | 1 <= i < |prefillQueue| ensures prefillQueue[i] != prefillQueue[0] {
        assert current.prefillQ[1..][i - 1] == prefillQueue[i].Value();
        PrefillHeadElsewhere(current, prefillQueue[i].Value());
      }
      forall i | 0 <= i < |completed| ensures completed[i] != prefillQueue[0] {
        assert current.prefilled[i] == completed[i].Value();
        PrefillHeadElsewhere(current, completed[i].Value());
      }
      forall i | 0 <= i < |decodeQueue| ensures decodeQueue[i] != prefillQueue[0] {
        assert current.decodeQ[i] == decodeQueue[i].Value();
        PrefillHeadElsewhere(current, decodeQueue[i].Value());
      }
    }

    /** The next prefill worker in turn takes the request. */
    method RunPrefillWorker(request: RequestState) returns (ok: bool, ghost o: PrefillOutcome)
      requires Valid() && Tracked() && request in requests
      requires current.stage.Prefilling? && current.prefillQ != []
      requires current.cache == kvCache.State() && current.prefillQ[0] == request.Value()
      modifies this`prefillRr, this`current, this`steps, kvCache, request
      ensures Valid() && OthersUnchanged(request)
      ensures Tracked() && current == AfterPrefill(old(current), o) && steps > old(steps)
      ensures ok == o.Prefilled? && kvCache.State() == o.cache && request.Value() == o.req
    {
      var worker := prefillWorkers[prefillRr % |prefillWorkers|];
      prefillRr := prefillRr + 1;
      o := PrefillOne(config, current.cache, current.prefillQ[0]);
      AdvancePrefill(o);
      ok := worker.Process(request);
    }

    /** The head of the prefill queue is prefilled; every other request stays as it is. */
    method PrefillHead(completed: seq<RequestState>) returns (ok: bool, request: RequestState, ghost o: PrefillOutcome)
      requires Valid() && Tracked() && Mirrors(current, completed, [], []) && Owns(completed)
      requires current.stage.Prefilling? && prefillQueue != []
      modifies this`prefillQueue, this`prefillRr, this`current, this`steps, kvCache, requests
      ensures Valid() && Tracked() && request in requests && prefillQueue == old(prefillQueue)[1..]
      ensures steps > old(steps)
      ensures current == AfterPrefill(old(current), o)
      ensures ok == o.Prefilled? && kvCache.State() == o.cache && request.Value() == o.req
      ensures request == old(prefillQueue[0]) && OthersUnchanged(request)
    {
      request := prefillQueue[0];
      assert request.Value() == current.prefillQ[0];
      prefillQueue := prefillQueue[1..];
      ok, o := RunPrefillWorker(request);
    }

    /** One round of the loop in `dispatch_prefill`. */
    method PrefillNext(completed: seq<RequestState>) returns (ok: bool, done: seq<RequestState>)
      requires Valid() && Tracked() && Mirrors(current, completed, [], []) && Owns(completed)
      requires current.stage.Prefilling? && prefillQueue != []
      modifies this`prefillQueue, this`prefillRr, this`current, this`steps, kvCache, requests
      ensures Valid() && Tracked() && Owns(done) && |prefillQueue| < |old(prefillQueue)| && steps > old(steps)
      ensures ok == !current.stage.Raised? && current.cache == kvCache.State()
      ensures current.results == old(current).results
      ensures ok ==> Mirrors(current, done, [], []) && current.stage.Prefilling?
    {
      PrefillHeadAlone(completed);
      var request;
      ghost var o;
      ok, request, o := PrefillHead(completed);
      done := completed + [request];
      assert Values(prefillQueue) == old(current).prefillQ[1..];
      assert Values(decodeQueue) == old(current).decodeQ;
      assert Values(completed) == old(current).prefilled;
      assert Values(done) == Values(completed) + [request.Value()];
    }

    /** `dispatch_prefill`: every waiting request is prefilled. */
    method DispatchPrefill() returns (ok: bool, completed: seq<RequestState>)
      requires Valid() && Tracked() && Mirrors(current, [], [], []) && current.stage.Prefilling?
      modifies this`prefillQueue, this`prefillRr, this`current, this`steps, kvCache, requests
      ensures Valid() && Tracked() && Owns(completed) && steps > old(steps)
      ensures current.cache == kvCache.State() && current.results == old(current).results
      ensures if ok then current.stage.Enqueuing? && Mirrors(current, completed, [], []) && prefillQueue == []
              else current.stage.Raised?
    {
      completed := [];
      while prefillQueue != []
        invariant Valid() && Tracked() && Owns(completed) && steps >= old(steps)
        invariant Mirrors(current, completed, [], []) && current.stage.Prefilling?
        invariant current.results == old(current).results
        decreases |prefillQueue|
      {
        ok, completed := PrefillNext(completed);
        if !ok {
          return;
        }
      }
      AdvanceStage();
      ok := true;
    }

    method EnqueueNext(completed: seq<RequestState>)
      requires Valid() && Tracked() && Mirrors(current, completed, [], []) && Owns(completed)
      requires current.stage.Enqueuing? && completed != []
      modifies this`decodeQueue, this`current, this`steps
      ensures Valid() && Tracked() && Mirrors(current, completed[1..], [], []) && current.stage.Enqueuing?
      ensures current.results == old(current).results && steps == old(steps) + 1
    {
      ghost var s := current;
      assert Values(completed[1..]) == s.prefilled[1..];
      EnqueueDecode(completed[0]);
      Advance();
      assert current == AfterEnqueue(s);
    }

    /** The loop over the prefilled requests in `run`. */
    method EnqueueAll(completed: seq<RequestState>)
      requires Valid() && Tracked() && Mirrors(current, completed, [], []) && Owns(completed)
      requires current.stage.Enqueuing?
      modifies this`decodeQueue, this`current, this`steps
      ensures Valid() && Tracked() && Mirrors(current, [], [], []) && steps > old(steps)
      ensures current.stage == Decoding(Min(|decodeQueue|, |decodeWorkers|)) && current.results == old(current).results
    {
      for i := 0 to |completed|
        invariant Valid() && Tracked() && Mirrors(current, completed[i..], [], []) && current.stage.Enqueuing?
        invariant current.results == old(current).results && steps >= old(steps)
      {
        EnqueueNext(completed[i..]);
        assert completed[i..][1..] == completed[i + 1..];
      }
      assert completed[|completed|..] == [];
      AdvanceStage();
    }

    /** Distinct ids: no other request in flight is the head of the decode queue. */
    lemma DecodeHeadAlone(batch: seq<RequestState>, batchTraces: seq<Trace>)
      requires Tracked() && Mirrors(current, [], batch, batchTraces) && decodeQueue != []
      ensures Excludes(decodeQueue[1..], decodeQueue[0]) && Excludes(batch, decodeQueue[0])
    {
      ReachedDistinct(config, start, steps);
      forall i | 1 <= i < |decodeQueue| ensures decodeQueue[i] != decodeQueue[0] {
        assert current.decodeQ[1..][i - 1] == decodeQueue[i].Value();
        DecodeHeadElsewhere(current, decodeQueue[i].Value());
      }
      forall i | 0 <= i < |batch| ensures batch[i] != decodeQueue[0] {
        assert BatchReqs(current.batch)[i] == batch[i].Value();
        DecodeHeadElsewhere(current, batch[i].Value());
      }
    }

    /** Round robin over the decode workers. */
    method NextDecodeWorker() returns (worker: DecodeWorker)
      requires Valid()
      modifies this`decodeRr
      ensures Valid() && worker == decodeWorkers[old(decodeRr) % |decodeWorkers|] && decodeRr == old(decodeRr) + 1
      ensures worker.config == config && worker.kvCache == kvCache && worker.backend == backend
    {
      worker := decodeWorkers[decodeRr % |decodeWorkers|];
      decodeRr := decodeRr + 1;
    }

    /** The next decode worker in turn takes the request; `c` and `r` are cache and request before. */
    method RunDecodeWorker(request: RequestState, ghost c: Cache, ghost r: Req)
      returns (trace: Option<Trace>, ghost o: DecodeOutcome)
      requires Valid() && request in requests && c == kvCache.State() && r == request.Value()
      modifies this`decodeRr, kvCache, backend, request
      ensures Valid() && OthersUnchanged(request)
      ensures c.pageSize >= 1 && o == DecodeOne(config, c, r)
      ensures trace == (if o.Decoded? then Some(o.trace) else None) && kvCache.State() == o.cache
      ensures request.Value() == o.req
    {
      var worker := NextDecodeWorker();
      trace, o := worker.Process(request, c, r);
    }

    /** The worker's step, followed by the state machine. */
    method StepDecode(request: RequestState) returns (trace: Option<Trace>, ghost o: DecodeOutcome)
      requires Valid() && Tracked() && request in requests
      requires current.stage.Decoding? && current.stage.slots > 0 && current.decodeQ != []
      requires current.cache == kvCache.State() && current.decodeQ[0] == request.Value()
      modifies this`decodeRr, this`current, this`steps, kvCache, backend, request
      ensures Valid() && OthersUnchanged(request)
      ensures Tracked() && current == AfterDecode(old(current), o) && steps > old(steps)
      ensures trace == (if o.Decoded? then Some(o.trace) else None) && kvCache.State() == o.cache
      ensures request.Value() == o.req
    {
      trace, o := RunDecodeWorker(request, current.cache, current.decodeQ[0]);
      AdvanceDecode(o);
    }

    /** The head of the decode queue makes one decode step; every other request stays as it is. */
    method DecodeHead(batch: seq<RequestState>, batchTraces: seq<Trace>)
      returns (request: RequestState, trace: Option<Trace>, ghost o: DecodeOutcome)
      requires Valid() && Tracked() && Mirrors(current, [], batch, batchTraces) && Owns(batch)
      requires current.stage.Decoding? && current.stage.slots > 0 && decodeQueue != [] && prefillQueue == []
      modifies this`decodeQueue, this`decodeRr, this`current, this`steps, kvCache, backend, requests
      ensures Valid() && Tracked() && request in requests && decodeQueue == old(decodeQueue)[1..] && steps > old(steps)
      ensures current == AfterDecode(old(current), o)
      ensures trace == (if o.Decoded? then Some(o.trace) else None) && kvCache.State() == o.cache
      ensures request.Value() == o.req
      ensures request == old(decodeQueue[0]) && OthersUnchanged(request)
    {
      request := decodeQueue[0];
      assert request.Value() == current.decodeQ[0];
      decodeQueue := decodeQueue[1..];
      trace, o := StepDecode(request);
    }

    /** One round of the loop in `dispatch_decode`. */
    method DecodeNext(batch: seq<RequestState>, batchTraces: seq<Trace>)
        returns (request: RequestState, trace: Option<Trace>)
      requires Valid() && Tracked() && Mirrors(current, [], batch, batchTraces) && Owns(batch)
      requires current.stage.Decoding? && current.stage.slots > 0 && decodeQueue != [] && prefillQueue == []
      modifies this`decodeQueue, this`decodeRr, this`current, this`steps, kvCache, backend, requests
      ensures Valid() && Tracked() && request in requests && decodeQueue == old(decodeQueue)[1..]
      ensures current.cache == kvCache.State() && current.results == old(current).results && steps > old(steps)
      ensures trace.None? <==> current.stage.Raised?
      ensures trace.Some? ==>
        && Mirrors(current, [], batch + [request], batchTraces + [trace.value])
        && current.stage == Decoding(old(current).stage.slots - 1)
    {
      DecodeHeadAlone(batch, batchTraces);
      ghost var o;
      request, trace, o := DecodeHead(batch, batchTraces);
      assert Values(decodeQueue) == old(current).decodeQ[1..];
      assert BatchIs(old(current).batch, batch, batchTraces);
    }

    /** `dispatch_decode`: one decode step for as many requests as there are workers. */
    method DispatchDecode() returns (ok: bool, batch: seq<RequestState>, batchTraces: seq<Trace>)
      requires Valid() && Tracked() && Mirrors(current, [], [], []) && prefillQueue == []
      requires current.stage == Decoding(Min(|decodeQueue|, |decodeWorkers|))
      modifies this`decodeQueue, this`decodeRr, this`current, this`steps, kvCache, backend, requests
      ensures Valid() && Tracked() && Owns(batch) && steps > old(steps)
      ensures current.cache == kvCache.State() && current.results == old(current).results
      ensures if ok then current.stage.Settling? && Mirrors(current, [], batch, batchTraces) else current.stage.Raised?
    {
      batch, batchTraces := [], [];
      var workers := Min(|decodeQueue|, |decodeWorkers|);
      for i := 0 to workers
        invariant Valid() && Tracked() && Owns(batch) && steps >= old(steps)
        invariant Mirrors(current, [], batch, batchTraces)
        invariant current.stage == Decoding(workers - i) && |decodeQueue| >= workers - i
        invariant current.results == old(current).results
      {
        var request, trace := DecodeNext(batch, batchTraces);
        if trace.None? {
          ok := false;
          return;
        }
        batch, batchTraces := batch + [request], batchTraces + [trace.value];
      }
      AdvanceStage();
      ok := true;
    }

    /** `enqueue_decode`. */
    method EnqueueDecode(request: RequestState)
      requires Owns(decodeQueue) && request in requests
      modifies this`decodeQueue
      ensures Owns(decodeQueue) && Values(decodeQueue) == Push(old(Values(decodeQueue)), request.Value())
    {
      PushValues(decodeQueue, request);
      ghost var after := Push(Values(decodeQueue), request.Value());
      decodeQueue := PushRequest(decodeQueue, request);
      assert Values(decodeQueue) == after;
    }

    method RecordTrace(rid: int, trace: Trace) returns (all: seq<Trace>)
      modifies this`traces
      ensures all == (if rid in old(traces) then old(traces[rid]) else []) + [trace]
      ensures traces == old(traces)[rid := all]
    {
      all := (if rid in traces then traces[rid] else []) + [trace];
      traces := traces[rid := all];
    }

    /** A decode result is traced, then reported and its request released, or the request queued again. */
    method Settle(request: RequestState, trace: Trace, results: seq<DecodeResult>) returns (reported: seq<DecodeResult>)
      requires Valid() && Reflects(current) && request in requests
      requires current.batch != [] && current.batch[0] == (request.Value(), trace) && current.results == results
      modifies this`decodeQueue, this`traces, kvCache
      ensures Valid() && Reflects(AfterSettle(current)) && reported == AfterSettle(current).results
    {
      var all := RecordTrace(request.requestId, trace);
      reported := results;
      if request.finished {
        reported := results + [BuildResult(request.Value(), all)];
        kvCache.ReleaseRequest(request.requestId);
      } else {
        EnqueueDecode(request);
      }
    }

    /** One round of the loop over the decode results. */
    method SettleNext(batch: seq<RequestState>, batchTraces: seq<Trace>, results: seq<DecodeResult>)
      returns (reported: seq<DecodeResult>)
      requires Valid() && Tracked() && Mirrors(current, [], batch, batchTraces) && Owns(batch)
      requires current.stage.Settling? && batch != [] && current.results == results
      modifies this`decodeQueue, this`traces, this`current, this`steps, kvCache
      ensures Valid() && Tracked() && Mirrors(current, [], batch[1..], batchTraces[1..])
      ensures current.stage.Settling? && current.results == reported && steps > old(steps)
    {
      reported := Settle(batch[0], batchTraces[0], results);
      AdvanceSettle();
    }

    /** The loop over the decode results in `run`. */
    method SettleAll(batch: seq<RequestState>, batchTraces: seq<Trace>, results: seq<DecodeResult>)
      returns (reported: seq<DecodeResult>)
      requires Valid() && Tracked() && Mirrors(current, [], batch, batchTraces) && Owns(batch)
      requires current.stage.Settling? && current.results == results
      modifies this`decodeQueue, this`traces, this`current, this`steps, kvCache
      ensures Valid() && Tracked() && Mirrors(current, [], [], []) && current.stage.Top? && current.results == reported
      ensures steps > old(steps)
    {
      reported := results;
      for i := 0 to |batch|
        invariant Valid() && Tracked() && Mirrors(current, [], batch[i..], batchTraces[i..])
        invariant current.stage.Settling? && current.results == reported && steps >= old(steps)
      {
        reported := SettleNext(batch[i..], batchTraces[i..], reported);
        assert batch[i..][1..] == batch[i + 1..] && batchTraces[i..][1..] == batchTraces[i + 1..];
      }
      assert batch[|batch|..] == [];
      AdvanceStage();
    }

    /** The first half of a turn: all waiting requests are prefilled and queued for decode. */
    method PrefillWaiting() returns (ok: bool)
      requires Valid() && Tracked() && Mirrors(current, [], [], []) && current.stage.Top?
      requires prefillQueue != [] || decodeQueue != []
      modifies this`prefillQueue, this`decodeQueue, this`prefillRr, this`current, this`steps, kvCache, requests
      ensures Valid() && Tracked() && steps > old(steps) && current.results == old(current).results
      ensures if ok then
                && Mirrors(current, [], [], []) && prefillQueue == []
                && current.stage == Decoding(Min(|decodeQueue|, |decodeWorkers|))
              else current.stage.Raised? && current.cache == kvCache.State()
    {
      AdvanceStage();
      var completed;
      ok, completed := DispatchPrefill();
      if ok {
        EnqueueAll(completed);
      }
    }

    /** One turn of the loop in `run`. */
    method Turn(results: seq<DecodeResult>) returns (ok: bool, reported: seq<DecodeResult>)
      requires Valid() && Tracked() && Mirrors(current, [], [], []) && current.stage.Top? && current.results == results
      requires prefillQueue != [] || decodeQueue != []
      modifies this`prefillQueue, this`decodeQueue, this`prefillRr, this`decodeRr, this`traces, this`current, this`steps
      modifies kvCache, backend, requests
      ensures Valid() && Tracked() && steps > old(steps) && current.cache == kvCache.State()
      ensures if ok then Mirrors(current, [], [], []) && current.stage.Top? && current.results == reported
              else current.stage.Raised?
    {
      reported := results;
      ok := PrefillWaiting();
      if !ok { return; }
      var batch, batchTraces;
      ok, batch, batchTraces := DispatchDecode();
      if !ok { return; }
      reported := SettleAll(batch, batchTraces, results);
    }

    /** The loop of `run`; `bound` is a number of steps after which the run is done. */
    method RunLoop(ghost bound: nat) returns (ok: bool, results: seq<DecodeResult>)
      requires Valid() && Tracked() && Mirrors(current, [], [], []) && current.stage.Top? && current.results == []
      requires Done(Iterate(config, start, bound))
      modifies this`prefillQueue, this`decodeQueue, this`prefillRr, this`decodeRr, this`traces, this`current, this`steps
      modifies kvCache, backend, requests
      ensures Valid() && Tracked() && Done(current) && current.cache == kvCache.State()
      ensures ok == current.stage.Returned? && (ok ==> results == current.results)
    {
      results := [];
      while prefillQueue != [] || decodeQueue != []
        invariant Valid() && Tracked() && Mirrors(current, [], [], []) && current.stage.Top?
        invariant current.results == results
        decreases bound - steps
      {
        if bound <= steps {
          DoneStays(config, start, bound, steps);
        }
        ok, results := Turn(results);
        if !ok { return; }
      }
      AdvanceStage();
      ok := true;
    }

    /** What is known of a run that has ended, in terms of its last state. */
    lemma RunEnded(c: Cache, q: seq<Req>)
      requires Tracked() && start == Initial(c, q) && Done(current)
      requires GoodBlocks(config) && FreshCache(c) && Submittable(config, q)
      ensures current.decodeSteps <= StepBudget(q)
      ensures RoomForAll(config, c, q) ==> current.stage.Returned? && current.cache.evictions == c.evictions
      ensures current.stage.Returned? ==>
        && EachReportedOnce(config, q, SortResults(current.results)) && ById(SortResults(current.results))
        && ((forall r :: r in q ==> r.maxNew >= 1 && EosOnlyLast(r)) ==> ReturnsGoals(q, SortResults(current.results)))
        && current.cache.pages == map[] && current.cache.lru == []
    {
      StepsWithinBudget(config, c, q, steps);
      if RoomForAll(config, c, q) {
        RoomyStates(config, c, q, steps);
      }
      if current.stage.Returned? {
        ReturnedRun(config, c, q, steps);
      }
    }

    /** The run is over and nothing is left: the table and the counters say so too. */
    lemma NothingLeft()
      requires kvCache.Valid() && kvCache.pages == map[] && kvCache.lru == []
      ensures kvCache.table == map[]
      ensures kvCache.liveBytes == kvCache.pinnedBytes == kvCache.usedTokens == kvCache.capacityTokens == 0
    {
      EmptyTable(kvCache.table, kvCache.State());
      EmptyCounters(kvCache.State(), kvCache.liveBytes, kvCache.pinnedBytes, kvCache.usedTokens,
                    kvCache.capacityTokens);
    }

    /** A fresh run starts here; it will be done after `bound` steps. */
    ghost method Launch() returns (bound: nat)
      requires Valid() && GoodBlocks(config) && decodeQueue == [] && traces == map[]
      requires FreshCache(kvCache.State()) && Submittable(config, Values(prefillQueue))
      modifies this`start, this`current, this`steps
      ensures Tracked() && start == current == Initial(kvCache.State(), Values(prefillQueue)) && steps == 0
      ensures Done(Iterate(config, start, bound))
    {
      var c, q := kvCache.State(), Values(prefillQueue);
      start, current, steps := Initial(c, q), Initial(c, q), 0;
      bound := RunsEnd(config, c, q);
    }

    /**
     `run`, on freshly submitted requests. It always ends. If it returns, every
     request is reported once with admissible tokens, and the cache and its
     counters are back to empty; with EOS only at the end of each goal the tokens
     are exactly the goals. If the cache has room for every request, it returns.
     */
    method Run() returns (ok: bool, results: seq<DecodeResult>)
      requires Valid() && GoodBlocks(config) && decodeQueue == [] && traces == map[]
      requires FreshCache(kvCache.State()) && Submittable(config, Values(prefillQueue))
      modifies this, kvCache, backend, requests
      ensures Valid() && Tracked() && start == Initial(old(kvCache.State()), old(Values(prefillQueue)))
      ensures Done(current) && current.cache == kvCache.State() && ok == current.stage.Returned?
      ensures ok ==> results == SortResults(current.results) && ById(results)
      ensures ok ==> EachReportedOnce(config, old(Values(prefillQueue)), results)
      ensures ok && (forall r :: r in old(Values(prefillQueue)) ==> r.maxNew >= 1 && EosOnlyLast(r)) ==>
        ReturnsGoals(old(Values(prefillQueue)), results)
      ensures ok ==> kvCache.pages == map[] && kvCache.table == map[] && kvCache.lru == []
      ensures ok ==> kvCache.liveBytes == kvCache.pinnedBytes == kvCache.usedTokens == kvCache.capacityTokens == 0
      ensures RoomForAll(config, old(kvCache.State()), old(Values(prefillQueue))) ==>
        ok && kvCache.evictionCount == old(kvCache.evictionCount)
      ensures current.decodeSteps <= StepBudget(old(Values(prefillQueue)))
    {
      ghost var c, q := kvCache.State(), Values(prefillQueue);
      ghost var bound := Launch();
      ok, results := RunLoop(bound);
      RunEnded(c, q);
      if ok {
        results := SortResults(results);
        NothingLeft();
      }
    }
  }
}
