/** Requests, their snapshots and the small computations on them. */
module Requests {
  import opened Sequences

  datatype Option<+T> = None | Some(value: T)

  datatype RequestPhase = WaitingPrefill | Prefill | ReadyDecode | Decode | Finished

  datatype KVSnapshot = KVSnapshot(requestId: int, layerPageMap: map<int, seq<int>>, promptLength: int)

  /** The value of a request at one moment. */
  datatype Req = Req(
    requestId: int, prompt: seq<int>, target: seq<int>, maxNew: int, eos: int, priority: int,
    layers: seq<int>, committed: seq<int>, draft: seq<int>, phase: RequestPhase,
    snapshot: Option<KVSnapshot>, finished: bool, wasPreempted: bool, rehydrations: int,
    ema: real, blockSize: int, blockHistory: seq<int>)

  /** Python's `s[:n]`, negative `n` counting from the end. */
  function Prefix<T>(s: seq<T>, n: int): seq<T> {
    if n >= 0 then s[..Min(n, |s|)] else s[..Max(0, |s| + n)]
  }

  /** `remaining_target`. */
  function Remaining(r: Req): seq<int> {
    if |r.committed| <= |r.target| then r.target[|r.committed|..] else []
  }

  /** `token_budget_left`. */
  function BudgetLeft(r: Req): nat { Max(r.maxNew - |r.committed|, 0) }

  /** The number of tokens a request asks for. */
  function Goal(r: Req): nat { Max(0, Min(|r.target|, r.maxNew)) }

  function MapGet(m: map<int, seq<int>>, l: int): seq<int> { if l in m then m[l] else [] }

  /** The page ids of a layer map, layer by layer. */
  function FlattenMap(m: map<int, seq<int>>, layers: seq<int>): seq<int> {
    if layers == [] then []
    else FlattenMap(m, layers[..|layers| - 1]) + MapGet(m, layers[|layers| - 1])
  }

  /** `kv_page_ids`. */
  function KvPageIds(r: Req): seq<int> {
    if r.snapshot.None? then [] else FlattenMap(r.snapshot.value.layerPageMap, r.layers)
  }

  lemma {:induction false} FlattenMember(m: map<int, seq<int>>, layers: seq<int>, id: int)
    ensures id in FlattenMap(m, layers) <==> exists l :: l in layers && id in MapGet(m, l)
  {
    if layers != [] {
      var k := |layers| - 1;
      assert layers == layers[..k] + [layers[k]];
      FlattenMember(m, layers[..k], id);
    }
  }

  /** What never changes about a request once it is submitted. */
  ghost predicate SameIdentity(r: Req, q: Req) {
    && r.requestId == q.requestId && r.prompt == q.prompt && r.target == q.target
    && r.maxNew == q.maxNew && r.eos == q.eos && r.priority == q.priority && r.layers == q.layers
  }

  class RequestState {
    const requestId: int
    const promptTokens: seq<int>
    const targetTokens: seq<int>
    const maxNewTokens: int
    const eosTokenId: int
    const priority: int
    var layerIds: seq<int>
    var committedTokens: seq<int>
    var draftTokens: seq<int>
    var phase: RequestPhase
    var kvSnapshot: Option<KVSnapshot>
    var finished: bool
    var wasPreempted: bool
    var rehydrationCount: int
    var emaAcceptanceRate: real
    var currentBlockSize: int
    var blockSizeHistory: seq<int>

    constructor (requestId: int, promptTokens: seq<int>, targetTokens: seq<int>, maxNewTokens: int,
                 eosTokenId: int, priority: int, layerIds: seq<int>)
      ensures Value() == Req(requestId, promptTokens, targetTokens, maxNewTokens, eosTokenId, priority, layerIds,
                             [], [], WaitingPrefill, None, false, false, 0, 0.80, 4, [])
    {
      this.requestId, this.promptTokens, this.targetTokens := requestId, promptTokens, targetTokens;
      this.maxNewTokens, this.eosTokenId, this.priority := maxNewTokens, eosTokenId, priority;
      this.layerIds := layerIds;
      committedTokens, draftTokens, phase, kvSnapshot := [], [], WaitingPrefill, None;
      finished, wasPreempted, rehydrationCount := false, false, 0;
      emaAcceptanceRate, currentBlockSize, blockSizeHistory := 0.80, 4, [];
    }

    function Value(): Req
      reads this
    {
      Req(requestId, promptTokens, targetTokens, maxNewTokens, eosTokenId, priority, layerIds,
          committedTokens, draftTokens, phase, kvSnapshot, finished, wasPreempted, rehydrationCount,
          emaAcceptanceRate, currentBlockSize, blockSizeHistory)
    }

    method RemainingTarget() returns (s: seq<int>)
      ensures s == Remaining(Value())
    {
      var offset := |committedTokens|;
      s := if offset <= |targetTokens| then targetTokens[offset..] else [];
    }

    method TokenBudgetLeft() returns (n: nat)
      ensures n == BudgetLeft(Value())
    {
      n := Max(maxNewTokens - |committedTokens|, 0);
    }

    method KvPageIdList() returns (ids: seq<int>)
      ensures ids == KvPageIds(Value())
    {
      ids := [];
      if kvSnapshot.Some? {
        for i := 0 to |layerIds|
          invariant ids == FlattenMap(kvSnapshot.value.layerPageMap, layerIds[..i])
        {
          ids := ids + MapGet(kvSnapshot.value.layerPageMap, layerIds[i]);
          assert layerIds[..i + 1][..i] == layerIds[..i];
        }
        assert layerIds[..|layerIds|] == layerIds;
      }
    }
  }
}
