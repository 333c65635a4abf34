/** Speculative decoding: proposing a block, verifying it, adapting the block size. */
module SpecDecode {
  import opened Sequences
  import opened Requests
  import opened Backend

  datatype AcceptancePolicy = AcceptancePolicy(mismatchStride: int, rejectDraftBlocks: bool)

  datatype AdaptivePolicy = AdaptivePolicy(
    minBlock: int, maxBlock: int, alpha: real, pressureCap: int, highAccept: real, lowAccept: real)

  /** `AcceptanceMask.accepted_count`: the length of the accepted prefix. */
  function AcceptedCount(mask: seq<bool>): (n: nat)
    ensures n <= |mask|
    ensures forall i :: 0 <= i < n ==> mask[i]
    ensures n < |mask| ==> !mask[n]
  {
    if mask == [] || !mask[0] then 0 else 1 + AcceptedCount(mask[1..])
  }

  method CountAccepted(mask: seq<bool>) returns (count: nat)
    ensures count == AcceptedCount(mask)
  {
    count := 0;
    while count < |mask| && mask[count]
      invariant count <= |mask|
      invariant forall i :: 0 <= i < count ==> mask[i]
    {
      count := count + 1;
    }
  }

  /** `DraftBlockProposer.propose`. */
  function Propose(r: Req, width: int, proposerEos: int): seq<int> {
    if Remaining(r) == [] || BudgetLeft(r) == 0 then [proposerEos]
    else Prefix(Remaining(r), Min(Min(width, |Remaining(r)|), BudgetLeft(r)))
  }

  method ProposeBlock(request: RequestState, width: int, proposerEos: int) returns (proposal: seq<int>)
    ensures proposal == Propose(request.Value(), width, proposerEos)
  {
    var remaining := request.RemainingTarget();
    var budget := request.TokenBudgetLeft();
    if remaining == [] || budget == 0 {
      return [proposerEos];
    }
    var count := Min(Min(width, |remaining|), budget);
    proposal := Prefix(remaining, count);
  }

  /** Is the draft position one where the simulated mismatch stride cuts the block? */
  predicate StrideHit(r: Req, proposal: seq<int>, idx: int, stride: int) {
    stride > 0 && (|r.committed| + idx + 1) % stride == 0 && idx < |proposal| - 1
  }

  predicate TokenMatches(proposal: seq<int>, idx: nat, expected: seq<int>, active: seq<int>)
    requires idx < |proposal|
  {
    idx < |expected| && proposal[idx] == expected[idx] && idx < |active| && proposal[idx] == active[idx]
  }

  /** How many leading tokens the verifier's loop accepts, from `idx` on. */
  function AcceptFrom(r: Req, proposal: seq<int>, active: seq<int>, stride: int, idx: nat): (n: nat)
    requires idx <= |proposal|
    ensures n <= |proposal| - idx
    decreases |proposal| - idx
  {
    if idx == |proposal| then 0
    else if StrideHit(r, proposal, idx, stride) then 1
    else if !TokenMatches(proposal, idx, Remaining(r), active) then 0
    else 1 + AcceptFrom(r, proposal, active, stride, idx + 1)
  }

  /** Acceptance depends on the committed and the target tokens alone. */
  lemma {:induction false} AcceptFromSame(r: Req, q: Req, p: seq<int>, active: seq<int>, stride: int, idx: nat)
    requires idx <= |p| && r.committed == q.committed && r.target == q.target
    ensures AcceptFrom(r, p, active, stride, idx) == AcceptFrom(q, p, active, stride, idx)
    decreases |p| - idx
  {
    if idx < |p| {
      AcceptFromSame(r, q, p, active, stride, idx + 1);
    }
  }

  /** The accepted length of a whole block. */
  function AcceptLength(r: Req, proposal: seq<int>, active: seq<int>, policy: AcceptancePolicy): (n: nat)
    ensures n <= |proposal|
  {
    if policy.rejectDraftBlocks && |proposal| > 1 then 0
    else AcceptFrom(r, proposal, active, policy.mismatchStride, 0)
  }

  /** `n` accepted positions, then rejected ones. */
  function PrefixMask(n: nat, len: nat): (m: seq<bool>)
    requires n <= len
    ensures |m| == len && AcceptedCount(m) == n
  {
    var m := seq(len, i requires 0 <= i < len => i < n);
    PrefixMaskCount(m, n);
    m
  }

  lemma {:induction false} PrefixMaskCount(m: seq<bool>, n: nat)
    requires n <= |m| && forall i :: 0 <= i < |m| ==> (m[i] <==> i < n)
    ensures AcceptedCount(m) == n
  {
    var k := AcceptedCount(m);
    assert n < |m| ==> !m[n];
    assert k < |m| ==> !m[k];
  }

  /** What the backend's active request still expects. */
  function Expected(backend: CPUStubBackend): seq<int>
    reads backend, backend.activeRequest
    requires backend.activeRequest != null
  {
    Remaining(backend.activeRequest.Value())
  }

  /** `SpeculativeVerifier.verify`; it raises when it needs the backend and nothing is active there. */
  method Verify(request: RequestState, proposal: seq<int>, policy: AcceptancePolicy, backend: CPUStubBackend)
    returns (mask: Option<seq<bool>>)
    ensures mask.None? <==> backend.activeRequest == null && !(policy.rejectDraftBlocks && |proposal| > 1)
    ensures backend.activeRequest != null ==>
      && mask.Some?
      && mask.value == PrefixMask(AcceptLength(request.Value(), proposal, Expected(backend), policy), |proposal|)
  {
    if policy.rejectDraftBlocks && |proposal| > 1 {
      mask := Some(seq(|proposal|, i => false));
      return;
    }
    var backendMask := backend.SpeculativeVerify(proposal);
    if backendMask.None? {
      return None;
    }
    var active := Expected(backend);
    var answers := VerifyAgainst(request, proposal, policy, backendMask.value, active);
    mask := Some(answers);
  }

  /** The verifier's loop. */
  method VerifyAgainst(request: RequestState, proposal: seq<int>, policy: AcceptancePolicy, backendMask: seq<bool>,
                       ghost active: seq<int>)
    returns (mask: seq<bool>)
    requires backendMask == BackendMask(proposal, active)
    ensures var n := AcceptFrom(request.Value(), proposal, active, policy.mismatchStride, 0);
      mask == PrefixMask(n, |proposal|)
  {
    var expected := request.RemainingTarget();
    ghost var r := request.Value();
    ghost var total := AcceptFrom(r, proposal, active, policy.mismatchStride, 0);
    var result: seq<bool> := [];
    var idx := 0;
    while idx < |proposal|
      invariant 0 <= idx <= |proposal| && result == seq(idx, i => true)
      invariant idx + AcceptFrom(r, proposal, active, policy.mismatchStride, idx) == total
    {
      var token := proposal[idx];
      var accepted := idx < |expected| && token == expected[idx];
      accepted := accepted && backendMask[idx];
      if policy.mismatchStride > 0 {
        var absolutePos := |request.committedTokens| + idx + 1;
        if absolutePos % policy.mismatchStride == 0 && idx < |proposal| - 1 {
          result := result + [true];
          break;
        }
      }
      if !accepted {
        result := result + [false];
        break;
      }
      result := result + [true];
      idx := idx + 1;
    }
    mask := result + seq(|proposal| - |result|, i => false);
  }

  /** The next block size for an acceptance rate. */
  function NextBlock(policy: AdaptivePolicy, rate: real, pressure: bool): int {
    var next :=
      if rate >= policy.highAccept then policy.maxBlock
      else if rate >= policy.lowAccept then (policy.minBlock + policy.maxBlock) / 2
      else policy.minBlock;
    Max(if pressure && next > policy.pressureCap then policy.pressureCap else next, policy.minBlock)
  }

  /** `update_block_size`. */
  function UpdateBlockSize(r: Req, accepted: nat, proposed: nat, policy: AdaptivePolicy, pressure: bool): Req {
    var rate := policy.alpha * (accepted as real / Max(proposed, 1) as real) + (1.0 - policy.alpha) * r.ema;
    var next := NextBlock(policy, rate, pressure);
    r.(ema := rate, blockSize := next, blockHistory := r.blockHistory + [next])
  }

  method UpdateRequestBlockSize(request: RequestState, mask: seq<bool>, policy: AdaptivePolicy, pressure: bool)
    modifies request
    ensures request.Value() == UpdateBlockSize(old(request.Value()), AcceptedCount(mask), |mask|, policy, pressure)
  {
    var proposed := Max(|mask|, 1);
    var count := CountAccepted(mask);
    var observed := count as real / proposed as real;
    request.emaAcceptanceRate := policy.alpha * observed + (1.0 - policy.alpha) * request.emaAcceptanceRate;
    var rate := request.emaAcceptanceRate;
    var next: int;
    if rate >= policy.highAccept {
      next := policy.maxBlock;
    } else if rate >= policy.lowAccept {
      next := (policy.minBlock + policy.maxBlock) / 2;
    } else {
      next := policy.minBlock;
    }
    if pressure && next > policy.pressureCap {
      next := policy.pressureCap;
    }
    request.currentBlockSize := Max(next, policy.minBlock);
    request.blockSizeHistory := request.blockSizeHistory + [request.currentBlockSize];
  }

  // ------------------------------------------------------------------ results

  /**
   A block cut from the request's own target is accepted in a non-empty prefix,
   unless block drafts are rejected outright: the mismatch stride only ever cuts
   a block short after the position it hits.
   */
  lemma {:induction false} OwnTokensAccepted(r: Req, proposal: seq<int>, stride: int, idx: nat)
    requires idx < |proposal| <= |Remaining(r)| && proposal == Remaining(r)[..|proposal|]
    ensures 1 <= AcceptFrom(r, proposal, Remaining(r), stride, idx)
    decreases |proposal| - idx
  {
    assert proposal[idx] == Remaining(r)[idx];
  }

  /** Without a stride hit the verifier accepts all of the request's own tokens; with one, exactly up to it. */
  lemma {:induction false} AcceptsUpToStride(r: Req, proposal: seq<int>, stride: int, idx: nat)
    requires idx <= |proposal| <= |Remaining(r)| && proposal == Remaining(r)[..|proposal|]
    ensures var n := AcceptFrom(r, proposal, Remaining(r), stride, idx);
      && (forall i :: idx <= i < idx + n - 1 ==> !StrideHit(r, proposal, i, stride))
      && (idx + n < |proposal| ==> n > 0 && StrideHit(r, proposal, idx + n - 1, stride))
    decreases |proposal| - idx
  {
    if idx < |proposal| && !StrideHit(r, proposal, idx, stride) {
      assert proposal[idx] == Remaining(r)[idx];
      AcceptsUpToStride(r, proposal, stride, idx + 1);
    }
  }
}
