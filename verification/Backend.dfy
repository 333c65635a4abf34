/** The stub backend: verification answers for whichever request was decoded last. */
module Backend {
  import opened Sequences
  import opened Requests

  /** `CPUStubBackend.speculative_verify` for the tokens the active request still expects. */
  function BackendMask(draft: seq<int>, expected: seq<int>): (m: seq<bool>)
    ensures |m| == |draft|
    ensures forall i :: 0 <= i < |m| ==> (m[i] <==> i < |expected| && draft[i] == expected[i])
  {
    seq(|draft|, i requires 0 <= i < |draft| => i < |expected| && draft[i] == expected[i])
  }

  class CPUStubBackend {
    var activeRequest: RequestState?

    constructor ()
      ensures activeRequest == null
    {
      activeRequest := null;
    }

    /** `decode_step`: the request becomes the active one; the candidates are what it may produce next. */
    method DecodeStep(request: RequestState) returns (candidates: seq<int>, scores: seq<real>)
      modifies this
      ensures activeRequest == request
      ensures var r := request.Value();
        candidates == if Remaining(r) == [] then [r.eos] else Remaining(r)[..Max(1, Min(BudgetLeft(r), |Remaining(r)|))]
      ensures |scores| == |candidates| && forall i :: 0 <= i < |scores| ==> scores[i] == 1.0 - i as real * 0.01
    {
      activeRequest := request;
      var remaining := request.RemainingTarget();
      var budget := request.TokenBudgetLeft();
      var width := Max(1, Min(budget, |remaining|));
      candidates := if remaining == [] then [request.eosTokenId] else remaining[..width];
      scores := seq(|candidates|, idx => 1.0 - idx as real * 0.01);
    }

    /** `speculative_verify`; without an active request it raises. */
    method SpeculativeVerify(draft: seq<int>) returns (mask: Option<seq<bool>>)
      ensures mask == if activeRequest == null then None
                      else Some(BackendMask(draft, Remaining(activeRequest.Value())))
    {
      if activeRequest == null {
        return None;
      }
      var expected := activeRequest.RemainingTarget();
      mask := Some(BackendMask(draft, expected));
    }
  }
}
