/** The adaptive block policy of the runtime: what a rate means for the block size, and where the rate goes. */
module PolicyRates {
  import opened Arithmetic
  import opened Sequences
  import opened Requests
  import opened SpecDecode

  /** The share of the proposed tokens that was accepted. */
  function Share(accepted: nat, proposed: nat): real { accepted as real / Max(proposed, 1) as real }

  /**
   One update: the rate moves towards the observed share by the policy's weight; the
   block is the largest, the middle or the smallest as the new rate is high, medium or
   low, no larger than the cap under pressure, and never below the minimum.
   */
  lemma BlockFollowsPolicy(r: Req, accepted: nat, proposed: nat, policy: AdaptivePolicy, pressure: bool)
    requires policy.minBlock <= policy.maxBlock
    ensures var q := UpdateBlockSize(r, accepted, proposed, policy, pressure);
      && q.ema == r.ema + policy.alpha * (Share(accepted, proposed) - r.ema)
      && q.blockHistory == r.blockHistory + [q.blockSize]
      && policy.minBlock <= q.blockSize <= policy.maxBlock
      && (pressure ==> q.blockSize <= Max(policy.pressureCap, policy.minBlock))
      && (!pressure || policy.pressureCap >= policy.maxBlock ==>
            && (q.ema >= policy.highAccept ==> q.blockSize == policy.maxBlock)
            && (policy.lowAccept <= q.ema < policy.highAccept ==>
                  2 * q.blockSize <= policy.minBlock + policy.maxBlock < 2 * q.blockSize + 2)
            && (q.ema < policy.lowAccept && q.ema < policy.highAccept ==> q.blockSize == policy.minBlock))
  {
    Blend(policy.alpha, Share(accepted, proposed), r.ema);
  }

  lemma Blend(alpha: real, share: real, ema: real)
    ensures alpha * share + (1.0 - alpha) * ema == ema + alpha * (share - ema)
  {}

  /** Update `i`, from an answer of `accepted[i]` out of `proposed[i]` tokens. */
  ghost predicate UpdateAt(states: seq<Req>, accepted: seq<nat>, proposed: seq<nat>, policy: AdaptivePolicy,
                           pressure: seq<bool>, i: nat) {
    && i + 1 < |states| && i < |accepted| && i < |proposed| && i < |pressure|
    && states[i + 1].ema == UpdateBlockSize(states[i], accepted[i], proposed[i], policy, pressure[i]).ema
  }

  lemma UpdateRate(states: seq<Req>, accepted: seq<nat>, proposed: seq<nat>, policy: AdaptivePolicy,
                   pressure: seq<bool>, i: nat)
    requires UpdateAt(states, accepted, proposed, policy, pressure, i)
    ensures accepted[i] == 0 ==> states[i + 1].ema == (1.0 - policy.alpha) * states[i].ema
    ensures accepted[i] == proposed[i] > 0 ==>
      1.0 - states[i + 1].ema == (1.0 - policy.alpha) * (1.0 - states[i].ema)
  {
    if accepted[i] == 0 {
      assert Share(0, proposed[i]) == 0.0;
    } else if accepted[i] == proposed[i] {
      var n := accepted[i] as real;
      assert n / n == 1.0;
    }
  }

  /** Update `i`, after a block of which nothing was accepted. */
  ghost predicate RefusedAt(states: seq<Req>, accepted: seq<nat>, proposed: seq<nat>, policy: AdaptivePolicy,
                            pressure: seq<bool>, i: nat) {
    UpdateAt(states, accepted, proposed, policy, pressure, i) && accepted[i] == 0
  }

  /** Update `i`, after a block that was accepted as a whole. */
  ghost predicate AcceptedAt(states: seq<Req>, accepted: seq<nat>, proposed: seq<nat>, policy: AdaptivePolicy,
                             pressure: seq<bool>, i: nat) {
    UpdateAt(states, accepted, proposed, policy, pressure, i) && accepted[i] == proposed[i] > 0
  }

  lemma RefusedStep(states: seq<Req>, accepted: seq<nat>, proposed: seq<nat>, policy: AdaptivePolicy,
                    pressure: seq<bool>, i: nat)
    requires RefusedAt(states, accepted, proposed, policy, pressure, i)
    ensures i + 1 < |states| && states[i + 1].ema == (1.0 - policy.alpha) * states[i].ema
  {
    UpdateRate(states, accepted, proposed, policy, pressure, i);
  }

  lemma RefusedEmas(states: seq<Req>, accepted: seq<nat>, proposed: seq<nat>, policy: AdaptivePolicy,
                    pressure: seq<bool>, n: nat) returns (x: seq<real>)
    requires n < |states|
    requires forall i: nat :: i < n ==> RefusedAt(states, accepted, proposed, policy, pressure, i)
    ensures |x| == |states| && forall i :: 0 <= i < |x| ==> x[i] == states[i].ema
    ensures forall i :: 0 <= i < n ==> x[i + 1] == (1.0 - policy.alpha) * x[i]
  {
    x := seq(|states|, i requires 0 <= i < |states| => states[i].ema);
    forall i: nat | i < n ensures x[i + 1] == (1.0 - policy.alpha) * x[i] {
      RefusedStep(states, accepted, proposed, policy, pressure, i);
    }
  }

  /** After `n` blocks of which nothing was accepted the rate is `(1 - alpha)` to the `n` of what it was. */
  lemma RefusedUpdates(states: seq<Req>, accepted: seq<nat>, proposed: seq<nat>, policy: AdaptivePolicy,
                       pressure: seq<bool>, n: nat)
    requires n < |states|
    requires forall i: nat :: i < n ==> RefusedAt(states, accepted, proposed, policy, pressure, i)
    ensures states[n].ema == Power(1.0 - policy.alpha, n) * states[0].ema
  {
    var x := RefusedEmas(states, accepted, proposed, policy, pressure, n);
    Geometric(x, 1.0 - policy.alpha, n);
  }

  lemma AcceptedStep(states: seq<Req>, accepted: seq<nat>, proposed: seq<nat>, policy: AdaptivePolicy,
                     pressure: seq<bool>, i: nat)
    requires AcceptedAt(states, accepted, proposed, policy, pressure, i)
    ensures i + 1 < |states| && 1.0 - states[i + 1].ema == (1.0 - policy.alpha) * (1.0 - states[i].ema)
  {
    UpdateRate(states, accepted, proposed, policy, pressure, i);
  }

  lemma AcceptedEmas(states: seq<Req>, accepted: seq<nat>, proposed: seq<nat>, policy: AdaptivePolicy,
                     pressure: seq<bool>, n: nat) returns (x: seq<real>)
    requires n < |states|
    requires forall i: nat :: i < n ==> AcceptedAt(states, accepted, proposed, policy, pressure, i)
    ensures |x| == |states| && forall i :: 0 <= i < |x| ==> x[i] == 1.0 - states[i].ema
    ensures forall i :: 0 <= i < n ==> x[i + 1] == (1.0 - policy.alpha) * x[i]
  {
    x := seq(|states|, i requires 0 <= i < |states| => 1.0 - states[i].ema);
    forall i: nat | i < n ensures x[i + 1] == (1.0 - policy.alpha) * x[i] {
      AcceptedStep(states, accepted, proposed, policy, pressure, i);
    }
  }

  /** After `n` wholly accepted blocks the distance from one has shrunk by `(1 - alpha)` to the `n`. */
  lemma AcceptedUpdates(states: seq<Req>, accepted: seq<nat>, proposed: seq<nat>, policy: AdaptivePolicy,
                        pressure: seq<bool>, n: nat)
    requires n < |states|
    requires forall i: nat :: i < n ==> AcceptedAt(states, accepted, proposed, policy, pressure, i)
    ensures 1.0 - states[n].ema == Power(1.0 - policy.alpha, n) * (1.0 - states[0].ema)
  {
    var x := AcceptedEmas(states, accepted, proposed, policy, pressure, n);
    Geometric(x, 1.0 - policy.alpha, n);
  }
}
