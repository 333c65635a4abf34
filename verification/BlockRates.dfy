/**
 Adaptive block sizes on the device: what block size an acceptance rate means, and
 where the rate goes over rounds of refused and of accepted drafts.
 */
module BlockRates {
  import opened Arithmetic
  import opened Sequences
  import opened DeviceTypes
  import opened Stages

  /** The share of the verified draft that was accepted. */
  function Observed(accepted: int, verified: int): real {
    if verified > 0 then accepted as real / verified as real else 0.0
  }

  /**
   What verification makes of rate and block size: the rate moves a fifth of the way
   to the observed share, and the block is eight, four or one exactly as the new rate
   is at least 0.80, at least 0.50, or less; under pressure it is never above two.
   */
  lemma BlockFollowsRate(r: Descriptor, draft: seq<int>, present: bool)
    requires Verifying(r)
    ensures var q, verified := VerifyReq(r, draft, present), Min(r.draftLen, r.maxNew - r.outputCount);
      && q.ema == r.ema + 0.20 * (Observed(q.acceptedPrefix, verified) - r.ema)
      && (KvPressure !in r.flags ==>
            && (q.blockSize == 8 <==> q.ema >= 0.80)
            && (q.blockSize == 4 <==> 0.50 <= q.ema < 0.80)
            && (q.blockSize == 1 <==> q.ema < 0.50))
      && (KvPressure in r.flags ==> (q.blockSize == 2 <==> q.ema >= 0.50) && (q.blockSize == 1 <==> q.ema < 0.50))
  {}

  /** Drafting, verifying and committing, with `draft` in the buffer when it is verified. */
  function Round(r: Descriptor, draft: seq<int>, present: bool): Descriptor {
    CommitReq(VerifyReq(DecodeReq(r), draft, present))
  }

  /** Round `i` leads from one state to the next. */
  ghost predicate RoundAt(states: seq<Descriptor>, drafts: seq<seq<int>>, present: bool, i: nat) {
    && i + 1 < |states| && i < |drafts|
    && Drafting(states[i]) && states[i + 1] == Round(states[i], drafts[i], present)
  }

  /** Nothing of the draft is accepted. */
  predicate WhollyRefused(draft: seq<int>, present: bool) { !present || draft == [] || draft[0] % 4 == 0 }

  /** The request drafts at least one token, and the whole draft is accepted. */
  predicate WhollyAccepted(r: Descriptor, draft: seq<int>, present: bool) {
    && present && 1 <= DraftCount(r) <= |draft|
    && forall i :: 0 <= i < DraftCount(r) ==> draft[i] % 4 != 0 && (r.eos > 0 ==> draft[i] != r.eos)
  }

  /** Round `i`, in which nothing of the draft is accepted. */
  ghost predicate RefusedAt(states: seq<Descriptor>, drafts: seq<seq<int>>, present: bool, i: nat) {
    RoundAt(states, drafts, present, i) && WhollyRefused(drafts[i], present)
  }

  /** Round `i`, in which all of the draft is accepted. */
  ghost predicate AcceptedAt(states: seq<Descriptor>, drafts: seq<seq<int>>, i: nat) {
    RoundAt(states, drafts, true, i) && WhollyAccepted(states[i], drafts[i], true)
  }

  lemma RefusedRound(r: Descriptor, draft: seq<int>, present: bool)
    requires Drafting(r) && WhollyRefused(draft, present)
    ensures Round(r, draft, present).ema == 0.80 * r.ema
  {
    var d := DecodeReq(r);
    assert AcceptedOf(d, draft, present) == 0;
  }

  lemma AcceptedRound(r: Descriptor, draft: seq<int>, present: bool)
    requires Drafting(r) && WhollyAccepted(r, draft, present)
    ensures Round(r, draft, present).ema == 0.80 * r.ema + 0.20
  {
    var d := DecodeReq(r);
    var own := Take(draft, VerifyLimit(d));
    assert VerifyLimit(d) == DraftCount(r);
    AcceptedRunIsLongest(d, own);
    assert AcceptedOf(d, draft, present) == VerifyLimit(d);
    var n := VerifyLimit(d) as real;
    assert n / n == 1.0;
  }

  /** After `n` wholly refused drafts the rate has fallen to `0.80` to the `n` of what it was. */
  lemma RefusedRounds(states: seq<Descriptor>, drafts: seq<seq<int>>, present: bool, n: nat)
    requires n < |states| && forall i: nat :: i < n ==> RefusedAt(states, drafts, present, i)
    ensures states[n].ema == Power(0.80, n) * states[0].ema
  {
    var x := RefusedEmas(states, drafts, present, n);
    Geometric(x, 0.80, n);
    assert x[0] == states[0].ema && x[n] == states[n].ema;
  }

  lemma RefusedEmas(states: seq<Descriptor>, drafts: seq<seq<int>>, present: bool, n: nat) returns (x: seq<real>)
    requires n < |states| && forall i: nat :: i < n ==> RefusedAt(states, drafts, present, i)
    ensures |x| == |states| && forall i :: 0 <= i < |x| ==> x[i] == states[i].ema
    ensures forall i :: 0 <= i < n ==> x[i + 1] == 0.80 * x[i]
  {
    x := seq(|states|, i requires 0 <= i < |states| => states[i].ema);
    forall i: nat | i < n ensures x[i + 1] == 0.80 * x[i] {
      RefusedStep(states, drafts, present, i);
    }
  }

  lemma RefusedStep(states: seq<Descriptor>, drafts: seq<seq<int>>, present: bool, i: nat)
    requires RefusedAt(states, drafts, present, i)
    ensures states[i + 1].ema == 0.80 * states[i].ema
  {
    RefusedRound(states[i], drafts[i], present);
  }

  /** After `n` wholly accepted drafts the distance of the rate from one has shrunk by `0.80` to the `n`. */
  lemma AcceptedRounds(states: seq<Descriptor>, drafts: seq<seq<int>>, n: nat)
    requires n < |states| && forall i: nat :: i < n ==> AcceptedAt(states, drafts, i)
    ensures 1.0 - states[n].ema == Power(0.80, n) * (1.0 - states[0].ema)
  {
    var x := AcceptedEmas(states, drafts, n);
    Geometric(x, 0.80, n);
  }

  lemma AcceptedEmas(states: seq<Descriptor>, drafts: seq<seq<int>>, n: nat) returns (x: seq<real>)
    requires n < |states| && forall i: nat :: i < n ==> AcceptedAt(states, drafts, i)
    ensures |x| == |states| && forall i :: 0 <= i < |x| ==> x[i] == 1.0 - states[i].ema
    ensures forall i :: 0 <= i < n ==> x[i + 1] == 0.80 * x[i]
  {
    x := seq(|states|, i requires 0 <= i < |states| => 1.0 - states[i].ema);
    forall i: nat | i < n ensures x[i + 1] == 0.80 * x[i] {
      AcceptedStep(states, drafts, i);
    }
  }

  lemma AcceptedStep(states: seq<Descriptor>, drafts: seq<seq<int>>, i: nat)
    requires AcceptedAt(states, drafts, i)
    ensures 1.0 - states[i + 1].ema == 0.80 * (1.0 - states[i].ema)
  {
    AcceptedRound(states[i], drafts[i], true);
  }

  lemma RoundKeepsPressure(r: Descriptor, draft: seq<int>, present: bool)
    ensures KvPressure in Round(r, draft, present).flags <==> KvPressure in r.flags
  {}

  lemma {:induction false} RoundsKeepPressure(states: seq<Descriptor>, drafts: seq<seq<int>>, present: bool, n: nat)
    requires n < |states| && forall i: nat :: i < n ==> RoundAt(states, drafts, present, i)
    ensures KvPressure in states[n].flags <==> KvPressure in states[0].flags
  {
    if n > 0 {
      RoundsKeepPressure(states, drafts, present, n - 1);
      assert RoundAt(states, drafts, present, n - 1);
      RoundKeepsPressure(states[n - 1], drafts[n - 1], present);
    }
  }

  /** The block after a round of drafting follows the rate. */
  lemma RoundBlock(states: seq<Descriptor>, drafts: seq<seq<int>>, present: bool, n: nat)
    requires n >= 1 && RoundAt(states, drafts, present, n - 1) && KvPressure !in states[n - 1].flags
    ensures states[n].blockSize == if states[n].ema >= 0.80 then 8 else if states[n].ema >= 0.50 then 4 else 1
  {
    BlockFollowsRate(DecodeReq(states[n - 1]), drafts[n - 1], present);
  }

  lemma LastBlock(states: seq<Descriptor>, drafts: seq<seq<int>>, present: bool, n: nat)
    requires 1 <= n < |states| && KvPressure !in states[0].flags
    requires forall i: nat :: i < n ==> RoundAt(states, drafts, present, i)
    ensures states[n].blockSize == if states[n].ema >= 0.80 then 8 else if states[n].ema >= 0.50 then 4 else 1
  {
    RoundsKeepPressure(states, drafts, present, n - 1);
    RoundBlock(states, drafts, present, n);
  }

  /** From the starting rate of 0.80: blocks of four after one or two refused drafts, then single tokens. */
  lemma RefusedFallsToOne(states: seq<Descriptor>, drafts: seq<seq<int>>, present: bool, n: nat)
    requires 1 <= n < |states| && states[0].ema == 0.80 && KvPressure !in states[0].flags
    requires forall i: nat :: i < n ==> RefusedAt(states, drafts, present, i)
    ensures states[n].blockSize == if n < 3 then 4 else 1
  {
    RefusedRounds(states, drafts, present, n);
    forall i: nat | i < n ensures RoundAt(states, drafts, present, i) {
      assert RefusedAt(states, drafts, present, i);
    }
    LastBlock(states, drafts, present, n);
    PowersOfFourFifths(n);
  }

  lemma PowersOfFourFifths(n: nat)
    requires n >= 1
    ensures 0.50 <= Power(0.80, n) * 0.80 < 0.80 <==> n < 3
    ensures Power(0.80, n) * 0.80 < 0.80 && (n >= 8 ==> 0.0 <= Power(0.80, n) <= 0.20)
  {
    assert Power(0.80, 1) == 0.80 && Power(0.80, 2) == 0.64;
    assert Power(0.80, 3) == 0.512 && Power(0.80, 4) == 0.4096;
    assert Power(0.80, 6) == 0.262144 && Power(0.80, 8) == 0.16777216;
    PowerInUnit(0.80, n);
    PowerFalls(0.80, 1, n);
    if n >= 3 {
      PowerFalls(0.80, 3, n);
    }
    if n >= 8 {
      PowerFalls(0.80, 8, n);
    }
  }

  /** Wholly accepted drafts lead to blocks of eight: at once from 0.80, within eight rounds from anywhere. */
  lemma AcceptedRisesToEight(states: seq<Descriptor>, drafts: seq<seq<int>>, n: nat)
    requires 1 <= n < |states| && KvPressure !in states[0].flags
    requires 0.0 <= states[0].ema <= 1.0 && (states[0].ema >= 0.80 || n >= 8)
    requires forall i: nat :: i < n ==> AcceptedAt(states, drafts, i)
    ensures states[n].blockSize == 8
  {
    AcceptedRounds(states, drafts, n);
    forall i: nat | i < n ensures RoundAt(states, drafts, true, i) {
      assert AcceptedAt(states, drafts, i);
    }
    LastBlock(states, drafts, true, n);
    PowersOfFourFifths(n);
    PowerInUnit(0.80, n);
    GapIsSmall(Power(0.80, n), 1.0 - states[0].ema);
  }

  lemma GapIsSmall(power: real, gap: real)
    requires 0.0 <= power <= 1.0 && 0.0 <= gap <= 1.0 && (gap <= 0.20 || power <= 0.20)
    ensures power * gap <= 0.20
  {
    ScaleDown(power, gap);
    ScaleDown(gap, power);
  }
}
