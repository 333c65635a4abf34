/** How the recorded acceptances of a request's decode steps set the block sizes of the steps after them. */
module BlockPace {
  import opened Sequences
  import KvCacheModel
  import opened Requests
  import opened SpecDecode
  import opened RuntimeModel

  /** The share accepted of a step's block; a step that fell back to a single token had its block rejected outright. */
  function Observed(t: Trace): real {
    if t.usedFallback || t.proposed == [] then 0.0 else |t.accepted| as real / |t.proposed| as real
  }

  function NextRate(policy: AdaptivePolicy, rate: real, t: Trace): real {
    policy.alpha * Observed(t) + (1.0 - policy.alpha) * rate
  }

  /** The acceptance rate after the first `n` traces. */
  function RateAfter(policy: AdaptivePolicy, start: real, ts: seq<Trace>, n: nat): real
    requires n <= |ts|
  {
    if n == 0 then start else NextRate(policy, RateAfter(policy, start, ts, n - 1), ts[n - 1])
  }

  /** A size that the policy gives this rate, with or without cache pressure. */
  ghost predicate SizeFits(policy: AdaptivePolicy, rate: real, size: int) {
    size == NextBlock(policy, rate, false) || size == NextBlock(policy, rate, true)
  }

  /** What a step recorded as `t` makes of the rate and the block size. */
  ghost predicate Repaced(policy: AdaptivePolicy, r: Req, q: Req, t: Trace) {
    q.ema == NextRate(policy, r.ema, t) && SizeFits(policy, q.ema, q.blockSize)
  }

  ghost predicate SizedAt(policy: AdaptivePolicy, start: real, ts: seq<Trace>, i: int)
    requires 0 <= i < |ts|
  {
    SizeFits(policy, RateAfter(policy, start, ts, i), ts[i].blockSizeUsed)
  }

  /** Every recorded block but the first has a size that fits the acceptances recorded before it. */
  ghost predicate PacedTraces(cfg: Config, start: real, ts: seq<Trace>) {
    cfg.adaptive.Some? ==> forall i :: 1 <= i < |ts| ==> SizedAt(cfg.adaptive.value, start, ts, i)
  }

  /** The request's rate and block size are where its traces have led from those of `sub`. */
  ghost predicate Paced(cfg: Config, sub: Req, r: Req, ts: seq<Trace>) {
    && PacedTraces(cfg, sub.ema, ts)
    && (cfg.adaptive.Some? ==>
          && r.ema == RateAfter(cfg.adaptive.value, sub.ema, ts, |ts|)
          && (ts != [] ==> SizeFits(cfg.adaptive.value, r.ema, r.blockSize)))
  }

  lemma {:induction false} RateBefore(policy: AdaptivePolicy, start: real, ts: seq<Trace>, us: seq<Trace>, n: nat)
    requires n <= |ts| && ts <= us
    ensures RateAfter(policy, start, us, n) == RateAfter(policy, start, ts, n)
  {
    if n > 0 {
      RateBefore(policy, start, ts, us, n - 1);
    }
  }

  lemma PacedSnoc(cfg: Config, sub: Req, r: Req, q: Req, ts: seq<Trace>, t: Trace)
    requires Paced(cfg, sub, r, ts) && t.blockSizeUsed == BlockWidth(cfg, r)
    requires cfg.adaptive.Some? ==> Repaced(cfg.adaptive.value, r, q, t)
    ensures Paced(cfg, sub, q, ts + [t])
  {
    if cfg.adaptive.Some? {
      var us := ts + [t];
      RateBefore(cfg.adaptive.value, sub.ema, ts, us, |ts|);
      forall i | 1 <= i < |us| ensures SizedAt(cfg.adaptive.value, sub.ema, us, i) {
        RateBefore(cfg.adaptive.value, sub.ema, ts, us, i);
        assert i < |ts| ==> SizedAt(cfg.adaptive.value, sub.ema, ts, i);
      }
    }
  }

  /** What a trace shows of a decision is the share that the policy is told. */
  lemma ObservedShare(cfg: Config, r: Req, t: Trace)
    requires var d := Decide(cfg, r);
      t.proposed == d.proposed && t.accepted == d.accepted && t.usedFallback == d.fallback
    ensures var d := Decide(cfg, r); Observed(t) == d.blockAccepted as real / Max(d.blockProposed, 1) as real
  {
    var d := Decide(cfg, r);
    if d.fallback {
      assert d.blockAccepted == 0;
      NoShare(d.blockProposed);
    } else if d.proposed == [] {
      assert d.blockAccepted == 0 && d.blockProposed == 0;
      NoShare(0);
    } else {
      assert |t.accepted| == d.blockAccepted && |t.proposed| == d.blockProposed == Max(d.blockProposed, 1);
    }
  }

  lemma NoShare(n: nat)
    ensures 0 as real / Max(n, 1) as real == 0.0
  {}

  /** Updating the block size from a decision is what its trace records. */
  lemma AdaptRepaces(cfg: Config, c: KvCacheModel.Cache, r: Req, q: Req, t: Trace)
    requires cfg.adaptive.Some? && q.ema == r.ema
    requires var d := Decide(cfg, r);
      t.proposed == d.proposed && t.accepted == d.accepted && t.usedFallback == d.fallback
    ensures Repaced(cfg.adaptive.value, r, Adapt(cfg, c, q, Decide(cfg, r)), t)
  {
    ObservedShare(cfg, r, t);
  }
}
