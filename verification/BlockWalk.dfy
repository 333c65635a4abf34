/**
 Where decode steps end. A request's goal is consumed in blocks whose lengths follow
 from the block size, the mismatch stride and draft rejection alone; a run looks for
 EOS only at the ends of these blocks, serial decode at every token.
 */
module BlockWalk {
  import opened Arithmetic
  import opened Sequences
  import opened Requests
  import opened SpecDecode
  import opened RuntimeModel

  /** How many tokens a block of `width` adds at position `n` of a goal. */
  function Advance(a: AcceptancePolicy, width: int, goal: nat, n: nat): (k: nat)
    requires width >= 1 && n < goal
    ensures 1 <= k <= goal - n
  {
    var p := Min(width, goal - n);
    if p > 1 && a.rejectDraftBlocks then 1
    else if a.mismatchStride > 0 then Min(p, a.mismatchStride - n % a.mismatchStride)
    else p
  }

  /** The next multiple of the stride after `n`. */
  lemma NextHit(n: nat, stride: int, e: int)
    requires stride > 0 && 1 <= e <= stride - n % stride
    ensures (n + e) % stride == 0 <==> e == stride - n % stride
  {
    var q, m := n / stride, n % stride;
    assert n == q * stride + m;
    if e == stride - m {
      MulStep(q, stride);
      ModUnique(n + e, stride, q + 1, 0);
    } else {
      ModUnique(n + e, stride, q, m + e);
    }
  }

  /** Of a block of the request's own tokens, the part up to the first stride hit is accepted. */
  lemma AcceptedPart(r: Req, p: seq<int>, stride: int)
    requires 1 <= |p| <= |Remaining(r)| && p == Remaining(r)[..|p|]
    ensures AcceptFrom(r, p, Remaining(r), stride, 0)
         == if stride > 0 then Min(|p|, stride - |r.committed| % stride) else |p|
  {
    var n, a := |r.committed|, AcceptFrom(r, p, Remaining(r), stride, 0);
    OwnTokensAccepted(r, p, stride, 0);
    AcceptsUpToStride(r, p, stride, 0);
    if stride > 0 {
      var d := stride - n % stride;
      NextHit(n, stride, d);
      assert StrideHit(r, p, d - 1, stride) <==> d < |p|;
      assert StrideHit(r, p, a - 1, stride) <==> (n + a) % stride == 0 && a < |p|;
      if a < d {
        NextHit(n, stride, a);
      }
    }
  }

  /** What one decode step accepts, in closed form. */
  lemma DecideAdvances(cfg: Config, r: Req)
    requires BlockWidth(cfg, r) >= 1 && |r.committed| < Goal(r)
    ensures var k := Advance(cfg.acceptance, BlockWidth(cfg, r), Goal(r), |r.committed|);
      k <= |Remaining(r)| && Decide(cfg, r).accepted == Remaining(r)[..k]
    ensures var d, p := Decide(cfg, r), Min(BlockWidth(cfg, r), Goal(r) - |r.committed|);
      && (d.fallback <==> cfg.acceptance.rejectDraftBlocks && p > 1)
      && d.proposed == Remaining(r)[..if d.fallback then 1 else p]
  {
    var p := Propose(r, BlockWidth(cfg, r), cfg.proposerEos);
    assert p == Remaining(r)[..Min(BlockWidth(cfg, r), Goal(r) - |r.committed|)];
    AcceptedPart(r, p, cfg.acceptance.mismatchStride);
    var one := Propose(r, 1, cfg.proposerEos);
    assert one == Remaining(r)[..1];
    AcceptedPart(r, one, cfg.acceptance.mismatchStride);
  }

  // ------------------------------------------------------------- serial decode

  /** No EOS before the last token of the goal. */
  predicate EosOnlyLast(r: Req) {
    forall i :: 0 <= i < Goal(r) - 1 ==> r.target[i] != r.eos
  }

  /** The first position from `i` on where serial decode stops: behind an EOS, or at the goal. */
  function StopFrom(r: Req, i: nat): (k: nat)
    requires i <= Goal(r)
    ensures i <= k <= Goal(r)
    ensures k < Goal(r) ==> k > i && r.target[k - 1] == r.eos
    ensures forall j :: i <= j < k - 1 ==> r.target[j] != r.eos
    decreases Goal(r) - i
  {
    if i == Goal(r) then i else if r.target[i] == r.eos then i + 1 else StopFrom(r, i + 1)
  }

  /** What plain serial decode returns. */
  function SerialTokens(r: Req): seq<int> { r.target[..StopFrom(r, 0)] }

  lemma SerialIsGoal(r: Req)
    ensures SerialTokens(r) == r.target[..Goal(r)] <==> EosOnlyLast(r)
  {
    var k := StopFrom(r, 0);
    assert |SerialTokens(r)| == k && |r.target[..Goal(r)]| == Goal(r);
  }

  // ---------------------------------------------------- blocks of one fixed size

  /** Where blocks of `width` from position `n` on first end in EOS, or reach the goal. */
  function WalkFrom(a: AcceptancePolicy, width: int, r: Req, n: nat): (k: nat)
    requires width >= 1 && n <= Goal(r)
    ensures n <= k <= Goal(r)
    decreases Goal(r) - n
  {
    if n == Goal(r) then n
    else
      var k := n + Advance(a, width, Goal(r), n);
      if r.target[k - 1] == r.eos then k else WalkFrom(a, width, r, k)
  }

  /** Does one of the blocks from `n` on end at `stop`? */
  predicate OnBoundary(a: AcceptancePolicy, width: int, goal: nat, n: nat, stop: nat)
    requires width >= 1 && n <= goal
    decreases goal - n
  {
    n == stop || (n < stop && n < goal && OnBoundary(a, width, goal, n + Advance(a, width, goal, n), stop))
  }

  /** The walk stops where serial decode does exactly if a block ends there. */
  lemma {:induction false} WalkMeetsSerial(a: AcceptancePolicy, width: int, r: Req, n: nat)
    requires width >= 1 && n <= Goal(r)
    ensures WalkFrom(a, width, r, n) == StopFrom(r, n) <==> OnBoundary(a, width, Goal(r), n, StopFrom(r, n))
    decreases Goal(r) - n
  {
    var stop := StopFrom(r, n);
    if n < Goal(r) {
      var k := n + Advance(a, width, Goal(r), n);
      if k < stop {
        assert r.target[k - 1] != r.eos;
        StopLater(r, n, k);
        WalkMeetsSerial(a, width, r, k);
      }
    }
  }

  lemma {:induction false} StopLater(r: Req, n: nat, k: nat)
    requires n <= k <= Goal(r) && k < StopFrom(r, n)
    ensures StopFrom(r, k) == StopFrom(r, n)
    decreases k - n
  {
    if n < k {
      StopLater(r, n + 1, k);
    }
  }

  /** Without stride and rejection, blocks end at the multiples of their size and at the goal. */
  lemma {:induction false} PlainBoundaries(a: AcceptancePolicy, width: int, goal: nat, n: nat, stop: nat)
    requires width >= 1 && n <= stop <= goal && a.mismatchStride <= 0 && !a.rejectDraftBlocks
    ensures OnBoundary(a, width, goal, n, stop) <==> stop == goal || (stop - n) % width == 0
    decreases goal - n
  {
    if n < stop {
      var k := n + Advance(a, width, goal, n);
      if k <= stop {
        PlainBoundaries(a, width, goal, k, stop);
        if k == n + width {
          SameMod(stop - k, width);
        }
      } else {
        ModUnique(stop - n, width, 0, stop - n);
      }
    }
  }

  lemma SameMod(x: int, b: int)
    requires b >= 1
    ensures (x + b) % b == x % b
  {
    MulStep(x / b, b);
    assert x == (x / b) * b + x % b;
    ModUnique(x + b, b, x / b + 1, x % b);
  }

  // ------------------------------------------------------------ recorded blocks

  /** The tokens that traces account for. */
  function Concat(ts: seq<Trace>): seq<int> {
    if ts == [] then [] else Concat(ts[..|ts| - 1]) + ts[|ts| - 1].accepted
  }

  lemma ConcatSnoc(ts: seq<Trace>, t: Trace)
    ensures Concat(ts + [t]) == Concat(ts) + t.accepted
  {
    assert (ts + [t])[..|ts|] == ts;
  }

  /** The tokens of the first `i` traces. */
  function Reached(ts: seq<Trace>, i: nat): nat
    requires i <= |ts|
  {
    if i == 0 then 0 else Reached(ts, i - 1) + |ts[i - 1].accepted|
  }

  lemma {:induction false} ReachedBefore(ts: seq<Trace>, us: seq<Trace>, i: nat)
    requires i <= |ts| && ts <= us
    ensures Reached(us, i) == Reached(ts, i)
  {
    if i > 0 {
      ReachedBefore(ts, us, i - 1);
    }
  }

  lemma {:induction false} ReachedAll(ts: seq<Trace>)
    ensures |Concat(ts)| == Reached(ts, |ts|)
  {
    if ts != [] {
      var k := |ts| - 1;
      ReachedAll(ts[..k]);
      ReachedBefore(ts[..k], ts, k);
    }
  }

  /**
   What step `t` from position `n` proposes: the next target tokens, as many as the block
   and the goal allow, or a single one after a longer block was rejected outright; what
   it accepts is the head of them. With an empty goal only the proposer's EOS is offered.
   */
  ghost predicate Drafted(cfg: Config, r: Req, n: nat, t: Trace) {
    if n < Goal(r) then
      var p := Min(t.blockSizeUsed, Goal(r) - n);
      && (t.usedFallback <==> cfg.acceptance.rejectDraftBlocks && p > 1)
      && t.proposed == Slice(r.target, n, if t.usedFallback then 1 else p)
      && t.accepted == Slice(r.target, n, |t.accepted|)
    else !t.usedFallback && t.proposed == [cfg.proposerEos]
  }

  /** Step `t` from position `n`: nothing has stopped there, and the block in use sets the length. */
  ghost predicate WalkStep(cfg: Config, r: Req, n: nat, t: Trace) {
    && t.blockSizeUsed >= 1 && (cfg.adaptive.None? ==> t.blockSizeUsed == cfg.blockSize)
    && (n == 0 ==> t.blockSizeUsed == BlockWidth(cfg, r))
    && (n > 0 ==> n < Goal(r) && r.target[n - 1] != r.eos)
    && |t.accepted| == (if n < Goal(r) then Advance(cfg.acceptance, t.blockSizeUsed, Goal(r), n) else 0)
    && Drafted(cfg, r, n, t)
  }

  ghost predicate StepAt(cfg: Config, r: Req, ts: seq<Trace>, i: int)
    requires 0 <= i < |ts|
  {
    WalkStep(cfg, r, Reached(ts, i), ts[i])
  }

  /** With token budget, the traces are steps of the walk one after another. */
  ghost predicate Walked(cfg: Config, r: Req, ts: seq<Trace>) {
    r.maxNew >= 1 ==> forall i :: 0 <= i < |ts| ==> StepAt(cfg, r, ts, i)
  }

  lemma WalkedSnoc(cfg: Config, r: Req, ts: seq<Trace>, t: Trace)
    requires Walked(cfg, r, ts) && (r.maxNew >= 1 ==> WalkStep(cfg, r, |Concat(ts)|, t))
    ensures Walked(cfg, r, ts + [t])
  {
    var us := ts + [t];
    ReachedAll(ts);
    forall i | 0 <= i < |us| && r.maxNew >= 1 ensures StepAt(cfg, r, us, i) {
      ReachedBefore(ts, us, i);
      assert i < |ts| ==> StepAt(cfg, r, ts, i);
    }
  }

  /** Position `n` is where the walk stops, or one it comes through. */
  ghost predicate OnWalk(cfg: Config, r: Req, n: nat)
    requires cfg.blockSize >= 1
  {
    var end := WalkFrom(cfg.acceptance, cfg.blockSize, r, 0);
    && n <= Goal(r)
    && if n > 0 && (n == Goal(r) || r.target[n - 1] == r.eos) then end == n
       else end == WalkFrom(cfg.acceptance, cfg.blockSize, r, n)
  }

  lemma OnWalkNext(cfg: Config, r: Req, n: nat, t: Trace)
    requires cfg.adaptive.None? && cfg.blockSize >= 1 && OnWalk(cfg, r, n) && WalkStep(cfg, r, n, t)
    ensures OnWalk(cfg, r, n + |t.accepted|)
  {}

  /** Recorded blocks of a fixed size are the computed ones. */
  lemma {:induction false} WalkedIsWalk(cfg: Config, r: Req, ts: seq<Trace>, i: nat)
    requires cfg.adaptive.None? && cfg.blockSize >= 1 && r.maxNew >= 1 && Walked(cfg, r, ts) && i <= |ts|
    ensures OnWalk(cfg, r, Reached(ts, i))
  {
    if i > 0 {
      WalkedIsWalk(cfg, r, ts, i - 1);
      assert StepAt(cfg, r, ts, i - 1);
      OnWalkNext(cfg, r, Reached(ts, i - 1), ts[i - 1]);
    }
  }

  /** Some of the traces, from the first on, add up to `n` tokens. */
  ghost predicate EndsAt(ts: seq<Trace>, n: nat) { exists i: nat :: i <= |ts| && Reached(ts, i) == n }

  /** Tokens that stop at the goal or behind EOS are the serial ones exactly if some recorded block ends there. */
  lemma RecordedBoundary(cfg: Config, r: Req, ts: seq<Trace>)
    requires r.maxNew >= 1 && Walked(cfg, r, ts) && Concat(ts) <= r.target && |Concat(ts)| <= Goal(r)
    requires |Concat(ts)| == Goal(r) || (Concat(ts) != [] && r.target[|Concat(ts)| - 1] == r.eos)
    ensures Concat(ts) == SerialTokens(r) <==> EndsAt(ts, StopFrom(r, 0))
  {
    var stop := StopFrom(r, 0);
    ReachedAll(ts);
    assert |SerialTokens(r)| == stop;
    if i: nat :| i <= |ts| && Reached(ts, i) == stop {
      if i < |ts| {
        assert StepAt(cfg, r, ts, i);
      }
      assert Concat(ts) == r.target[..|Concat(ts)|];
    }
  }

  /** One block covers the whole goal, and nothing cuts it short. */
  ghost predicate Wide(cfg: Config, r: Req) {
    BlockWidth(cfg, r) >= Goal(r) && cfg.acceptance.mismatchStride <= 0 && !cfg.acceptance.rejectDraftBlocks
  }

  /** A first block as wide as the goal is accepted as a whole. */
  lemma {:induction false} WideIsWhole(cfg: Config, r: Req, ts: seq<Trace>, i: nat)
    requires Wide(cfg, r) && r.maxNew >= 1 && Walked(cfg, r, ts) && 1 <= i <= |ts|
    ensures Reached(ts, i) >= Goal(r)
  {
    if i == 1 {
      assert StepAt(cfg, r, ts, 0);
    } else {
      WideIsWhole(cfg, r, ts, i - 1);
    }
  }
}
