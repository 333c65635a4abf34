/**
 Runs against plain serial decode: which tokens a run returns, exactly when they are
 the serial ones, and inputs for which they are not.
 */
module RuntimeLossless {
  import opened Sequences
  import opened KvCacheModel
  import opened Requests
  import opened SpecDecode
  import opened RuntimeModel
  import opened BlockWalk
  import opened RuntimeTokens

  /** Any admissible result extends the serial one; a serial result is the serial one, a wide one is the goal. */
  lemma FinalAgainstSerial(cfg: Config, r: Req, ts: seq<Trace>)
    requires FinalTokens(cfg, r, Concat(ts)) && Walked(cfg, r, ts) && r.maxNew >= 1
    ensures SerialTokens(r) <= Concat(ts) <= r.target[..Goal(r)]
    ensures SerialConfig(cfg) ==> Concat(ts) == SerialTokens(r)
    ensures Wide(cfg, r) ==> Concat(ts) == r.target[..Goal(r)]
  {
    var tokens := Concat(ts);
    assert forall i :: 0 <= i < |tokens| ==> tokens[i] == r.target[i];
    assert tokens == r.target[..|tokens|];
    if Wide(cfg, r) && ts != [] {
      WideIsWhole(cfg, r, ts, |ts|);
      ReachedAll(ts);
    }
  }

  /**
   Against plain serial decode: a run with any block sizes returns, for each
   request, the serial tokens possibly followed by more of its goal; width-one
   runs return exactly the serial tokens, and runs whose first block covers the
   goal return all of it.
   */
  lemma RunAgainstSerial(cfg: Config, c: Cache, q: seq<Req>, k: nat)
    requires GoodBlocks(cfg) && c.pageSize >= 1
    requires NoDup(IdsOf(q)) && forall r :: r in q ==> FreshRequest(cfg, r) && r.maxNew >= 1
    requires Iterate(cfg, Initial(c, q), k).stage.Returned?
    ensures var rs := Iterate(cfg, Initial(c, q), k).results;
      forall i, j :: 0 <= i < |rs| && 0 <= j < |q| && rs[i].requestId == q[j].requestId ==>
        && SerialTokens(q[j]) <= rs[i].committed <= q[j].target[..Goal(q[j])]
        && (SerialConfig(cfg) ==> rs[i].committed == SerialTokens(q[j]))
        && (Wide(cfg, q[j]) ==> rs[i].committed == q[j].target[..Goal(q[j])])
  {
    RunReturns(cfg, c, q, k);
    var rs := Iterate(cfg, Initial(c, q), k).results;
    forall i, j | 0 <= i < |rs| && 0 <= j < |q| && rs[i].requestId == q[j].requestId
      ensures SerialTokens(q[j]) <= rs[i].committed <= q[j].target[..Goal(q[j])]
      ensures SerialConfig(cfg) ==> rs[i].committed == SerialTokens(q[j])
      ensures Wide(cfg, q[j]) ==> rs[i].committed == q[j].target[..Goal(q[j])]
    {
      assert q[j] in q && Concat(rs[i].traces) == rs[i].committed;
      FinalAgainstSerial(cfg, q[j], rs[i].traces);
    }
  }

  /** Result `i` of a run that has returned is that of submitted request `j`. */
  ghost predicate ResultOf(s: Rt, q: seq<Req>, i: int, j: int) {
    && s.stage.Returned? && 0 <= i < |s.results| && 0 <= j < |q|
    && s.results[i].requestId == q[j].requestId
  }

  /** With a fixed block size every run returns the same tokens: those up to where its blocks first end in EOS. */
  lemma FixedBlockTokens(cfg: Config, c: Cache, q: seq<Req>, k: nat, i: int, j: int)
    requires GoodBlocks(cfg) && cfg.adaptive.None? && c.pageSize >= 1
    requires NoDup(IdsOf(q)) && forall r :: r in q ==> FreshRequest(cfg, r) && r.maxNew >= 1
    requires ResultOf(Iterate(cfg, Initial(c, q), k), q, i, j)
    ensures Iterate(cfg, Initial(c, q), k).results[i].committed
         == q[j].target[..WalkFrom(cfg.acceptance, cfg.blockSize, q[j], 0)]
  {
    RunReturns(cfg, c, q, k);
    var r, res := q[j], Iterate(cfg, Initial(c, q), k).results[i];
    assert r in q && Concat(res.traces) == res.committed;
    WalkedIsWalk(cfg, r, res.traces, |res.traces|);
    ReachedAll(res.traces);
    assert res.committed == r.target[..|res.committed|];
  }

  /**
   When a run is lossless: exactly if some block it recorded ends where serial
   decode stops. With a fixed block size that is known before the run: exactly if
   the walk over the goal has a boundary there. No EOS before the last token of the
   goal is enough; it is necessary too where one block covers the goal.
   */
  lemma LosslessExactly(cfg: Config, c: Cache, q: seq<Req>, k: nat, i: int, j: int)
    requires GoodBlocks(cfg) && c.pageSize >= 1
    requires NoDup(IdsOf(q)) && forall r :: r in q ==> FreshRequest(cfg, r) && r.maxNew >= 1
    requires ResultOf(Iterate(cfg, Initial(c, q), k), q, i, j)
    ensures var res, r := Iterate(cfg, Initial(c, q), k).results[i], q[j];
      var lossless := res.committed == SerialTokens(r);
      && (lossless <==> EndsAt(res.traces, StopFrom(r, 0)))
      && (cfg.adaptive.None? ==>
            (lossless <==> OnBoundary(cfg.acceptance, cfg.blockSize, Goal(r), 0, StopFrom(r, 0))))
      && (EosOnlyLast(r) ==> lossless)
      && (Wide(cfg, r) ==> (lossless <==> EosOnlyLast(r)))
  {
    var res, r := Iterate(cfg, Initial(c, q), k).results[i], q[j];
    RunReturns(cfg, c, q, k);
    RunAgainstSerial(cfg, c, q, k);
    SerialIsGoal(r);
    assert r in q && Concat(res.traces) == res.committed;
    RecordedBoundary(cfg, r, res.traces);
    if cfg.adaptive.None? {
      FixedBlockTokens(cfg, c, q, k, i, j);
      WalkMeetsSerial(cfg.acceptance, cfg.blockSize, r, 0);
      assert |res.committed| == WalkFrom(cfg.acceptance, cfg.blockSize, r, 0);
    }
  }

  /** A request as the client builds it, on one layer and with an empty prompt. */
  function Plain(target: seq<int>, maxNew: int, eos: int): Req {
    Req(1, [], target, maxNew, eos, 0, [0], [], [], WaitingPrefill, None, false, false, 0, 0.80, 4, [])
  }

  function FixedBlock(size: int, eos: int): Config {
    Config(size, eos, 1, 1, true, AcceptancePolicy(0, false), None, None)
  }

  /** An EOS inside a block: serial decode stops behind it, one block of two tokens runs past it. */
  lemma EosInTheMiddle(eos: int)
    ensures var cfg, r := FixedBlock(2, eos), Plain([eos, eos + 1], 2, eos);
      && FreshRequest(cfg, r) && Wide(cfg, r) && !EosOnlyLast(r)
      && SerialTokens(r) == [eos] && Decide(cfg, r).accepted == [eos, eos + 1]
      && WalkFrom(cfg.acceptance, 2, r, 0) == 2 && !OnBoundary(cfg.acceptance, 2, Goal(r), 0, 1)
  {
    var cfg, r := FixedBlock(2, eos), Plain([eos, eos + 1], 2, eos);
    DecideAdvances(cfg, r);
    assert r.target[0] == eos && r.target[1] == eos + 1;
    assert StopFrom(r, 0) == 1;
    assert Remaining(r) == r.target;
  }

  /** An EOS before the last token, but at the end of a block: every run still returns the serial tokens. */
  lemma EosOnABoundary(eos: int)
    ensures var cfg, r := FixedBlock(2, eos), Plain([eos + 1, eos, eos + 1, eos + 1], 4, eos);
      && FreshRequest(cfg, r) && !Wide(cfg, r) && !EosOnlyLast(r)
      && StopFrom(r, 0) == 2 && OnBoundary(cfg.acceptance, 2, Goal(r), 0, 2)
  {
    var r := Plain([eos + 1, eos, eos + 1, eos + 1], 4, eos);
    assert r.target[0] == eos + 1 && r.target[1] == eos;
    assert StopFrom(r, 1) == 2;
    PlainBoundaries(AcceptancePolicy(0, false), 2, 4, 0, 2);
  }

  /**
   Without token budget a run is lossless exactly when the target does not start
   with the proposer's EOS token, which is committed beyond the budget.
   */
  lemma NoBudgetTokens(cfg: Config, c: Cache, q: seq<Req>, k: nat, i: int, j: int)
    requires GoodBlocks(cfg) && c.pageSize >= 1
    requires NoDup(IdsOf(q)) && forall r :: r in q ==> FreshRequest(cfg, r)
    requires ResultOf(Iterate(cfg, Initial(c, q), k), q, i, j) && q[j].maxNew <= 0
    ensures var tokens, r := Iterate(cfg, Initial(c, q), k).results[i].committed, q[j];
      && (tokens == SerialTokens(r) <==> r.target == [] || r.target[0] != cfg.proposerEos)
      && SerialTokens(r) == []
  {
    RunReturns(cfg, c, q, k);
  }

  /** No budget, and a target that is the EOS token: every run that returns reports one token too many. */
  lemma EosBeyondBudget(c: Cache, eos: int, k: nat)
    requires c.pageSize >= 1
    ensures var s := Iterate(FixedBlock(1, eos), Initial(c, [Plain([eos], 0, eos)]), k);
      s.stage.Returned? ==> |s.results| == 1 && s.results[0].committed == [eos] && |s.results[0].committed| > 0
  {
    var cfg, q := FixedBlock(1, eos), [Plain([eos], 0, eos)];
    var s := Iterate(cfg, Initial(c, q), k);
    if s.stage.Returned? {
      RunReturns(cfg, c, q, k);
      assert IdsOf(q) == [1];
      assert |multiset(ResultIds(s.results))| == 1;
      assert ResultIds(s.results)[0] in multiset(ResultIds(s.results));
    }
  }

  /** A negative block size counts from the end of the target and passes the budget. */
  lemma NegativeBlockOverruns(eos: int)
    requires eos != 5
    ensures var d := Decide(FixedBlock(-1, eos), Plain([5, 5, 5], 1, eos)); d.accepted == [5, 5] && |d.accepted| > 1
  {
    var r := Plain([5, 5, 5], 1, eos);
    assert Remaining(r) == [5, 5, 5];
    AcceptedPart(r, [5, 5], 0);
  }

  // -------------------------------------------------------------- runs that stall

  lemma ZeroBlockTokens(cfg: Config, r: Req, q: Req, t: Trace)
    requires BlockWidth(cfg, r) == 0 && !r.finished && Remaining(r) != [] && BudgetLeft(r) > 0
    requires TokenStep(cfg, r, q, t)
    ensures !q.finished && q.committed == r.committed
  {
    assert Decide(cfg, r).proposed == [] && Decide(cfg, r).accepted == [];
    assert r.committed + [] == r.committed;
  }

  /** The block size is zero and never changes: fixed at zero, or adapted between bounds that allow nothing else. */
  predicate StaysZero(cfg: Config) {
    match cfg.adaptive
    case None => cfg.blockSize == 0
    case Some(policy) => policy.minBlock == 0 && policy.maxBlock <= 0
  }

  lemma ZeroStays(cfg: Config, r: Req, q: Req, t: Trace)
    requires StaysZero(cfg) && TokenStep(cfg, r, q, t)
    ensures BlockWidth(cfg, q) == 0
  {}

  predicate NoProgress(cfg: Config, q: Req) { q.committed == [] && !q.finished && BlockWidth(cfg, q) == 0 }

  /** A request in flight that has made no progress. */
  ghost predicate Stuck(cfg: Config, s: Rt, r: Req) {
    exists q :: q in AllReqs(s) && SameIdentity(q, r) && NoProgress(cfg, q)
  }

  /** What a step changes about the requests in flight: one of them, from `r` to `q`. */
  lemma StuckMoves(cfg: Config, s: Rt, n: Rt, x: Req, r: Req, q: Req)
    requires Stuck(cfg, s, x)
    requires forall y :: y in AllReqs(s) && y != r ==> y in AllReqs(n)
    requires q in AllReqs(n) && SameIdentity(q, r)
    requires SameIdentity(r, x) && NoProgress(cfg, r) ==> NoProgress(cfg, q)
    ensures Stuck(cfg, n, x)
  {
    var y :| y in AllReqs(s) && SameIdentity(y, x) && NoProgress(cfg, y);
    if y == r {
      assert SameIdentity(q, x);
    }
  }

  lemma HeadsCovered(s: Rt)
    ensures s.prefillQ != [] ==> s.prefillQ == [s.prefillQ[0]] + s.prefillQ[1..]
    ensures s.prefilled != [] ==> s.prefilled == [s.prefilled[0]] + s.prefilled[1..]
    ensures s.decodeQ != [] ==> s.decodeQ == [s.decodeQ[0]] + s.decodeQ[1..]
    ensures s.batch != [] ==> BatchReqs(s.batch) == [s.batch[0].0] + BatchReqs(s.batch[1..])
  {}

  lemma PrefillKeepsStuck(cfg: Config, s: Rt, x: Req)
    requires s.cache.pageSize >= 1 && Stuck(cfg, s, x) && s.prefillQ != []
    ensures Stuck(cfg, AfterPrefill(s, PrefillOne(cfg, s.cache, s.prefillQ[0])), x)
  {
    var r, o := s.prefillQ[0], PrefillOne(cfg, s.cache, s.prefillQ[0]);
    PrefillTokens(cfg, s.cache, r);
    HeadsCovered(s);
    if o.Prefilled? {
      StuckMoves(cfg, s, AfterPrefill(s, o), x, r, o.req);
    }
  }

  lemma DecodeKeepsStuck(cfg: Config, s: Rt, x: Req)
    requires s.cache.pageSize >= 1 && Stuck(cfg, s, x) && s.stage.Decoding? && s.stage.slots > 0 && s.decodeQ != []
    requires StaysZero(cfg) && x.target != [] && x.maxNew >= 1
    ensures Stuck(cfg, AfterDecode(s, DecodeOne(cfg, s.cache, s.decodeQ[0])), x)
  {
    var r, o := s.decodeQ[0], DecodeOne(cfg, s.cache, s.decodeQ[0]);
    DecodeTokens(cfg, s.cache, r);
    HeadsCovered(s);
    if o.Decoded? {
      BatchSnoc(s.batch, o.req, o.trace);
      if SameIdentity(r, x) && NoProgress(cfg, r) {
        ZeroBlockTokens(cfg, r, o.req, o.trace);
        ZeroStays(cfg, r, o.req, o.trace);
      }
      StuckMoves(cfg, s, AfterDecode(s, o), x, r, o.req);
    }
  }

  lemma StepKeepsStuck(cfg: Config, s: Rt, x: Req)
    requires s.cache.pageSize >= 1 && Stuck(cfg, s, x)
    requires StaysZero(cfg) && x.target != [] && x.maxNew >= 1
    ensures Stuck(cfg, Step(cfg, s), x)
  {
    HeadsCovered(s);
    if s.stage.Prefilling? && s.prefillQ != [] {
      PrefillKeepsStuck(cfg, s, x);
    } else if s.stage.Enqueuing? && s.prefilled != [] {
      PushMember(s.decodeQ, s.prefilled[0]);
      StuckMoves(cfg, s, AfterEnqueue(s), x, s.prefilled[0], s.prefilled[0]);
    } else if s.stage.Decoding? && s.stage.slots > 0 && s.decodeQ != [] {
      StepIsDecode(cfg, s);
      DecodeKeepsStuck(cfg, s, x);
    } else if s.stage.Settling? && s.batch != [] {
      SettleKeepsStuck(cfg, s, x);
    }
  }

  lemma SettleKeepsStuck(cfg: Config, s: Rt, x: Req)
    requires Stuck(cfg, s, x) && s.batch != []
    ensures Stuck(cfg, AfterSettle(s), x)
  {
    var r, n := s.batch[0].0, AfterSettle(s);
    HeadsCovered(s);
    PushMember(s.decodeQ, r);
    var y :| y in AllReqs(s) && SameIdentity(y, x) && NoProgress(cfg, y);
    assert y in AllReqs(n);
  }

  /** With a block size that stays zero a run that has anything to say never returns. */
  lemma ZeroBlockNeverReturns(cfg: Config, c: Cache, q: seq<Req>, x: Req, k: nat)
    requires c.pageSize >= 1 && StaysZero(cfg)
    requires x in q && NoProgress(cfg, x) && x.target != [] && x.maxNew >= 1
    ensures !Iterate(cfg, Initial(c, q), k).stage.Returned?
  {
    var s := Initial(c, q);
    assert x in AllReqs(s);
    forall t: Rt | t.cache.pageSize >= 1 && Stuck(cfg, t, x) ensures Stuck(cfg, Step(cfg, t), x) {
      StepKeepsStuck(cfg, t, x);
    }
    RunKeeps(cfg, t => Stuck(cfg, t, x), s, k);
    RunTidy(cfg, s, k);
    StuckInFlight(cfg, Iterate(cfg, s, k), x);
  }

  lemma StuckInFlight(cfg: Config, s: Rt, x: Req)
    requires Stuck(cfg, s, x) && Tidy(s)
    ensures !s.stage.Returned?
  {
    assert AllReqs(s) != [];
    if s.batch == [] {
      assert BatchReqs(s.batch) == [];
    }
  }
}
