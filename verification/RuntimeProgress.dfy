/**
 Progress of a run: every run ends, after no more decode steps than its requests
 have tokens to produce.
 */
module RuntimeProgress {
  import opened Sequences
  import opened KvCacheModel
  import opened Requests
  import opened RuntimeModel
  import opened RuntimeTokens

  // ----------------------------------------------------------------------- sums

  function Sum(f: Req -> int, q: seq<Req>): int {
    if q == [] then 0 else Sum(f, q[..|q| - 1]) + f(q[|q| - 1])
  }

  lemma SumSnoc(f: Req -> int, q: seq<Req>, r: Req)
    ensures Sum(f, q + [r]) == Sum(f, q) + f(r)
  {
    assert (q + [r])[..|q|] == q;
  }

  lemma {:induction false} SumConcat(f: Req -> int, p: seq<Req>, q: seq<Req>)
    ensures Sum(f, p + q) == Sum(f, p) + Sum(f, q)
  {
    if q == [] {
      assert p + q == p;
    } else {
      var k := |q| - 1;
      SumConcat(f, p, q[..k]);
      assert p + q == (p + q[..k]) + [q[k]];
      SumSnoc(f, p + q[..k], q[k]);
    }
  }

  lemma SumHead(f: Req -> int, q: seq<Req>)
    requires q != []
    ensures Sum(f, q) == f(q[0]) + Sum(f, q[1..])
  {
    assert q == [q[0]] + q[1..];
    assert [q[0]][..0] == [];
    SumConcat(f, [q[0]], q[1..]);
  }

  lemma {:induction false} SumPush(f: Req -> int, q: seq<Req>, r: Req)
    ensures Sum(f, Push(q, r)) == Sum(f, q) + f(r)
  {
    if q == [] || q[|q| - 1].priority >= r.priority {
      SumSnoc(f, q, r);
    } else {
      var k := |q| - 1;
      SumPush(f, q[..k], r);
      SumSnoc(f, Push(q[..k], r), q[k]);
    }
  }

  lemma {:induction false} SumLe(f: Req -> int, g: Req -> int, q: seq<Req>)
    requires forall r :: r in q ==> f(r) <= g(r)
    ensures Sum(f, q) <= Sum(g, q)
  {
    if q != [] {
      var k := |q| - 1;
      assert q == q[..k] + [q[k]];
      SumLe(f, g, q[..k]);
    }
  }

  /** The sum over everything in the runtime. */
  function Everything(f: Req -> int, s: Rt): int {
    Sum(f, s.prefillQ) + Sum(f, s.prefilled) + Sum(f, s.decodeQ) + Sum(f, BatchReqs(s.batch))
  }

  lemma PrefillSum(f: Req -> int, s: Rt, o: PrefillOutcome)
    requires s.prefillQ != [] && o.Prefilled?
    ensures Everything(f, AfterPrefill(s, o)) == Everything(f, s) - f(s.prefillQ[0]) + f(o.req)
  {
    SumHead(f, s.prefillQ);
    SumSnoc(f, s.prefilled, o.req);
  }

  lemma EnqueueSum(f: Req -> int, s: Rt)
    requires s.prefilled != []
    ensures Everything(f, AfterEnqueue(s)) == Everything(f, s)
  {
    SumHead(f, s.prefilled);
    SumPush(f, s.decodeQ, s.prefilled[0]);
  }

  lemma DecodeSum(f: Req -> int, s: Rt, o: DecodeOutcome)
    requires s.stage.Decoding? && s.stage.slots > 0 && s.decodeQ != [] && o.Decoded?
    ensures Everything(f, AfterDecode(s, o)) == Everything(f, s) - f(s.decodeQ[0]) + f(o.req)
  {
    SumHead(f, s.decodeQ);
    BatchSnoc(s.batch, o.req, o.trace);
    SumSnoc(f, BatchReqs(s.batch), o.req);
  }

  lemma SettleSum(f: Req -> int, s: Rt)
    requires s.batch != []
    ensures var r := s.batch[0].0;
      Everything(f, AfterSettle(s)) == Everything(f, s) - if r.finished then f(r) else 0
  {
    BatchHead(s.batch);
    SumHead(f, BatchReqs(s.batch));
    if !s.batch[0].0.finished {
      SumPush(f, s.decodeQ, s.batch[0].0);
    }
  }

  // ---------------------------------------------------------------- termination

  /** Decode steps a request may still need. */
  function Debt(r: Req): int { if r.finished then 0 else Max(1, Goal(r) - |r.committed|) }

  lemma {:induction false} DebtPositive(q: seq<Req>)
    ensures Sum(Debt, q) >= 0
  {
    if q != [] {
      DebtPositive(q[..|q| - 1]);
    }
  }

  function Owed(s: Rt): int { Everything(Debt, s) }

  /** A decode step pays off at least one step of debt. */
  lemma DecodePays(cfg: Config, r: Req, q: Req, t: Trace)
    requires GoodBlocks(cfg) && Waiting(cfg, r) && TokenStep(cfg, r, q, t)
    ensures Debt(q) + 1 <= Debt(r)
  {
    TokenStepProgress(cfg, r, q, t);
  }

  /** Decode steps made and owed never exceed what was owed at the start. */
  ghost predicate Paying(cfg: Config, subs: map<int, Req>, bound: int, s: Rt) {
    TokenInv(cfg, subs, s) && s.decodeSteps + Owed(s) <= bound
  }

  lemma PrefillOwes(cfg: Config, s: Rt)
    requires s.cache.pageSize >= 1 && s.prefillQ != []
    ensures var n := AfterPrefill(s, PrefillOne(cfg, s.cache, s.prefillQ[0]));
      Owed(n) == Owed(s) && n.decodeSteps == s.decodeSteps
  {
    var o := PrefillOne(cfg, s.cache, s.prefillQ[0]);
    PrefillTokens(cfg, s.cache, s.prefillQ[0]);
    if o.Prefilled? {
      PrefillSum(Debt, s, o);
    }
  }

  /** `n` raised, or made a decode step that paid off debt. */
  ghost predicate DecodePaid(s: Rt, n: Rt) {
    if n.stage.Raised? then Owed(n) == Owed(s) && n.decodeSteps == s.decodeSteps && n.batch == s.batch
    else Owed(n) + 1 <= Owed(s) && n.decodeSteps == s.decodeSteps + 1 && |n.batch| == |s.batch| + 1
  }

  lemma DecodeOwes(cfg: Config, subs: map<int, Req>, s: Rt)
    requires GoodBlocks(cfg) && s.cache.pageSize >= 1 && TokenInv(cfg, subs, s)
    requires s.stage.Decoding? && s.stage.slots > 0 && s.decodeQ != []
    ensures DecodePaid(s, AfterDecode(s, DecodeOne(cfg, s.cache, s.decodeQ[0])))
  {
    var o := DecodeOne(cfg, s.cache, s.decodeQ[0]);
    DecodeTokens(cfg, s.cache, s.decodeQ[0]);
    if o.Decoded? {
      assert QueuedOk(cfg, subs, s, s.decodeQ[0]);
      DecodePays(cfg, s.decodeQ[0], o.req, o.trace);
      DecodeSum(Debt, s, o);
    }
  }

  lemma StepPays(cfg: Config, subs: map<int, Req>, bound: int, s: Rt)
    requires GoodBlocks(cfg) && s.cache.pageSize >= 1 && Paying(cfg, subs, bound, s)
    ensures Paying(cfg, subs, bound, Step(cfg, s))
  {
    StepKeepsTokens(cfg, subs, s);
    if s.stage.Prefilling? && s.prefillQ != [] {
      PrefillOwes(cfg, s);
    } else if s.stage.Enqueuing? && s.prefilled != [] {
      EnqueueSum(Debt, s);
    } else if s.stage.Decoding? && s.stage.slots > 0 && s.decodeQ != [] {
      DecodeOwes(cfg, subs, s);
    } else if s.stage.Settling? && s.batch != [] {
      SettleSum(Debt, s);
    }
  }

  /** The loop never decodes without a request to decode. */
  ghost predicate LoopOk(s: Rt) {
    match s.stage
    case Prefilling => s.prefillQ + s.prefilled + s.decodeQ != []
    case Enqueuing => s.prefilled + s.decodeQ != []
    case Decoding(n) => n <= |s.decodeQ| && (n == 0 ==> s.batch != [])
    case _ => true
  }

  lemma {:induction false} PushLonger(q: seq<Req>, r: Req)
    ensures |Push(q, r)| == |q| + 1
  {
    if !(q == [] || q[|q| - 1].priority >= r.priority) {
      PushLonger(q[..|q| - 1], r);
    }
  }

  lemma StepLoopOk(cfg: Config, s: Rt)
    requires s.cache.pageSize >= 1 && cfg.decodeWorkers >= 1 && LoopOk(s) && Tidy(s)
    ensures LoopOk(Step(cfg, s))
  {
    if s.stage.Enqueuing? && s.prefilled != [] {
      PushLonger(s.decodeQ, s.prefilled[0]);
    }
  }

  function Rank(s: Rt): nat {
    match s.stage
    case Decoding(_) => if s.batch == [] then 2 else 7
    case Settling => 6
    case Top => 5
    case Prefilling => 4
    case Enqueuing => 3
    case Returned => 0
    case Raised => 0
  }

  /** What is left to do, most significant part first: tokens and unsettled results, then prefills. */
  function WorkLeft(s: Rt): int { 2 * Owed(s) + |s.batch| }

  function PrefillsLeft(s: Rt): nat { 2 * |s.prefillQ| + |s.prefilled| }

  lemma WorkLeftPositive(s: Rt)
    ensures WorkLeft(s) >= 0
  {
    OwedPositive(s);
  }

  ghost predicate Smaller(n: Rt, s: Rt) {
    || WorkLeft(n) < WorkLeft(s)
    || (WorkLeft(n) == WorkLeft(s) && PrefillsLeft(n) < PrefillsLeft(s))
    || (WorkLeft(n) == WorkLeft(s) && PrefillsLeft(n) == PrefillsLeft(s) && Rank(n) < Rank(s))
  }

  lemma PrefillShrinks(s: Rt, o: PrefillOutcome)
    requires s.stage.Prefilling? && s.prefillQ != [] && Owed(AfterPrefill(s, o)) == Owed(s)
    ensures Smaller(AfterPrefill(s, o), s)
  {}

  lemma DecodeShrinks(s: Rt, n: Rt)
    requires s.stage.Decoding? && DecodePaid(s, n)
    requires n.stage.Raised? ==> n.prefillQ == s.prefillQ && n.prefilled == s.prefilled
    ensures Smaller(n, s)
  {}

  lemma StageMoveShrinks(s: Rt, stage: Stage)
    requires Rank(s.(stage := stage)) < Rank(s)
    ensures Smaller(s.(stage := stage), s)
  {}

  /** Every step of a run that is not done makes it smaller. */
  lemma StepShrinks(cfg: Config, subs: map<int, Req>, s: Rt)
    requires GoodBlocks(cfg) && cfg.decodeWorkers >= 1 && s.cache.pageSize >= 1
    requires TokenInv(cfg, subs, s) && LoopOk(s) && Tidy(s) && !Done(s)
    ensures Smaller(Step(cfg, s), s)
  {
    if s.stage.Prefilling? && s.prefillQ != [] {
      PrefillOwes(cfg, s);
      PrefillShrinks(s, PrefillOne(cfg, s.cache, s.prefillQ[0]));
    } else if s.stage.Enqueuing? && s.prefilled != [] {
      EnqueueSum(Debt, s);
    } else if s.stage.Decoding? && s.stage.slots > 0 && s.decodeQ != [] {
      DecodeOwes(cfg, subs, s);
      DecodeShrinks(s, AfterDecode(s, DecodeOne(cfg, s.cache, s.decodeQ[0])));
    } else if s.stage.Settling? && s.batch != [] {
      SettleSum(Debt, s);
    } else {
      StageMoveShrinks(s, Step(cfg, s).stage);
    }
  }

  lemma {:induction false} IterateHead(cfg: Config, s: Rt, k: nat)
    requires s.cache.pageSize >= 1
    ensures Step(cfg, s).cache.pageSize >= 1
    ensures Iterate(cfg, s, k + 1) == Iterate(cfg, Step(cfg, s), k)
  {
    StepKeepsPageSize(cfg, s);
    if k > 0 {
      IterateHead(cfg, s, k - 1);
    }
  }

  lemma {:induction false} ReachDone(cfg: Config, subs: map<int, Req>, s: Rt) returns (k: nat)
    requires GoodBlocks(cfg) && cfg.decodeWorkers >= 1 && s.cache.pageSize >= 1
    requires TokenInv(cfg, subs, s) && LoopOk(s) && Tidy(s)
    ensures Done(Iterate(cfg, s, k))
    decreases WorkLeft(s), PrefillsLeft(s), Rank(s)
  {
    if Done(s) {
      k := 0;
    } else {
      StepKeepsTokens(cfg, subs, s);
      StepLoopOk(cfg, s);
      StepTidy(cfg, s);
      StepKeepsPageSize(cfg, s);
      WorkLeftPositive(s);
      StepShrinks(cfg, subs, s);
      k := ReachDone(cfg, subs, Step(cfg, s));
      IterateHead(cfg, s, k);
      k := k + 1;
    }
  }

  // --------------------------------------------------------------- main results

  /** The decode steps a set of fresh requests may take. */
  function StepBudget(q: seq<Req>): int { Sum(StepsFor, q) }

  function StepsFor(r: Req): int { Max(1, Goal(r)) }

  lemma {:induction false} FreshDebt(cfg: Config, q: seq<Req>)
    requires forall r :: r in q ==> FreshRequest(cfg, r)
    ensures Sum(Debt, q) == StepBudget(q)
  {
    if q != [] {
      var k := |q| - 1;
      assert q == q[..k] + [q[k]] && q[k] in q;
      assert Debt(q[k]) == StepsFor(q[k]);
      FreshDebt(cfg, q[..k]);
    }
  }

  lemma RunPays(cfg: Config, subs: map<int, Req>, bound: int, s: Rt, k: nat)
    requires GoodBlocks(cfg) && s.cache.pageSize >= 1 && Paying(cfg, subs, bound, s)
    ensures Paying(cfg, subs, bound, Iterate(cfg, s, k))
  {
    forall t: Rt | t.cache.pageSize >= 1 && Paying(cfg, subs, bound, t) ensures Paying(cfg, subs, bound, Step(cfg, t)) {
      StepPays(cfg, subs, bound, t);
    }
    RunKeeps(cfg, t => Paying(cfg, subs, bound, t), s, k);
  }

  lemma OwedPositive(s: Rt)
    ensures Owed(s) >= 0
  {
    DebtPositive(s.prefillQ);
    DebtPositive(s.prefilled);
    DebtPositive(s.decodeQ);
    DebtPositive(BatchReqs(s.batch));
  }

  /** No reachable state has made more decode steps than the requests' budget. */
  lemma StepsWithinBudget(cfg: Config, c: Cache, q: seq<Req>, k: nat)
    requires GoodBlocks(cfg) && c.pageSize >= 1
    requires NoDup(IdsOf(q)) && forall r :: r in q ==> FreshRequest(cfg, r)
    ensures Iterate(cfg, Initial(c, q), k).decodeSteps <= StepBudget(q)
  {
    InitialTokens(cfg, c, q);
    FreshDebt(cfg, q);
    assert BatchReqs([]) == [];
    RunPays(cfg, Submissions(q), StepBudget(q), Initial(c, q), k);
    OwedPositive(Iterate(cfg, Initial(c, q), k));
  }

  /** Every run ends: it returns or raises. */
  lemma RunsEnd(cfg: Config, c: Cache, q: seq<Req>) returns (k: nat)
    requires GoodBlocks(cfg) && cfg.decodeWorkers >= 1 && c.pageSize >= 1
    requires NoDup(IdsOf(q)) && forall r :: r in q ==> FreshRequest(cfg, r)
    ensures Done(Iterate(cfg, Initial(c, q), k))
  {
    InitialTokens(cfg, c, q);
    k := ReachDone(cfg, Submissions(q), Initial(c, q));
  }
}
