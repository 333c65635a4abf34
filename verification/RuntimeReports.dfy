/** What results report about the way their requests went: rehydrations, and the course of the block sizes. */
module RuntimeReports {
  import opened Arithmetic
  import opened Sequences
  import opened KvCacheModel
  import opened Requests
  import opened RuntimeModel
  import opened BlockWalk
  import opened BlockPace
  import opened RuntimeTokens
  import opened RuntimeQueues

  // ----------------------------------------------------------------- rehydrations

  /** The request has no snapshot, or a page of it is gone. */
  ghost predicate MissesPages(c: Cache, r: Req) {
    r.snapshot.None? || exists id :: id in KvPageIds(r) && id !in c.pages
  }

  /** The step from `s` decodes request `x` and has to rebuild its pages first. */
  ghost predicate RebuildsFor(cfg: Config, s: Rt, x: int)
    requires s.cache.pageSize >= 1
  {
    && s.stage.Decoding? && s.stage.slots > 0 && s.decodeQ != [] && s.decodeQ[0].requestId == x
    && DecodeOne(cfg, s.cache, s.decodeQ[0]).Decoded? && MissesPages(s.cache, s.decodeQ[0])
  }

  /** How many of the first `k` steps rebuild the pages of request `x`. */
  ghost function Rebuilds(cfg: Config, s: Rt, x: int, k: nat): nat
    requires s.cache.pageSize >= 1
  {
    if k == 0 then 0
    else Rebuilds(cfg, s, x, k - 1) + if RebuildsFor(cfg, Iterate(cfg, s, k - 1), x) then 1 else 0
  }

  /** Each request in flight and each result has the number of rehydrations that `f` gives its id. */
  ghost predicate Accounted(s: Rt, f: int -> int) {
    && (forall r :: r in AllReqs(s) ==> r.rehydrations == f(r.requestId))
    && (forall i :: 0 <= i < |s.results| ==> s.results[i].rehydrations == f(s.results[i].requestId))
  }

  lemma DecodeCounts(cfg: Config, c: Cache, r: Req)
    requires c.pageSize >= 1 && DecodeOne(cfg, c, r).Decoded?
    ensures var q := DecodeOne(cfg, c, r).req;
      q.requestId == r.requestId && q.rehydrations == r.rehydrations + if MissesPages(c, r) then 1 else 0
  {
    var r0 := r.(phase := Decode);
    assert KvPageIds(r0) == KvPageIds(r);
    SettingsKeptByRehydrate(c, r0);
    ResidentCounts(cfg, Rehydrate(c, r0).cache, Rehydrate(c, r0).req);
  }

  lemma ResidentCounts(cfg: Config, c: Cache, r: Req)
    requires c.pageSize >= 1
    ensures var o := DecodeResident(cfg, c, r);
      o.Decoded? ==> o.req.requestId == r.requestId && o.req.rehydrations == r.rehydrations
  {
    var ids, d := DecodePages(cfg, c, r), Decide(cfg, r);
    var c1 := ReadPages(c, ids);
    SettingsKeptByRead(c, ids);
    WrapTokens(cfg, c1, Adapt(cfg, c1, r.(draft := d.proposed), d), d, ids, BlockWidth(cfg, r));
  }

  /** A step in which a request keeps its rehydrations, or is the one that has its pages rebuilt. */
  lemma StepAccounts(cfg: Config, s: Rt, f: int -> int, g: int -> int)
    requires s.cache.pageSize >= 1 && Distinct(s) && Accounted(s, f)
    requires forall x :: g(x) == f(x) + if RebuildsFor(cfg, s, x) then 1 else 0
    ensures Accounted(Step(cfg, s), g)
  {
    if s.stage.Prefilling? && s.prefillQ != [] {
      PrefillTokens(cfg, s.cache, s.prefillQ[0]);
      PrefillAccounts(s, PrefillOne(cfg, s.cache, s.prefillQ[0]), f, g);
    } else if s.stage.Enqueuing? && s.prefilled != [] {
      EnqueueAccounts(s, f, g);
    } else if s.stage.Decoding? && s.stage.slots > 0 && s.decodeQ != [] {
      StepIsDecode(cfg, s);
      var o := DecodeOne(cfg, s.cache, s.decodeQ[0]);
      if o.Decoded? {
        DecodeCounts(cfg, s.cache, s.decodeQ[0]);
      }
      DecodeAccounts(s, o, f, g);
    } else if s.stage.Settling? && s.batch != [] {
      SettleAccounts(s, f, g);
    }
  }

  lemma PrefillAccounts(s: Rt, o: PrefillOutcome, f: int -> int, g: int -> int)
    requires s.prefillQ != [] && Accounted(s, f) && forall x :: g(x) == f(x)
    requires o.req.requestId == s.prefillQ[0].requestId && o.req.rehydrations == s.prefillQ[0].rehydrations
    ensures Accounted(AfterPrefill(s, o), g)
  {
    assert s.prefillQ[0] in AllReqs(s);
    forall r | r in AllReqs(AfterPrefill(s, o)) ensures r.rehydrations == g(r.requestId) {
      assert r == o.req || r in AllReqs(s);
    }
  }

  lemma EnqueueAccounts(s: Rt, f: int -> int, g: int -> int)
    requires s.prefilled != [] && Accounted(s, f) && forall x :: g(x) == f(x)
    ensures Accounted(AfterEnqueue(s), g)
  {
    PushMember(s.decodeQ, s.prefilled[0]);
    forall r | r in AllReqs(AfterEnqueue(s)) ensures r.rehydrations == g(r.requestId) {
      assert r in AllReqs(s);
    }
  }

  /** Distinct ids: the request at the head of the decode queue is nowhere else. */
  lemma HeadElsewhere(s: Rt)
    requires Distinct(s) && s.decodeQ != []
    ensures forall r :: r in s.prefillQ + s.prefilled + s.decodeQ[1..] + BatchReqs(s.batch) ==>
      r.requestId != s.decodeQ[0].requestId
    ensures forall i :: 0 <= i < |s.results| ==> s.results[i].requestId != s.decodeQ[0].requestId
  {
    var x := s.decodeQ[0].requestId;
    IdsHead(s.decodeQ);
    assert IdBag(s)[x] <= 1;
    forall r | r in s.prefillQ + s.prefilled + s.decodeQ[1..] + BatchReqs(s.batch) ensures r.requestId != x {
      if r in s.prefillQ { InIds(s.prefillQ, r); }
      else if r in s.prefilled { InIds(s.prefilled, r); }
      else if r in s.decodeQ[1..] { InIds(s.decodeQ[1..], r); }
      else { InIds(BatchReqs(s.batch), r); }
    }
    forall i | 0 <= i < |s.results| ensures s.results[i].requestId != x {
      assert ResultIds(s.results)[i] == s.results[i].requestId;
      assert s.results[i].requestId in multiset(ResultIds(s.results));
    }
  }

  lemma DecodeAccounts(s: Rt, o: DecodeOutcome, f: int -> int, g: int -> int)
    requires s.stage.Decoding? && s.stage.slots > 0 && s.decodeQ != [] && Distinct(s) && Accounted(s, f)
    requires forall x :: x != s.decodeQ[0].requestId ==> g(x) == f(x)
    requires if o.Decoded? then o.req.requestId == s.decodeQ[0].requestId && o.req.rehydrations == g(o.req.requestId)
             else g(s.decodeQ[0].requestId) == f(s.decodeQ[0].requestId)
    ensures Accounted(AfterDecode(s, o), g)
  {
    HeadElsewhere(s);
    var n := AfterDecode(s, o);
    if o.Decoded? {
      BatchSnoc(s.batch, o.req, o.trace);
      forall r | r in AllReqs(n) ensures r.rehydrations == g(r.requestId) {
        if r != o.req {
          assert r in s.prefillQ + s.prefilled + s.decodeQ[1..] + BatchReqs(s.batch);
          assert r in AllReqs(s);
        }
      }
    }
  }

  lemma SettleAccounts(s: Rt, f: int -> int, g: int -> int)
    requires s.batch != [] && Accounted(s, f) && forall x :: g(x) == f(x)
    ensures Accounted(AfterSettle(s), g)
  {
    var n, r := AfterSettle(s), s.batch[0].0;
    BatchHead(s.batch);
    PushMember(s.decodeQ, r);
    assert r == BatchReqs(s.batch)[0] && r in AllReqs(s);
    forall q | q in AllReqs(n) ensures q.rehydrations == g(q.requestId) {
      assert q in AllReqs(s);
    }
  }

  /** The number of rehydrations each id should have after `k` steps. */
  ghost function Tally(cfg: Config, s: Rt, base: int -> int, k: nat): int -> int
    requires s.cache.pageSize >= 1
  {
    x => base(x) + Rebuilds(cfg, s, x, k)
  }

  lemma RebuildsNext(cfg: Config, s: Rt, x: int, k: nat, p: Rt)
    requires s.cache.pageSize >= 1 && p == Iterate(cfg, s, k)
    ensures Rebuilds(cfg, s, x, k + 1) == Rebuilds(cfg, s, x, k) + if RebuildsFor(cfg, p, x) then 1 else 0
  {}

  lemma NextAccounts(cfg: Config, s: Rt, base: int -> int, k: nat, p: Rt, n: Rt)
    requires s.cache.pageSize >= 1 && p == Iterate(cfg, s, k) && n == Step(cfg, p) && Distinct(s)
    ensures Accounted(p, Tally(cfg, s, base, k)) ==> Accounted(n, Tally(cfg, s, base, k + 1))
  {
    DistinctThroughout(cfg, s, k, p);
    var f, g := Tally(cfg, s, base, k), Tally(cfg, s, base, k + 1);
    forall x ensures g(x) == f(x) + if RebuildsFor(cfg, p, x) then 1 else 0 {
      RebuildsNext(cfg, s, x, k, p);
    }
    if Accounted(p, f) {
      StepAccounts(cfg, p, f, g);
    }
  }

  lemma DistinctThroughout(cfg: Config, s: Rt, k: nat, n: Rt)
    requires s.cache.pageSize >= 1 && Distinct(s) && n == Iterate(cfg, s, k)
    ensures Distinct(n)
  {
    RunKeepsIds(cfg, s, k);
  }

  ghost predicate AccountedAt(cfg: Config, s: Rt, base: int -> int, k: nat)
    requires s.cache.pageSize >= 1
  {
    Accounted(Iterate(cfg, s, k), Tally(cfg, s, base, k))
  }

  lemma NextAccountedAt(cfg: Config, s: Rt, base: int -> int, k: nat)
    requires s.cache.pageSize >= 1 && Distinct(s)
    ensures AccountedAt(cfg, s, base, k) ==> AccountedAt(cfg, s, base, k + 1)
  {
    IterateNext(cfg, s, k);
    NextAccounts(cfg, s, base, k, Iterate(cfg, s, k), Iterate(cfg, s, k + 1));
  }

  lemma StartAccounts(cfg: Config, s: Rt, base: int -> int)
    requires s.cache.pageSize >= 1 && Accounted(s, base)
    ensures AccountedAt(cfg, s, base, 0)
  {}

  lemma RunAccounts(cfg: Config, s: Rt, base: int -> int, k: nat)
    requires s.cache.pageSize >= 1 && Distinct(s) && Accounted(s, base)
    ensures AccountedAt(cfg, s, base, k)
  {
    StartAccounts(cfg, s, base);
    forall n: nat | AccountedAt(cfg, s, base, n) ensures AccountedAt(cfg, s, base, n + 1) {
      NextAccountedAt(cfg, s, base, n);
    }
    CountUp((n: nat) => AccountedAt(cfg, s, base, n), 0, k);
  }

  /** What a request had been rehydrated before the run. */
  ghost function Before(q: seq<Req>, x: int): int {
    if x in Submissions(q) then Submissions(q)[x].rehydrations else 0
  }

  /**
   At any time of any run, a result reports as many rehydrations as steps so far have found
   a page of that request missing, or no snapshot, and rebuilt its pages.
   */
  lemma RehydrationsAreCounted(cfg: Config, c: Cache, q: seq<Req>, k: nat, i: nat, j: nat)
    requires c.pageSize >= 1 && NoDup(IdsOf(q)) && j < |q|
    requires i < |Iterate(cfg, Initial(c, q), k).results|
    requires Iterate(cfg, Initial(c, q), k).results[i].requestId == q[j].requestId
    ensures Iterate(cfg, Initial(c, q), k).results[i].rehydrations
         == q[j].rehydrations + Rebuilds(cfg, Initial(c, q), q[j].requestId, k)
  {
    var s := Initial(c, q);
    var base: int -> int := x => Before(q, x);
    SubmissionsAre(q);
    NoDupBag(IdsOf(q));
    assert IdsOf([]) == [] && BatchReqs([]) == [] && ResultIds([]) == [];
    assert IdBag(s) == multiset(IdsOf(q));
    assert AllReqs(s) == q;
    assert Accounted(s, base);
    RunAccounts(cfg, s, base, k);
    assert AccountedAt(cfg, s, base, k);
  }

  // ------------------------------------------------------------------ block sizes

  /**
   A run over requests as they were submitted: the first block of each has the configured
   size, and under an adaptive policy the acceptance rate starts at 0.80 and sets the sizes
   of all later ones.
   */
  lemma SubmittedPace(cfg: Config, rs: seq<Req>, results: seq<DecodeResult>, i: nat, j: nat)
    requires EachReportedOnce(cfg, SubmitAll(cfg, rs), results) && i < |results| && j < |SubmitAll(cfg, rs)|
    requires results[i].requestId == SubmitAll(cfg, rs)[j].requestId
    ensures PacedTraces(cfg, 0.80, results[i].traces)
    ensures SubmitAll(cfg, rs)[j].maxNew >= 1 && results[i].traces != [] ==>
      results[i].traces[0].blockSizeUsed == cfg.blockSize
  {
    SubmissionsInOrder(cfg, rs);
    var q, ts := SubmitAll(cfg, rs), results[i].traces;
    assert q[j] == Submitted(cfg, rs[SubmitTickets(cfg, rs)[j]]);
    assert Walked(cfg, q[j], ts) && PacedTraces(cfg, q[j].ema, ts);
    if q[j].maxNew >= 1 && ts != [] {
      assert StepAt(cfg, q[j], ts, 0);
    }
  }

  // ----------------------------------------------------------------- decode rounds

  /** After `j` decode steps of a round of `n` that started from `s`: the first `j` requests have had their step. */
  ghost predicate InRound(s: Rt, n: nat, j: nat, u: Rt) {
    j <= n <= |s.decodeQ| && (u.stage.Raised? || (
      && u.stage == Decoding(n - j) && u.decodeQ == s.decodeQ[j..] && u.decodeSteps == s.decodeSteps + j
      && IdsOf(BatchReqs(u.batch)) == IdsOf(s.decodeQ[..j])))
  }

  lemma ServedInRound(s: Rt, n: nat, j: nat, u: Rt, o: DecodeOutcome)
    requires InRound(s, n, j, u) && !u.stage.Raised? && j < n
    requires o.Decoded? ==> o.req.requestId == u.decodeQ[0].requestId
    ensures InRound(s, n, j + 1, AfterDecode(u, o))
  {
    if o.Decoded? {
      BatchSnoc(u.batch, o.req, o.trace);
      assert s.decodeQ[..j + 1] == s.decodeQ[..j] + [s.decodeQ[j]];
      assert IdsOf(s.decodeQ[..j + 1]) == IdsOf(s.decodeQ[..j]) + [s.decodeQ[j].requestId];
      assert IdsOf(BatchReqs(u.batch) + [o.req]) == IdsOf(BatchReqs(u.batch)) + [o.req.requestId];
    }
  }

  lemma NextInRound(cfg: Config, s: Rt, n: nat, j: nat, u: Rt)
    requires u.cache.pageSize >= 1 && InRound(s, n, j, u) && j < n
    ensures InRound(s, n, j + 1, Step(cfg, u))
  {
    if !u.stage.Raised? {
      StepIsDecode(cfg, u);
      DecodeTokens(cfg, u.cache, u.decodeQ[0]);
      ServedInRound(s, n, j, u, DecodeOne(cfg, u.cache, u.decodeQ[0]));
    }
  }

  ghost predicate InRoundAt(cfg: Config, s: Rt, n: nat, j: nat)
    requires s.cache.pageSize >= 1
  {
    InRound(s, n, j, Iterate(cfg, s, j))
  }

  lemma NextInRoundAt(cfg: Config, s: Rt, n: nat, j: nat)
    requires s.cache.pageSize >= 1 && InRoundAt(cfg, s, n, j) && j < n
    ensures InRoundAt(cfg, s, n, j + 1)
  {
    IterateNext(cfg, s, j);
    NextInRound(cfg, s, n, j, Iterate(cfg, s, j));
  }

  lemma {:induction false} RoundSoFar(cfg: Config, s: Rt, n: nat, j: nat)
    requires s.cache.pageSize >= 1 && InRoundAt(cfg, s, n, 0) && j <= n
    ensures InRoundAt(cfg, s, n, j)
  {
    if j > 0 {
      RoundSoFar(cfg, s, n, j - 1);
      NextInRoundAt(cfg, s, n, j - 1);
    }
  }

  /**
   A decode round, unless a step of it raises: as many requests from the head of the queue as
   there are workers get one decode step each, in queue order, and wait to be settled in
   that order; no other request does.
   */
  lemma DecodeRound(cfg: Config, s: Rt)
    requires s.cache.pageSize >= 1 && s.stage.Enqueuing? && s.prefilled == [] && s.batch == []
    ensures var n := if |s.decodeQ| < cfg.decodeWorkers then |s.decodeQ| else cfg.decodeWorkers;
      var u := Iterate(cfg, Step(cfg, s), n);
      u.stage.Raised? || (
        && Step(cfg, u).stage == Settling && u.decodeQ == s.decodeQ[n..] && u.decodeSteps == s.decodeSteps + n
        && IdsOf(BatchReqs(u.batch)) == IdsOf(s.decodeQ[..n]))
  {
    var n, t := Min(|s.decodeQ|, cfg.decodeWorkers), Step(cfg, s);
    assert t == s.(stage := Decoding(n));
    assert IdsOf(BatchReqs(t.batch)) == IdsOf(t.decodeQ[..0]);
    RoundSoFar(cfg, t, n, n);
    assert InRoundAt(cfg, t, n, n);
  }
}
