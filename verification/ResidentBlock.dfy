/**
 One resident block of the persistent mega-kernel: the body of its loop as a
 function of the request's own memory, the progress every iteration makes, and
 the same body as code over the device arrays.
 */
module ResidentBlock {
  import opened Sequences
  import opened DeviceTypes
  import opened Stages
  import opened SparseSelect

  /** The launch parameters; `region` is how far draft regions are apart. */
  datatype Launch = Launch(pageSize: int, maxIterations: nat, initialBlock: int, hasDrafts: bool, region: nat)

  /** One request's own memory: descriptor, pages and draft region. */
  datatype Local = Local(req: Descriptor, pages: seq<PageEntry>, draft: seq<int>)

  function StartBlock(k: Launch): int { if k.initialBlock > 0 then k.initialBlock else 4 }

  function InitBlock(k: Launch, l: Local): Local { l.(req := l.req.(ema := 0.80, blockSize := StartBlock(k))) }

  function DoPrefill(l: Local): Local {
    l.(req := PrefillReq(l.req), pages := PrefillPages(l.req, l.pages, 0))
  }

  function DoSelect(l: Local): Local { l.(pages := SelectPages(l.req, l.pages, l.req.blockSize)) }

  function DoDecode(k: Launch, l: Local): Local {
    l.(req := DecodeReq(l.req), draft := DecodeDraft(l.req, l.draft, 0, k.hasDrafts))
  }

  function DoVerify(k: Launch, l: Local): Local { l.(req := VerifyReq(l.req, l.draft, k.hasDrafts)) }

  function DoCommit(k: Launch, l: Local): Local
    requires k.pageSize >= 1
  {
    l.(req := CommitReq(l.req), pages := CommitPages(l.req, l.pages, 0, k.pageSize))
  }

  /** The stages of one iteration. */
  function RunStages(k: Launch, l: Local): Local
    requires k.pageSize >= 1
  {
    DoCommit(k, DoVerify(k, DoDecode(k, DoSelect(DoPrefill(l)))))
  }

  /** One iteration; the first one also starts the adaptive block size. */
  function Body(k: Launch, l: Local, first: bool): Local
    requires k.pageSize >= 1
  {
    var l1 := if first then InitBlock(k, l) else l;
    if l1.req.IsDone() then l1 else RunStages(k, l1)
  }

  /** The request's memory after `n` iterations of its own. */
  function Iterations(k: Launch, l: Local, n: nat): Local
    requires k.pageSize >= 1
  {
    if n == 0 then l else Body(k, Iterations(k, l, n - 1), n == 1)
  }

  /** What the block's own run leaves: the memory after the last iteration. */
  function SoloRun(k: Launch, l: Local): Local
    requires k.pageSize >= 1
  {
    Iterations(k, l, k.maxIterations)
  }

  // ------------------------------------------------------------------ invariants

  /** The request's pages and draft region have their sizes, and a pending draft lies in its region. */
  predicate Sized(k: Launch, l: Local) {
    && |l.pages| == Max(l.req.kvPages, 0)
    && |l.draft| == (if k.hasDrafts then k.region else 0)
    && (Verifying(l.req) ==> l.req.draftLen <= k.region)
  }

  /** Sizes that keep every access inside the request's own memory, the next draft included. */
  predicate Fits(k: Launch, l: Local) {
    Sized(k, l) && (l.req.state in {PrefillReady, DecodeReady} ==> l.req.blockSize <= k.region)
  }

  /** Where a request lives in device memory. */
  predicate SamePlace(r: Descriptor, q: Descriptor) {
    && q.kvOffset == r.kvOffset && q.kvPages == r.kvPages && q.draftOffset == r.draftOffset
    && q.requestId == r.requestId && q.maxNew == r.maxNew
  }

  predicate KeepsPlace(k: Launch, l: Local, n: Local) { Fits(k, n) && SamePlace(l.req, n.req) }

  lemma PrefillKeepsPlace(k: Launch, l: Local)
    requires Fits(k, l)
    ensures KeepsPlace(k, l, DoPrefill(l))
  {}

  lemma SelectKeepsPlace(k: Launch, l: Local)
    requires Fits(k, l)
    ensures KeepsPlace(k, l, DoSelect(l))
  {}

  lemma DecodeKeepsPlace(k: Launch, l: Local)
    requires Fits(k, l)
    ensures KeepsPlace(k, l, DoDecode(k, l))
  {}

  lemma VerifyKeepsPlace(k: Launch, l: Local)
    requires Fits(k, l)
    ensures KeepsPlace(k, l, DoVerify(k, l))
  {}

  lemma CommitKeepsPlace(k: Launch, l: Local)
    requires k.pageSize >= 1 && Fits(k, l) && Settled(k, CommitReq(l.req))
    ensures KeepsPlace(k, l, DoCommit(k, l))
  {}

  // ------------------------------------------------------- how long drafts become

  /** The verifier stops at this token. */
  predicate Refuses(r: Descriptor, token: int) { token % 4 == 0 || (r.eos > 0 && token == r.eos) }

  /** Of the next draft, cut by no budget, some token is refused. */
  predicate Rejects(r: Descriptor) { exists i :: 0 <= i < r.blockSize && Refuses(r, DraftToken(PrefillReq(r), i)) }

  /** The next adapted block size is at most four, if there is a next draft at all. */
  predicate Calm(r: Descriptor) { KvPressure in r.flags || (r.ema <= 0.80 && (r.ema < 0.50 || Rejects(r))) }

  /**
   Between iterations: the block size fits the region, and goes on to fit. A region
   of eight tokens is enough for any request, one of four for ready requests whose
   acceptance rate stays below the threshold of the largest block size.
   */
  predicate Settled(k: Launch, r: Descriptor) {
    if k.region >= 8 then r.blockSize <= k.region
    else r.IsDone() || (
           && r.state in {PrefillReady, DecodeReady} && r.blockSize <= k.region
           && (SpeculativeEnabled in r.flags ==> k.region >= 4 && Calm(r)))
  }

  /** The region is long enough for every draft of a request that starts as `r`. */
  predicate DraftsFit(k: Launch, r: Descriptor) { Settled(k, r.(ema := 0.80, blockSize := StartBlock(k))) }

  lemma RemFour(x: int)
    ensures Rem(x, VOCABULARY) % 4 == 0 <==> x % 4 == 0
  {
    var q, m := Abs(x) / VOCABULARY, Abs(x) % VOCABULARY;
    assert Abs(x) == 4 * (8000 * q) + m;
  }

  function Abs(x: int): nat { if x < 0 then -x else x }

  /** One of any four successive draft tokens is a multiple of four. */
  lemma FourTokens(r: Descriptor) returns (i: nat)
    ensures i < 4 && DraftToken(r, i) % 4 == 0
  {
    var x := r.lastToken + 1 + r.requestId;
    i := if x % 4 == 0 then 0 else 4 - x % 4;
    assert (x + i) % 4 == 0;
    RemFour(x + i);
  }

  /** How much of a draft is accepted: at most three tokens, and not all unless the budget cuts the draft. */
  lemma AcceptedOfDraft(r: Descriptor, draft: seq<int>)
    requires forall i :: 0 <= i < |draft| ==> draft[i] == DraftToken(r, i)
    requires |draft| <= r.blockSize
    ensures AcceptedRun(r, draft) <= 3
    ensures r.state == DecodeReady && Rejects(r) && |draft| == r.blockSize ==> AcceptedRun(r, draft) < |draft|
  {
    AcceptedRunIsLongest(r, draft);
    var four := FourTokens(r);
    if r.state == DecodeReady && Rejects(r) && |draft| == r.blockSize {
      var i :| 0 <= i < r.blockSize && Refuses(r, DraftToken(PrefillReq(r), i));
      assert draft[i] == DraftToken(r, i);
    }
  }

  /** A partly accepted draft of at most three accepted tokens keeps the rate below the threshold. */
  lemma RateStaysLow(accepted: nat, proposed: nat, ema: real)
    requires accepted <= 3 && accepted < proposed && ema <= 0.80
    ensures 0.20 * (accepted as real / proposed as real) + 0.80 * ema < 0.80
  {
    RatioAtMost(accepted as real, proposed as real);
  }

  lemma RatioAtMost(a: real, p: real)
    requires p > 0.0 && a <= 0.75 * p
    ensures a / p <= 0.75
  {
    var q := a / p;
    assert q * p == a;
    if q > 0.75 {
      ProductPositive(q - 0.75, p);
    }
  }

  lemma ProductPositive(a: real, b: real)
    requires a > 0.0 && b > 0.0
    ensures a * b > 0.0
  {}

  /** One round of drafting, verifying and committing leaves a calm request done, or calm. */
  lemma RoundStaysCalm(r: Descriptor, draft: seq<int>, present: bool)
    requires Drafting(r) && Calm(r)
    requires present ==>
      |draft| >= DraftCount(r) && forall i :: 0 <= i < DraftCount(r) ==> draft[i] == DraftToken(r, i)
    ensures var q := CommitReq(VerifyReq(DecodeReq(r), draft, present));
      q.IsDone() || (q.state == DecodeReady && q.blockSize <= 4 && q.flags == r.flags && Calm(q))
  {
    var d := DecodeReq(r);
    var limit, accepted := VerifyLimit(d), AcceptedOf(d, draft, present);
    var v := VerifyReq(d, draft, present);
    assert limit == DraftCount(r) || limit <= 0;
    if present && limit > 0 {
      var own := Take(draft, limit);
      assert forall i :: 0 <= i < |own| ==> own[i] == DraftToken(r, i);
      AcceptedOfDraft(r, own);
      SameRun(d, r, own);
    }
    if accepted < limit && KvPressure !in r.flags {
      RateStaysLow(accepted, limit, r.ema);
    }
    var q := CommitReq(v);
    if !q.IsDone() && KvPressure !in r.flags {
      assert v.ema < 0.80;
      if q.blockSize == 4 {
        var four := FourTokens(q);
        assert Refuses(q, DraftToken(PrefillReq(q), four));
      }
    }
  }

  lemma {:induction false} SameRun(r: Descriptor, q: Descriptor, draft: seq<int>)
    requires r.eos == q.eos
    ensures AcceptedRun(r, draft) == AcceptedRun(q, draft)
  {
    if draft != [] {
      SameRun(r, q, draft[1..]);
    }
  }

  /** A prefilled request is as calm as before. */
  lemma PrefillStaysSettled(k: Launch, r: Descriptor)
    requires Settled(k, r)
    ensures Settled(k, PrefillReq(r))
  {
    var q := PrefillReq(r);
    if k.region < 8 && !r.IsDone() && SpeculativeEnabled in r.flags && KvPressure !in r.flags && r.ema >= 0.50 {
      var i :| 0 <= i < r.blockSize && Refuses(r, DraftToken(q, i));
      assert PrefillReq(q) == q && Refuses(q, DraftToken(PrefillReq(q), i));
    }
  }

  /** The values a request goes through in one iteration, from `l` on, all in their place. */
  lemma StagesKeepPlace(k: Launch, l: Local)
    requires k.pageSize >= 1 && Sized(k, l) && Settled(k, l.req)
    ensures var a := DoPrefill(l);
      var b := DoSelect(a);
      var c := DoDecode(k, b);
      var d := DoVerify(k, c);
      && KeepsPlace(k, l, a) && KeepsPlace(k, a, b) && KeepsPlace(k, b, c) && KeepsPlace(k, c, d)
      && KeepsPlace(k, d, DoCommit(k, d)) && Settled(k, RunStages(k, l).req)
  {
    var a := DoPrefill(l);
    PrefillKeepsPlace(k, l);
    PrefillStaysSettled(k, l.req);
    var b := DoSelect(a);
    SelectKeepsPlace(k, a);
    var c := DoDecode(k, b);
    DecodeKeepsPlace(k, b);
    var d := DoVerify(k, c);
    VerifyKeepsPlace(k, c);
    RoundStaysSettled(k, b);
    CommitKeepsPlace(k, d);
  }

  lemma RoundStaysSettled(k: Launch, b: Local)
    requires Sized(k, b) && Settled(k, b.req) && b.req.state != PrefillReady && Fits(k, DoDecode(k, b))
    ensures Settled(k, CommitReq(DoVerify(k, DoDecode(k, b)).req))
  {
    var r, c := b.req, DoDecode(k, b);
    if k.region < 8 && Drafting(r) {
      RoundStaysCalm(r, c.draft, k.hasDrafts);
    }
  }

  lemma BodyKeepsPlace(k: Launch, l: Local, first: bool)
    requires k.pageSize >= 1 && Sized(k, l) && (if first then DraftsFit(k, l.req) else Settled(k, l.req))
    ensures Sized(k, Body(k, l, first)) && SamePlace(l.req, Body(k, l, first).req)
    ensures Settled(k, Body(k, l, first).req)
  {
    StagesKeepPlace(k, if first then InitBlock(k, l) else l);
  }

  /** The host gives each block four times its first block size, and the request the token of a fresh prefill. */
  lemma HostLaunchFits(k: Launch, r: Descriptor)
    requires k.initialBlock >= 1 && k.region == 4 * k.initialBlock && r.state == DecodeReady
    requires r.lastToken == Rem(r.requestId * 7 + 3, VOCABULARY) && r.requestId >= 0
    ensures DraftsFit(k, r)
  {
    var q := r.(ema := 0.80, blockSize := StartBlock(k));
    var x := r.requestId * 7 + 3;
    assert x == VOCABULARY * (x / VOCABULARY) + r.lastToken;
    assert r.lastToken % 4 == x % 4 by {
      assert x - r.lastToken == 4 * (8000 * (x / VOCABULARY));
    }
    RemFour(r.lastToken + 1 + r.requestId);
    assert Refuses(q, DraftToken(PrefillReq(q), 0));
  }

  /**
   Below eight tokens the condition cannot be dropped: where the whole first draft is
   accepted and budget is left, the second draft is eight tokens long.
   */
  lemma CalmIsNeeded(k: Launch, l: Local)
    requires k.pageSize >= 1 && k.hasDrafts && Sized(k, l) && StartBlock(k) <= k.region < 8
    requires Drafting(l.req) && KvPressure !in l.req.flags && l.req.maxNew - l.req.outputCount >= StartBlock(k) + 8
    requires !Rejects(l.req.(ema := 0.80, blockSize := StartBlock(k)))
    ensures var r := Iterations(k, l, 1).req;
      Drafting(r) && DraftCount(r) == 8 > k.region && VerifyLimit(DecodeReq(r)) == 8
  {
    var r := InitBlock(k, l).req;
    var c := DoDecode(k, DoSelect(DoPrefill(InitBlock(k, l))));
    WholeDraftAccepted(k, r, c.draft);
    assert Iterations(k, l, 0) == l;
    assert Iterations(k, l, 1).req == CommitReq(VerifyReq(DecodeReq(r), c.draft, true));
  }

  /** A whole draft accepted at the starting rate doubles up to the largest block size. */
  lemma WholeDraftAccepted(k: Launch, r: Descriptor, draft: seq<int>)
    requires Drafting(r) && KvPressure !in r.flags && r.ema == 0.80 && 1 <= r.blockSize <= |draft|
    requires r.maxNew - r.outputCount >= r.blockSize + 8 && !Rejects(r)
    requires forall i :: 0 <= i < r.blockSize ==> draft[i] == DraftToken(r, i)
    ensures var q := CommitReq(VerifyReq(DecodeReq(r), draft, true));
      Drafting(q) && DraftCount(q) == 8 && VerifyLimit(DecodeReq(q)) == 8
  {
    var d := DecodeReq(r);
    var own := Take(draft, r.blockSize);
    assert VerifyLimit(d) == r.blockSize;
    AcceptedRunIsLongest(d, own);
    forall i | 0 <= i < |own| ensures !Refuses(r, own[i]) {
      assert own[i] == DraftToken(PrefillReq(r), i);
    }
    assert AcceptedOf(d, draft, true) == r.blockSize;
    WholeRate(r.blockSize);
  }

  lemma WholeRate(n: nat)
    requires n >= 1
    ensures n as real / n as real == 1.0
  {}

  /** Draft regions of four tokens, first block of one: a request at token 3 drafts eight tokens in its second round. */
  lemma FourAreNotEnough()
    ensures var k := Launch(16, 100, 1, true, 4);
      var r := Descriptor(1, DecodeReady, {SpeculativeEnabled}, 0, 0, 0, 100, 0, 3, 0, 0, 0, 0, 0, 0, 0, 0.80, 4);
      var l := Local(r, [], [0, 0, 0, 0]);
      && Sized(k, l) && ReadyRequest(r) && !DraftsFit(k, r)
      && VerifyLimit(DecodeReq(Iterations(k, l, 1).req)) == 8 > k.region
  {
    var k := Launch(16, 100, 1, true, 4);
    var r := Descriptor(1, DecodeReady, {SpeculativeEnabled}, 0, 0, 0, 100, 0, 3, 0, 0, 0, 0, 0, 0, 0, 0.80, 4);
    var l := Local(r, [], [0, 0, 0, 0]);
    var start := r.(ema := 0.80, blockSize := 1);
    forall i | 0 <= i < start.blockSize ensures !Refuses(start, DraftToken(PrefillReq(start), i)) {
      assert DraftToken(start, i) == 5;
    }
    CalmIsNeeded(k, l);
  }

  // -------------------------------------------------------------------- progress

  /** Ready to be prefilled or decoded. */
  predicate ReadyRequest(r: Descriptor) { r.state == PrefillReady || (r.state == DecodeReady && r.outputCount >= 0) }

  /** After `n` iterations: done, or decoding with at least `n` tokens and budget left. */
  predicate Progressed(l: Local, n: int) {
    l.req.IsDone() || (l.req.state == DecodeReady && n <= l.req.outputCount < l.req.maxNew)
  }

  /** Decode, verify and commit emit at least one token, or complete the request. */
  lemma RoundProgress(r: Descriptor, draft: seq<int>, present: bool)
    requires r.state == DecodeReady
    ensures var q := CommitReq(VerifyReq(DecodeReq(r), draft, present));
      q.IsDone() || (q.state == DecodeReady && r.outputCount + 1 <= q.outputCount < q.maxNew)
  {
    var d := DecodeReq(r);
    if Drafting(r) {
      assert VerifyReq(d, draft, present).state == CommitReady;
    }
  }

  /** One pass through the stages emits at least one token, or completes the request. */
  lemma StagesProgress(k: Launch, l: Local)
    requires k.pageSize >= 1 && ReadyRequest(l.req)
    ensures Progressed(RunStages(k, l), 1 + if l.req.state == PrefillReady then 0 else l.req.outputCount)
  {
    var l3 := DoDecode(k, DoSelect(DoPrefill(l)));
    RoundProgress(PrefillReq(l.req), l3.draft, k.hasDrafts);
  }

  /** One iteration from a ready request, or from one that has progressed. */
  lemma BodyProgress(k: Launch, l: Local, n: nat)
    requires k.pageSize >= 1 && n >= 1 && if n == 1 then ReadyRequest(l.req) else Progressed(l, n - 1)
    ensures Progressed(Body(k, l, n == 1), n)
  {
    var q := if n == 1 then InitBlock(k, l) else l;
    if !q.req.IsDone() {
      StagesProgress(k, q);
    }
  }

  lemma {:induction false} IterationsProgress(k: Launch, l: Local, n: nat)
    requires k.pageSize >= 1 && ReadyRequest(l.req) && n >= 1
    ensures Progressed(Iterations(k, l, n), n)
  {
    if n > 1 {
      IterationsProgress(k, l, n - 1);
    }
    IterationIs(k, l, n);
    NextProgress(k, l, n, Iterations(k, l, n - 1), Iterations(k, l, n));
  }

  lemma IterationIs(k: Launch, l: Local, n: nat)
    requires k.pageSize >= 1 && n >= 1
    ensures Iterations(k, l, n) == Body(k, Iterations(k, l, n - 1), n == 1)
  {}

  lemma NextProgress(k: Launch, l: Local, n: nat, before: Local, after: Local)
    requires k.pageSize >= 1 && n >= 1 && after == Body(k, before, n == 1)
    requires if n == 1 then before == l && ReadyRequest(l.req) else Progressed(before, n - 1)
    ensures Progressed(after, n)
  {
    BodyProgress(k, before, n);
  }

  /** A request that is done stays as it is; the first iteration alone sets its adaptive fields. */
  lemma {:induction false} DoneIsFinal(k: Launch, l: Local, n: nat, m: nat)
    requires k.pageSize >= 1 && 1 <= n <= m && Iterations(k, l, n).req.IsDone()
    ensures Iterations(k, l, m) == Iterations(k, l, n)
    decreases m - n
  {
    if n < m {
      DoneIsFinal(k, l, n, m - 1);
    }
  }

  /** A ready request is done after as many iterations as it may produce tokens. */
  lemma SoloRunCompletes(k: Launch, l: Local)
    requires k.pageSize >= 1 && ReadyRequest(l.req) && k.maxIterations >= l.req.maxNew && k.maxIterations >= 1
    ensures SoloRun(k, l).req.IsDone()
  {
    IterationsProgress(k, l, k.maxIterations);
    BudgetIsFixed(k, l, k.maxIterations);
  }

  lemma {:induction false} BudgetIsFixed(k: Launch, l: Local, n: nat)
    requires k.pageSize >= 1
    ensures Iterations(k, l, n).req.maxNew == l.req.maxNew
  {
    if n > 0 {
      BudgetIsFixed(k, l, n - 1);
      BodyKeepsBudget(k, Iterations(k, l, n - 1), n == 1);
    }
  }

  lemma BodyKeepsBudget(k: Launch, l: Local, first: bool)
    requires k.pageSize >= 1
    ensures Body(k, l, first).req.maxNew == l.req.maxNew
  {
    var start := if first then InitBlock(k, l) else l;
    if !start.req.IsDone() {
      var c := DoDecode(k, DoSelect(DoPrefill(start)));
      RoundKeepsBudget(PrefillReq(start.req), c.draft, k.hasDrafts);
    }
  }

  lemma RoundKeepsBudget(r: Descriptor, draft: seq<int>, present: bool)
    ensures CommitReq(VerifyReq(DecodeReq(r), draft, present)).maxNew == r.maxNew
  {}

  lemma {:induction false} IterationsKeepPlace(k: Launch, l: Local, n: nat)
    requires k.pageSize >= 1 && Sized(k, l) && DraftsFit(k, l.req)
    ensures Sized(k, Iterations(k, l, n)) && SamePlace(l.req, Iterations(k, l, n).req)
    ensures n > 0 ==> Settled(k, Iterations(k, l, n).req)
  {
    if n > 0 {
      IterationsKeepPlace(k, l, n - 1);
      BodyKeepsPlace(k, Iterations(k, l, n - 1), n == 1);
    }
  }
}
