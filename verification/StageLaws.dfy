/** What the stage helpers of a resident block mean for a request, told without their formulas. */
module StageLaws {
  import opened Arithmetic
  import opened Sequences
  import opened DeviceTypes
  import opened Stages
  import opened ResidentBlock

  /** After prefill the request's pages are pinned, committed, resident and its own; no other page is touched. */
  lemma PrefilledPages(r: Descriptor, pages: seq<PageEntry>, lo: int, i: int)
    requires r.state == PrefillReady && 0 <= i < |pages|
    ensures var e, f := pages[i], PrefillPages(r, pages, lo)[i];
      if lo <= i < lo + r.kvPages then
        && f == e.(state := PinnedPage, flags := f.flags, requestId := r.requestId)
        && f.flags == (e.flags - {Draft}) + {Committed, Pinned, Resident}
      else f == e
  {}

  /** Of a draft, the first token is the one that serial decode would emit, and each next one is one more. */
  lemma DraftCountsUp(r: Descriptor, i: nat)
    requires r.lastToken >= 0 && r.requestId >= 0
    ensures DraftToken(r, 0) == SerialToken(r).lastToken
    ensures DraftToken(r, i + 1) == if DraftToken(r, i) == VOCABULARY - 1 then 0 else DraftToken(r, i) + 1
    ensures 0 <= DraftToken(r, i) < VOCABULARY
  {
    var x := r.lastToken + 1 + i + r.requestId;
    var q, m := x / VOCABULARY, x % VOCABULARY;
    assert x == q * VOCABULARY + m;
    if m == VOCABULARY - 1 {
      ModUnique(x + 1, VOCABULARY, q + 1, 0);
    } else {
      ModUnique(x + 1, VOCABULARY, q, m + 1);
    }
  }

  /** Drafting: as many tokens as the block size and the remaining budget allow, and nothing is emitted yet. */
  lemma DraftsWithinBudget(r: Descriptor)
    requires Drafting(r) && r.blockSize >= 0
    ensures var q := DecodeReq(r);
      && q.state == DraftReady && 0 <= q.draftLen <= r.blockSize
      && (q.draftLen == r.blockSize || q.draftLen == Max(r.maxNew - r.outputCount, 0))
      && q.draftLen <= Max(r.maxNew - r.outputCount, 0)
      && q == r.(state := DraftReady, draftLen := q.draftLen)
  {}

  /** Verification accepts no more than was drafted, and never more than the remaining budget. */
  lemma VerifiedWithinBudget(r: Descriptor, draft: seq<int>, present: bool)
    requires Verifying(r)
    ensures var q := VerifyReq(r, draft, present);
      && q.state == CommitReady && 0 <= q.acceptedPrefix <= Max(0, Min(r.draftLen, r.maxNew - r.outputCount))
      && CommitReq(q).outputCount <= Max(r.maxNew, r.outputCount + 1)
  {
    TakeLength(draft, VerifyLimit(r));
  }

  lemma TakeLength(draft: seq<int>, n: int)
    ensures |Take(draft, n)| <= Max(0, n)
  {}

  /**
   What a commit adds: the accepted tokens, or one token where none was accepted. The
   request is done exactly if its budget is used up, or that one token is EOS.
   */
  lemma CommitAdds(r: Descriptor)
    requires r.state == CommitReady && r.acceptedPrefix >= 0
    ensures var q, added := CommitReq(r), Max(r.acceptedPrefix, 1);
      && q.outputCount == r.outputCount + added && q.decodePos == r.decodePos + added
      && q.state in {DecodeReady, Complete}
      && (r.acceptedPrefix > 0 ==>
            q.lastToken == 0 && q.flags == r.flags && (q.state == Complete <==> q.outputCount >= r.maxNew))
      && (r.acceptedPrefix == 0 ==>
            && (q.lastToken == r.eos ==> EosSeen in q.flags)
            && (q.state == Complete <==> q.lastToken == r.eos || q.outputCount >= r.maxNew))
  {}

  /** Position and output count of a request never drift apart. */
  predicate InStep(r: Descriptor) {
    r.state in {PrefillReady, DecodeReady, Complete} && (r.state != PrefillReady ==> r.decodePos == r.outputCount)
  }

  lemma BodyStaysInStep(k: Launch, l: Local, first: bool)
    requires k.pageSize >= 1 && InStep(l.req)
    ensures InStep(Body(k, l, first).req)
  {
    var start := if first then InitBlock(k, l) else l;
    if !start.req.IsDone() {
      RoundStaysInStep(PrefillReq(start.req), DoDecode(k, DoSelect(DoPrefill(start))).draft, k.hasDrafts);
    }
  }

  lemma NextInStep(k: Launch, before: Local, after: Local, first: bool)
    requires k.pageSize >= 1 && after == Body(k, before, first)
    ensures InStep(before.req) ==> InStep(after.req)
  {
    if InStep(before.req) {
      BodyStaysInStep(k, before, first);
    }
  }

  lemma RoundStaysInStep(r: Descriptor, draft: seq<int>, present: bool)
    requires r.state == DecodeReady && r.decodePos == r.outputCount
    ensures InStep(CommitReq(VerifyReq(DecodeReq(r), draft, present)))
  {
    var d := DecodeReq(r);
    if Drafting(r) {
      CommitAdds(VerifyReq(d, draft, present));
    }
  }

  /** In a block's own run the decode position is the number of emitted tokens, after every iteration. */
  lemma {:induction false} IterationsStayInStep(k: Launch, l: Local, n: nat, end: Local)
    requires k.pageSize >= 1 && InStep(l.req) && end == Iterations(k, l, n)
    ensures InStep(end.req)
  {
    if n > 0 {
      var before := Iterations(k, l, n - 1);
      IterationsStayInStep(k, l, n - 1, before);
      IterationIs(k, l, n);
      NextInStep(k, before, end, n == 1);
    }
  }
}
