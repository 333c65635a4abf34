/** The fused verify-and-commit kernel, and when it agrees with the two separate stages. */
module VerifyCommit {
  import opened Arithmetic
  import opened Sequences
  import opened DeviceTypes
  import opened Stages

  datatype VerifyCommitMetrics = VerifyCommitMetrics(
    requestId: int, candidates: int, accepted: int, rejected: int, committedPages: int, releasedPages: int)

  /** The fallback branch of the fused kernel. */
  function FusedFallback(r: Descriptor): Descriptor {
    var token := Rem(r.lastToken + 1 + r.requestId, VOCABULARY);
    var q := r.(lastToken := token, outputCount := r.outputCount + 1, decodePos := r.decodePos + 1);
    if token == q.eos then q.(flags := q.flags + {EosSeen}, state := Complete)
    else q.(state := if q.outputCount >= q.maxNew then Complete else DecodeReady)
  }

  /** The descriptor after `fused_verify_and_commit_kernel`. */
  function FusedReq(r: Descriptor, draft: seq<int>, present: bool): Descriptor {
    if !Verifying(r) then r
    else
      var accepted := AcceptedOf(r, draft, present);
      var q := AdaptBlock(r.(acceptedPrefix := accepted), accepted, VerifyLimit(r));
      if accepted == 0 then FusedFallback(q)
      else
        var c := q.outputCount + accepted;
        q.(lastToken := 0, outputCount := c, decodePos := q.decodePos + accepted,
           state := if c >= q.maxNew then Complete else DecodeReady)
  }

  /** Pages committed by the fused kernel, clamped before the released pages are counted. */
  function FusedCommitted(r: Descriptor, accepted: int, pageSize: int): int
    requires pageSize >= 1
  {
    if CeilDiv(accepted, pageSize) > r.kvPages then r.kvPages else CeilDiv(accepted, pageSize)
  }

  /** The page table after `fused_verify_and_commit_kernel`. */
  function FusedPages(r: Descriptor, draft: seq<int>, present: bool, pages: seq<PageEntry>,
                      pageSize: int): (t: seq<PageEntry>)
    requires pageSize >= 1
    ensures |t| == |pages|
  {
    if !Verifying(r) || AcceptedOf(r, draft, present) == 0 || r.kvPages <= 0 then pages
    else
      var n := FusedCommitted(r, AcceptedOf(r, draft, present), pageSize);
      ApplyRange(DiscardOp, ApplyRange(CommitOp, pages, r.kvOffset, n), r.kvOffset + n, r.kvPages - n)
  }

  function FusedMetrics(r: Descriptor, draft: seq<int>, present: bool, pageSize: int): VerifyCommitMetrics
    requires pageSize >= 1
  {
    if !Verifying(r) then VerifyCommitMetrics(r.requestId, 0, 0, 0, 0, 0)
    else
      var accepted := AcceptedOf(r, draft, present);
      var n := if accepted == 0 || r.kvPages <= 0 then 0 else FusedCommitted(r, accepted, pageSize);
      VerifyCommitMetrics(r.requestId, VerifyLimit(r), accepted, VerifyLimit(r) - accepted, n,
                          if accepted == 0 || r.kvPages <= 0 then 0 else r.kvPages - n)
  }

  /** The verification loop: how many candidates there are, and how many are accepted. */
  method VerifyDraft(r: Descriptor, drafts: array?<int>) returns (limit: int, accepted: nat)
    requires Verifying(r) && (drafts != null ==> InRange(drafts[..], r.draftOffset, VerifyLimit(r)))
    ensures limit == VerifyLimit(r) && accepted == AcceptedOf(r, DraftOf(r, drafts), drafts != null)
  {
    limit := r.draftLen;
    var budget := r.maxNew - r.outputCount;
    if limit > budget {
      limit := budget;
    }
    accepted := CountAcceptedRun(r, drafts, limit);
    assert Take(DraftOf(r, drafts), limit) == DraftOf(r, drafts);
  }

  method EmitFallbackToken(r: Descriptor) returns (q: Descriptor)
    ensures q == FusedFallback(r)
  {
    var token := Rem(r.lastToken + 1 + r.requestId, VOCABULARY);
    q := r.(lastToken := token, outputCount := r.outputCount + 1, decodePos := r.decodePos + 1);
    if token == q.eos {
      q := q.(flags := q.flags + {EosSeen}, state := Complete);
    } else if q.outputCount >= q.maxNew {
      q := q.(state := Complete);
    } else {
      q := q.(state := DecodeReady);
    }
  }

  /** The page loops of the fused kernel: the covered pages are committed, the other drafts released. */
  method CommitAndRelease(r: Descriptor, table: array<PageEntry>, pageSize: int, accepted: nat)
    returns (committed: int, released: int)
    requires pageSize >= 1 && accepted > 0 && r.kvPages > 0 && InRange(table[..], r.kvOffset, r.kvPages)
    modifies table
    ensures committed == FusedCommitted(r, accepted, pageSize) && released == r.kvPages - committed
    ensures table[..] == ApplyRange(DiscardOp, ApplyRange(CommitOp, old(table[..]), r.kvOffset, committed),
                                    r.kvOffset + committed, released)
  {
    committed := CeilDiv(accepted, pageSize);
    CeilDivFacts(accepted, pageSize);
    if committed > r.kvPages {
      committed := r.kvPages;
    }
    released := r.kvPages - committed;
    CommitDraftRegion(table, r.kvOffset, committed);
    if released > 0 {
      DiscardRejectedRegion(table, r.kvOffset + committed, released);
    }
  }

  /** `fused_verify_and_commit_kernel`. */
  method FusedVerifyAndCommit(requests: array<Descriptor>, b: nat, table: array<PageEntry>, pageSize: int,
                              drafts: array?<int>)
    returns (metric: VerifyCommitMetrics)
    requires b < requests.Length && pageSize >= 1
    requires drafts != null && Verifying(requests[b]) ==>
      InRange(drafts[..], requests[b].draftOffset, VerifyLimit(requests[b]))
    requires InRange(table[..], requests[b].kvOffset, requests[b].kvPages)
    modifies requests, table
    ensures var r, draft := old(requests[b]), old(DraftOf(requests[b], drafts));
      && requests[..] == old(requests[..])[b := FusedReq(r, draft, drafts != null)]
      && table[..] == FusedPages(r, draft, drafts != null, old(table[..]), pageSize)
      && metric == FusedMetrics(r, draft, drafts != null, pageSize)
  {
    var r := requests[b];
    metric := VerifyCommitMetrics(r.requestId, 0, 0, 0, 0, 0);
    if r.state != DraftReady && r.state != VerifyReady {
      return;
    }
    var limit, accepted := VerifyDraft(r, drafts);
    var q := UpdateBlockSizeDevice(r.(acceptedPrefix := accepted), accepted, limit, KvPressure in r.flags);
    metric := metric.(candidates := limit, accepted := accepted, rejected := limit - accepted);
    if accepted == 0 {
      requests[b] := EmitFallbackToken(q);
      return;
    }
    q := q.(lastToken := 0, outputCount := q.outputCount + accepted, decodePos := q.decodePos + accepted);
    if r.kvPages > 0 {
      var committed, released := CommitAndRelease(r, table, pageSize, accepted);
      metric := metric.(committedPages := committed, releasedPages := released);
    }
    requests[b] := q.(state := if q.outputCount >= q.maxNew then Complete else DecodeReady);
  }

  // ------------------------------------------------------------------- results

  /**
   Fused equals staged: the fused kernel leaves the same descriptor and page table
   as verify followed by commit, unless the request was already waiting to commit,
   which only the separate stages act upon.
   */
  lemma FusedEqualsStaged(r: Descriptor, draft: seq<int>, present: bool, pages: seq<PageEntry>, pageSize: int)
    requires pageSize >= 1
    ensures var v := VerifyReq(r, draft, present);
      (FusedReq(r, draft, present) == CommitReq(v) &&
       FusedPages(r, draft, present, pages, pageSize) == CommitPages(v, pages, r.kvOffset, pageSize))
      <==> r.state != CommitReady
  {
    if r.state == CommitReady {
      assert CommitReq(r).state != CommitReady;
    }
  }

  /** Every candidate is accepted or rejected, and every page of a committing request is committed or released. */
  lemma MetricsBalance(r: Descriptor, draft: seq<int>, present: bool, pageSize: int)
    requires pageSize >= 1
    ensures var m := FusedMetrics(r, draft, present, pageSize);
      && m.accepted + m.rejected == m.candidates
      && (m.accepted > 0 && r.kvPages > 0 ==>
            m.committedPages + m.releasedPages == r.kvPages && m.releasedPages >= 0
            && m.committedPages >= 1
            && (m.releasedPages > 0 ==> (m.committedPages - 1) * pageSize < m.accepted <= m.committedPages * pageSize))
      && FusedReq(r, draft, present).outputCount ==
           r.outputCount + if !Verifying(r) then 0 else Max(m.accepted, 1)
  {
    if Verifying(r) {
      CeilDivFacts(AcceptedOf(r, draft, present), pageSize);
    }
  }

  /** After a commit of accepted tokens no page of the request is a draft, and the covered pages are committed. */
  lemma NoDraftSurvives(r: Descriptor, draft: seq<int>, present: bool, pages: seq<PageEntry>, pageSize: int, i: int)
    requires pageSize >= 1 && AcceptedOf(r, draft, present) > 0 && Verifying(r)
    requires 0 <= i < |pages|
    ensures var t := FusedPages(r, draft, present, pages, pageSize);
      if r.kvOffset <= i < r.kvOffset + r.kvPages then
        && t[i].state != DraftPage
        && ((i - r.kvOffset) * pageSize < AcceptedOf(r, draft, present) ==>
              t[i].state == CommittedPage && {Committed, Resident} <= t[i].flags && Draft !in t[i].flags)
        && ((i - r.kvOffset) * pageSize >= AcceptedOf(r, draft, present) ==>
              if pages[i].state == DraftPage
              then t[i].state == EvictablePage && t[i].flags == pages[i].flags + {Evictable} - {Pinned}
              else t[i] == pages[i])
      else t[i] == pages[i]
  {
    var accepted := AcceptedOf(r, draft, present);
    var n, k := CeilDiv(accepted, pageSize), i - r.kvOffset;
    CeilDivFacts(accepted, pageSize);
    if k < n {
      MulLe(k, n - 1, pageSize);
    } else {
      MulLe(n, k, pageSize);
    }
  }
}
