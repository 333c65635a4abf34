/**
 The stage helpers of a resident block: prefill, decode, speculative verify and
 commit, each as a function of one request's own memory and as code over the
 device arrays.
 */
module Stages {
  import opened Arithmetic
  import opened Sequences
  import opened DeviceTypes

  // ------------------------------------------------------------- page-range loops

  /** What a page-range loop does to one page. */
  datatype PageOp = CommitOp | DiscardOp | PrefillOp(requestId: int)

  function ApplyOp(op: PageOp, e: PageEntry): PageEntry {
    match op
    case CommitOp => MarkCommitted(e)
    case DiscardOp => if e.state == DraftPage then MarkEvictable(e) else e
    case PrefillOp(rid) => MarkResident(MarkPinned(MarkCommitted(e))).(requestId := rid)
  }

  /** The operation on the `n` pages from `lo` on. */
  function ApplyRange(op: PageOp, s: seq<PageEntry>, lo: int, n: int): (t: seq<PageEntry>)
    ensures |t| == |s|
    ensures forall i :: 0 <= i < |s| ==> t[i] == if lo <= i < lo + n then ApplyOp(op, s[i]) else s[i]
  {
    seq(|s|, i requires 0 <= i < |s| => if lo <= i < lo + n then ApplyOp(op, s[i]) else s[i])
  }

  predicate InRange<T>(s: seq<T>, lo: int, n: int) { n > 0 ==> 0 <= lo && lo + n <= |s| }

  method CommitDraftRegion(table: array<PageEntry>, offset: int, n: int)
    requires InRange(table[..], offset, n)
    modifies table
    ensures table[..] == ApplyRange(CommitOp, old(table[..]), offset, n)
  {
    var i := 0;
    while i < n
      invariant 0 <= i <= Max(n, 0) && table[..] == ApplyRange(CommitOp, old(table[..]), offset, i)
    {
      table[offset + i] := MarkCommitted(table[offset + i]);
      i := i + 1;
    }
  }

  method DiscardRejectedRegion(table: array<PageEntry>, offset: int, n: int)
    requires InRange(table[..], offset, n)
    modifies table
    ensures table[..] == ApplyRange(DiscardOp, old(table[..]), offset, n)
  {
    var i := 0;
    while i < n
      invariant 0 <= i <= Max(n, 0) && table[..] == ApplyRange(DiscardOp, old(table[..]), offset, i)
    {
      if table[offset + i].state == DraftPage {
        table[offset + i] := MarkEvictable(table[offset + i]);
      }
      i := i + 1;
    }
  }

  // ------------------------------------------------------------------ one request

  const VOCABULARY := 32000

  /** The request starts over: first token, counts and position reset. */
  function PrefillReq(r: Descriptor): Descriptor {
    if r.state != PrefillReady then r
    else r.(decodePos := 0, outputCount := 0, lastToken := Rem(r.requestId * 7 + 3, VOCABULARY), state := DecodeReady)
  }

  function NextToken(r: Descriptor): int { Rem(r.lastToken + 1 + r.requestId, VOCABULARY) }

  /** One serial token, and where it leaves the request. */
  function SerialToken(r: Descriptor): Descriptor {
    var q := r.(lastToken := NextToken(r), outputCount := r.outputCount + 1, decodePos := r.decodePos + 1);
    if q.lastToken == r.eos then q.(flags := r.flags + {EosSeen}, state := Complete)
    else if q.outputCount >= r.maxNew then q.(state := Complete)
    else q.(state := DecodeReady)
  }

  function Budget(r: Descriptor): int { r.maxNew - r.outputCount }

  function DraftCount(r: Descriptor): int {
    if r.blockSize > Budget(r) then Max(Budget(r), 0) else r.blockSize
  }

  function DraftToken(r: Descriptor, i: int): int { Rem(r.lastToken + 1 + i + r.requestId, VOCABULARY) }

  predicate Drafting(r: Descriptor) { r.state == DecodeReady && SpeculativeEnabled in r.flags }

  function DecodeReq(r: Descriptor): Descriptor {
    if r.state != DecodeReady then r
    else if SpeculativeEnabled in r.flags then r.(draftLen := DraftCount(r), state := DraftReady)
    else SerialToken(r)
  }

  /** The draft buffer after decode; a missing buffer is not written. */
  function DecodeDraft(r: Descriptor, draft: seq<int>, lo: int, present: bool): (d: seq<int>)
    ensures |d| == |draft|
  {
    if Drafting(r) && present
    then seq(|draft|, i requires 0 <= i < |draft| => if lo <= i < lo + DraftCount(r) then DraftToken(r,
             i - lo) else draft[i])
    else draft
  }

  /** Length of the accepted prefix of a draft: up to a live EOS token or a multiple of four. */
  function AcceptedRun(r: Descriptor, draft: seq<int>): (n: nat)
    ensures n <= |draft|
  {
    if draft == [] || (r.eos > 0 && draft[0] == r.eos) || draft[0] % 4 == 0 then 0
    else 1 + AcceptedRun(r, draft[1..])
  }

  /** What was accepted: the longest run of leading draft tokens that are no live EOS and no multiple of four. */
  lemma {:induction false} AcceptedRunIsLongest(r: Descriptor, draft: seq<int>)
    ensures var n := AcceptedRun(r, draft);
      && (forall i :: 0 <= i < n ==> draft[i] % 4 != 0 && (r.eos > 0 ==> draft[i] != r.eos))
      && (n < |draft| ==> draft[n] % 4 == 0 || (r.eos > 0 && draft[n] == r.eos))
  {
    if draft != [] {
      AcceptedRunIsLongest(r, draft[1..]);
    }
  }

  function VerifyLimit(r: Descriptor): int { Min(r.draftLen, Budget(r)) }

  predicate Verifying(r: Descriptor) { r.state == DraftReady || r.state == VerifyReady }

  /** `update_block_size_device`. */
  function AdaptBlock(r: Descriptor, accepted: int, proposed: int): Descriptor {
    var observed := if proposed > 0 then accepted as real / proposed as real else 0.0;
    var rate := 0.20 * observed + 0.80 * r.ema;
    var next := if rate >= 0.80 then 8 else if rate >= 0.50 then 4 else 1;
    r.(ema := rate, blockSize := if KvPressure in r.flags && next > 2 then 2 else next)
  }

  /** `draft` is the request's own draft, if the buffer is present. */
  function AcceptedOf(r: Descriptor, draft: seq<int>, present: bool): nat {
    if present then AcceptedRun(r, Take(draft, VerifyLimit(r))) else 0
  }

  function VerifyReq(r: Descriptor, draft: seq<int>, present: bool): Descriptor {
    if !Verifying(r) then r
    else
      var accepted := AcceptedOf(r, draft, present);
      AdaptBlock(r.(acceptedPrefix := accepted), accepted, VerifyLimit(r)).(state := CommitReady)
  }

  function CommitReq(r: Descriptor): Descriptor {
    if r.state != CommitReady then r
    else if r.acceptedPrefix == 0 then SerialToken(r)
    else
      var q := r.(lastToken := 0, outputCount := r.outputCount + r.acceptedPrefix,
                  decodePos := r.decodePos + r.acceptedPrefix);
      q.(state := if q.outputCount >= r.maxNew then Complete else DecodeReady)
  }

  /** Pages that the accepted prefix covers. */
  function HitPages(r: Descriptor, pageSize: int): int
    requires pageSize >= 1
  {
    Min(CeilDiv(r.acceptedPrefix, pageSize), r.kvPages)
  }

  /** The page table after commit: covered pages are committed, other draft pages become evictable. */
  function CommitPages(r: Descriptor, pages: seq<PageEntry>, lo: int, pageSize: int): (t: seq<PageEntry>)
    requires pageSize >= 1
    ensures |t| == |pages|
  {
    if r.state != CommitReady || r.acceptedPrefix == 0 || r.kvPages <= 0 then pages
    else
      var hit := HitPages(r, pageSize);
      ApplyRange(DiscardOp, ApplyRange(CommitOp, pages, lo, hit), lo + hit, r.kvPages - hit)
  }

  function PrefillPages(r: Descriptor, pages: seq<PageEntry>, lo: int): (t: seq<PageEntry>)
    ensures |t| == |pages|
  {
    if r.state == PrefillReady then ApplyRange(PrefillOp(r.requestId), pages, lo, r.kvPages) else pages
  }

  // -------------------------------------------------------------- over device arrays

  method StagePrefill(requests: array<Descriptor>, b: nat, table: array<PageEntry>)
    requires b < requests.Length && InRange(table[..], requests[b].kvOffset, requests[b].kvPages)
    modifies requests, table
    ensures requests[..] == old(requests[..])[b := PrefillReq(old(requests[b]))]
    ensures table[..] == PrefillPages(old(requests[b]), old(table[..]), old(requests[b].kvOffset))
  {
    var r := requests[b];
    if r.state != PrefillReady {
      return;
    }
    requests[b] := r.(decodePos := 0, outputCount := 0, lastToken := Rem(r.requestId * 7 + 3, VOCABULARY));
    var i := 0;
    while i < r.kvPages
      invariant 0 <= i <= Max(r.kvPages, 0)
      invariant table[..] == ApplyRange(PrefillOp(r.requestId), old(table[..]), r.kvOffset, i)
      invariant requests[..] == old(requests[..])[b := PrefillReq(r).(state := PrefillReady)]
    {
      var e := MarkResident(MarkPinned(MarkCommitted(table[r.kvOffset + i])));
      table[r.kvOffset + i] := e.(requestId := r.requestId);
      i := i + 1;
    }
    requests[b] := requests[b].(state := DecodeReady);
  }

  /** The serial branch, over the array. */
  method EmitSerialToken(requests: array<Descriptor>, b: nat)
    requires b < requests.Length
    modifies requests
    ensures requests[..] == old(requests[..])[b := SerialToken(old(requests[b]))]
  {
    var r := requests[b];
    var token := Rem(r.lastToken + 1 + r.requestId, VOCABULARY);
    r := r.(lastToken := token, outputCount := r.outputCount + 1, decodePos := r.decodePos + 1);
    if token == r.eos {
      r := r.(flags := r.flags + {EosSeen}, state := Complete);
    } else if r.outputCount >= r.maxNew {
      r := r.(state := Complete);
    } else {
      r := r.(state := DecodeReady);
    }
    requests[b] := r;
  }

  method StageDecode(requests: array<Descriptor>, b: nat, drafts: array?<int>)
    requires b < requests.Length
    requires drafts != null && Drafting(requests[b]) ==>
      InRange(drafts[..], requests[b].draftOffset, DraftCount(requests[b]))
    modifies requests, drafts
    ensures requests[..] == old(requests[..])[b := DecodeReq(old(requests[b]))]
    ensures drafts != null ==>
      drafts[..] == DecodeDraft(old(requests[b]), old(drafts[..]), old(requests[b].draftOffset), true)
  {
    var r := requests[b];
    if r.state != DecodeReady {
      return;
    }
    if SpeculativeEnabled in r.flags {
      var count := r.blockSize;
      var budget := r.maxNew - r.outputCount;
      if count > budget {
        count := if budget > 0 then budget else 0;
      }
      requests[b] := r.(draftLen := count);
      if drafts != null {
        var i := 0;
        while i < count
          invariant 0 <= i <= Max(count, 0) && requests[..] == old(requests[..])[b := r.(draftLen := count)]
          invariant forall j :: 0 <= j < drafts.Length ==>
            drafts[j] == if r.draftOffset <= j < r.draftOffset + i then DraftToken(r, j - r.draftOffset)
                         else old(drafts[j])
        {
          drafts[r.draftOffset + i] := Rem(r.lastToken + 1 + i + r.requestId, VOCABULARY);
          i := i + 1;
        }
      }
      requests[b] := requests[b].(state := DraftReady);
    } else {
      EmitSerialToken(requests, b);
    }
  }

  /** The counting loop shared by the staged and the fused verifier. */
  method CountAcceptedRun(r: Descriptor, drafts: array?<int>, limit: int) returns (accepted: nat)
    requires drafts != null ==> InRange(drafts[..], r.draftOffset, limit)
    ensures accepted == if drafts != null && limit > 0
      then AcceptedRun(r, drafts[r.draftOffset..r.draftOffset + limit]) else 0
  {
    accepted := 0;
    if drafts != null {
      var i := 0;
      while i < limit
        invariant 0 <= i <= Max(limit, 0) && accepted == i
        invariant limit > 0 ==>
          accepted + AcceptedRun(r, drafts[r.draftOffset + i..r.draftOffset + limit])
            == AcceptedRun(r, drafts[r.draftOffset..r.draftOffset + limit])
      {
        ghost var rest := drafts[r.draftOffset + i..r.draftOffset + limit];
        var token := drafts[r.draftOffset + i];
        assert token == rest[0] && rest[1..] == drafts[r.draftOffset + i + 1..r.draftOffset + limit];
        if r.eos > 0 && token == r.eos { break; }
        if token % 4 == 0 { break; }
        accepted := accepted + 1;
        i := i + 1;
      }
    }
  }

  /** The part of the buffer that verification of the request looks at. */
  function DraftOf(r: Descriptor, drafts: array?<int>): seq<int>
    reads drafts
    requires drafts != null && Verifying(r) ==> InRange(drafts[..], r.draftOffset, VerifyLimit(r))
  {
    if drafts != null && Verifying(r) && VerifyLimit(r) > 0
    then drafts[r.draftOffset..r.draftOffset + VerifyLimit(r)] else []
  }

  method UpdateBlockSizeDevice(r: Descriptor, accepted: int, proposed: int, pressure: bool) returns (q: Descriptor)
    requires pressure == (KvPressure in r.flags)
    ensures q == AdaptBlock(r, accepted, proposed)
  {
    var observed := if proposed > 0 then accepted as real / proposed as real else 0.0;
    q := r.(ema := 0.20 * observed + (1.0 - 0.20) * r.ema);
    var next: int;
    if q.ema >= 0.80 {
      next := 8;
    } else if q.ema >= 0.50 {
      next := 4;
    } else {
      next := 1;
    }
    if pressure && next > 2 {
      next := 2;
    }
    q := q.(blockSize := Max(next, 1));
  }

  method StageSpecVerify(requests: array<Descriptor>, b: nat, drafts: array?<int>)
    requires b < requests.Length
    requires drafts != null && Verifying(requests[b]) ==>
      InRange(drafts[..], requests[b].draftOffset, VerifyLimit(requests[b]))
    modifies requests
    ensures requests[..]
         == old(requests[..])[b := VerifyReq(old(requests[b]), DraftOf(old(requests[b]), drafts), drafts != null)]
  {
    var r := requests[b];
    if r.state != DraftReady && r.state != VerifyReady {
      return;
    }
    var limit := r.draftLen;
    var budget := r.maxNew - r.outputCount;
    if limit > budget {
      limit := budget;
    }
    var accepted := CountAcceptedRun(r, drafts, limit);
    assert accepted == AcceptedOf(r, DraftOf(r, drafts), drafts != null) by {
      assert Take(DraftOf(r, drafts), limit) == DraftOf(r, drafts);
    }
    r := r.(acceptedPrefix := accepted);
    r := UpdateBlockSizeDevice(r, accepted, limit, KvPressure in r.flags);
    requests[b] := r.(state := CommitReady);
  }

  method StageCommit(requests: array<Descriptor>, b: nat, table: array<PageEntry>, pageSize: int)
    requires b < requests.Length && pageSize >= 1
    requires requests[b].state == CommitReady ==> requests[b].acceptedPrefix >= 0
    requires InRange(table[..], requests[b].kvOffset, requests[b].kvPages)
    modifies requests, table
    ensures requests[..] == old(requests[..])[b := CommitReq(old(requests[b]))]
    ensures table[..] == CommitPages(old(requests[b]), old(table[..]), old(requests[b].kvOffset), pageSize)
  {
    var r := requests[b];
    if r.state != CommitReady {
      return;
    }
    var accepted := r.acceptedPrefix;
    if accepted == 0 {
      EmitSerialToken(requests, b);
      return;
    }
    requests[b] := r.(lastToken := 0, outputCount := r.outputCount + accepted, decodePos := r.decodePos + accepted);
    if r.kvPages > 0 {
      var hit := CeilDiv(accepted, pageSize);
      CeilDivFacts(accepted, pageSize);
      var draftPages := r.kvPages - hit;
      if hit > r.kvPages {
        hit := r.kvPages;
      }
      if draftPages < 0 {
        draftPages := 0;
      }
      CommitDraftRegion(table, r.kvOffset, hit);
      if draftPages > 0 {
        DiscardRejectedRegion(table, r.kvOffset + hit, draftPages);
      }
    }
    r := requests[b];
    requests[b] := r.(state := if r.outputCount >= r.maxNew then Complete else DecodeReady);
  }
}
