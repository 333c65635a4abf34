/** The loop body of the mega-kernel as code over the device arrays. */
module KernelCode {
  import opened Arithmetic
  import opened Sequences
  import opened DeviceTypes
  import opened Stages
  import opened SparseSelect
  import opened ResidentBlock
  import opened MegaKernel

  function MemOf(requests: array<Descriptor>, table: array<PageEntry>, drafts: array?<int>): Memory
    reads requests, table, drafts
  {
    Memory(requests[..], table[..], if drafts == null then [] else drafts[..])
  }

  /** A page-range operation touches the range as it would the request's own pages. */
  lemma RangeIsSplice(op: PageOp, s: seq<PageEntry>, at: int, size: int, lo: int, n: int)
    requires 0 <= at <= at + size <= |s| && 0 <= lo && lo + n <= size
    ensures ApplyRange(op, s, at + lo, n) == Splice(s, at, ApplyRange(op, Slice(s, at, size), lo, n))
  {
    var own := ApplyRange(op, Slice(s, at, size), lo, n);
    var t, u := ApplyRange(op, s, at + lo, n), Splice(s, at, own);
    forall i | 0 <= i < |s| ensures t[i] == u[i] {
      if at <= i < at + size {
        assert u[i] == own[i - at];
      }
    }
  }

  lemma PrefillIsSplice(k: Launch, m: Memory, b: nat)
    requires b < |m.requests| && Placed(k, m, m.requests[b])
    ensures var r := m.requests[b];
      Store(m, b, DoPrefill(Load(k, m, b)))
        == Memory(m.requests[b := PrefillReq(r)], PrefillPages(r, m.pages, r.kvOffset), m.drafts)
  {
    var r := m.requests[b];
    if r.kvPages > 0 {
      RangeIsSplice(PrefillOp(r.requestId), m.pages, r.kvOffset, r.kvPages, 0, r.kvPages);
    } else {
      assert ApplyRange(PrefillOp(r.requestId), m.pages, r.kvOffset, r.kvPages) == m.pages;
    }
    SpliceBack(m.drafts, r.draftOffset, if k.hasDrafts then k.region else 0);
    SpliceBack(m.pages, r.kvOffset, Max(r.kvPages, 0));
  }

  /** Writing back what was read changes nothing. */
  lemma SpliceBack<T>(s: seq<T>, at: int, n: int)
    ensures Splice(s, at, Slice(s, at, n)) == s
    ensures Splice(s, at, []) == s
  {}

  lemma PiecesAreSplice(s: seq<PageEntry>, t: seq<PageEntry>, at: int, own: seq<PageEntry>)
    requires 0 <= at <= at + |own| <= |s| == |t|
    requires t[..at] == s[..at] && t[at..at + |own|] == own && t[at + |own|..] == s[at + |own|..]
    ensures t == Splice(s, at, own)
  {}

  lemma SelectIsSplice(k: Launch, m: Memory, b: nat)
    requires b < |m.requests| && Placed(k, m, m.requests[b])
    ensures var r := m.requests[b];
      Store(m, b, DoSelect(Load(k, m, b)))
        == m.(pages := Splice(m.pages, r.kvOffset, SelectPages(r, Slice(m.pages, r.kvOffset, Max(r.kvPages, 0)),
              r.blockSize)))
  {
    var r := m.requests[b];
    SpliceBack(m.drafts, r.draftOffset, if k.hasDrafts then k.region else 0);
    assert m.requests[b := r] == m.requests;
  }

  lemma DecodeIsSplice(k: Launch, m: Memory, b: nat)
    requires b < |m.requests| && Placed(k, m, m.requests[b])
    requires k.hasDrafts && Drafting(m.requests[b]) ==> DraftCount(m.requests[b]) <= k.region
    ensures var r := m.requests[b];
      Store(m, b, DoDecode(k, Load(k, m, b)))
        == Memory(m.requests[b := DecodeReq(r)], m.pages,
                  if k.hasDrafts then DecodeDraft(r, m.drafts, r.draftOffset, true) else m.drafts)
  {
    var r := m.requests[b];
    SpliceBack(m.pages, r.kvOffset, Max(r.kvPages, 0));
    SpliceBack(m.drafts, r.draftOffset, if k.hasDrafts then k.region else 0);
    if k.hasDrafts && Drafting(r) {
      DraftIsSplice(r, m.drafts, k.region);
    }
  }

  lemma DraftIsSplice(r: Descriptor, drafts: seq<int>, region: nat)
    requires 0 <= r.draftOffset && r.draftOffset + region <= |drafts| && Drafting(r) && DraftCount(r) <= region
    ensures DecodeDraft(r, drafts, r.draftOffset, true)
         == Splice(drafts, r.draftOffset, DecodeDraft(r, Slice(drafts, r.draftOffset, region), 0, true))
  {
    var own := DecodeDraft(r, Slice(drafts, r.draftOffset, region), 0, true);
    var t, u := DecodeDraft(r, drafts, r.draftOffset, true), Splice(drafts, r.draftOffset, own);
    forall i | 0 <= i < |drafts| ensures t[i] == u[i] {
      if r.draftOffset <= i < r.draftOffset + region {
        assert u[i] == own[i - r.draftOffset];
      }
    }
  }

  /** Verification looks at the draft up to its limit only. */
  lemma VerifySame(r: Descriptor, one: seq<int>, two: seq<int>, present: bool)
    requires present && Verifying(r) ==> Take(one, VerifyLimit(r)) == Take(two, VerifyLimit(r))
    ensures VerifyReq(r, one, present) == VerifyReq(r, two, present)
  {}

  lemma SameStart(s: seq<int>, at: int, size: int, n: int, own: seq<int>)
    requires 0 <= at <= at + size <= |s| && n <= size && own == if n > 0 then s[at..at + n] else []
    ensures Take(Slice(s, at, size), n) == Take(own, n)
  {}

  lemma VerifyIsSplice(k: Launch, m: Memory, b: nat, own: seq<int>)
    requires b < |m.requests| && Placed(k, m, m.requests[b])
    requires var r := m.requests[b];
      k.hasDrafts && Verifying(r) ==>
        VerifyLimit(r) <= k.region
        && own == if VerifyLimit(r) > 0 then m.drafts[r.draftOffset..r.draftOffset + VerifyLimit(r)] else []
    ensures Store(m, b, DoVerify(k, Load(k, m, b)))
         == m.(requests := m.requests[b := VerifyReq(m.requests[b], own, k.hasDrafts)])
  {
    var r, l := m.requests[b], Load(k, m, b);
    SpliceBack(m.pages, r.kvOffset, Max(r.kvPages, 0));
    SpliceBack(m.drafts, r.draftOffset, if k.hasDrafts then k.region else 0);
    if k.hasDrafts && Verifying(r) {
      SameStart(m.drafts, r.draftOffset, k.region, VerifyLimit(r), own);
    }
    VerifySame(r, l.draft, own, k.hasDrafts);
  }

  lemma CommitPagesIsSplice(r: Descriptor, s: seq<PageEntry>, pageSize: int)
    requires pageSize >= 1 && (r.state == CommitReady ==> r.acceptedPrefix >= 0)
    requires r.kvPages > 0 ==> 0 <= r.kvOffset && r.kvOffset + r.kvPages <= |s|
    ensures CommitPages(r, s, r.kvOffset, pageSize)
         == Splice(s, r.kvOffset, CommitPages(r, Slice(s, r.kvOffset, Max(r.kvPages, 0)), 0, pageSize))
  {
    if r.state == CommitReady && r.acceptedPrefix != 0 && r.kvPages > 0 {
      CeilDivFacts(r.acceptedPrefix, pageSize);
      CommitRangeIsSplice(s, r.kvOffset, r.kvPages, HitPages(r, pageSize));
    } else {
      SpliceBack(s, r.kvOffset, Max(r.kvPages, 0));
    }
  }

  lemma CommitIsSplice(k: Launch, m: Memory, b: nat)
    requires k.pageSize >= 1 && b < |m.requests| && Placed(k, m, m.requests[b])
    requires m.requests[b].state == CommitReady ==> m.requests[b].acceptedPrefix >= 0
    ensures var r := m.requests[b];
      Store(m, b, DoCommit(k, Load(k, m, b)))
        == Memory(m.requests[b := CommitReq(r)], CommitPages(r, m.pages, r.kvOffset, k.pageSize), m.drafts)
  {
    var r := m.requests[b];
    CommitPagesIsSplice(r, m.pages, k.pageSize);
    SpliceBack(m.drafts, r.draftOffset, if k.hasDrafts then k.region else 0);
  }

  lemma CommitRangeIsSplice(s: seq<PageEntry>, at: int, size: int, hit: int)
    requires 0 <= at <= at + size <= |s| && 0 <= hit <= size
    ensures ApplyRange(DiscardOp, ApplyRange(CommitOp, s, at, hit), at + hit, size - hit)
         == Splice(s, at, ApplyRange(DiscardOp, ApplyRange(CommitOp, Slice(s, at, size), 0, hit), hit, size - hit))
  {
    var own := ApplyRange(DiscardOp, ApplyRange(CommitOp, Slice(s, at, size), 0, hit), hit, size - hit);
    var t, u := ApplyRange(DiscardOp, ApplyRange(CommitOp, s, at, hit), at + hit, size - hit), Splice(s, at, own);
    forall i | 0 <= i < |s| ensures t[i] == u[i] {
      if at <= i < at + size {
        assert u[i] == own[i - at];
      }
    }
  }

  // ------------------------------------------------------------------ the loop body

  ghost predicate Runnable(k: Launch, m: Memory, b: nat) {
    && k.pageSize >= 1 && Laid(k, m) && b < |m.requests| && Fits(k, Load(k, m, b))
    && (m.requests[b].state == CommitReady ==> m.requests[b].acceptedPrefix >= 0)
  }

  /** A second store of the same block covers the first. */
  lemma StoreTwice(k: Launch, m: Memory, b: nat, l: Local, n: Local)
    requires b < |m.requests| && Sized(k, l) && Sized(k, n) && SamePlace(m.requests[b], l.req)
    requires SamePlace(l.req, n.req)
    ensures Store(Store(m, b, l), b, n) == Store(m, b, n)
  {
    var r := m.requests[b];
    SpliceTwice(m.pages, r.kvOffset, l.pages, n.pages);
    SpliceTwice(m.drafts, r.draftOffset, l.draft, n.draft);
  }

  lemma SpliceTwice<T>(s: seq<T>, at: int, v: seq<T>, w: seq<T>)
    requires |v| == |w|
    ensures Splice(Splice(s, at, v), at, w) == Splice(s, at, w)
  {}

  /** One more stage: from memory `m` with the block at `l` to the block at `n`. */
  lemma Chain(k: Launch, m0: Memory, m: Memory, b: nat, l: Local, n: Local)
    requires Laid(k, m0) && b < |m0.requests| && Sized(k, l) && SamePlace(m0.requests[b], l.req) && m == Store(m0, b, l)
    requires KeepsPlace(k, l, n)
    ensures Store(m, b, n) == Store(m0, b, n) && Load(k, m, b) == l && Laid(k, m)
  {
    StoreIsPrivate(k, m0, b, l);
    StoreTwice(k, m0, b, l, n);
  }

  method PrefillCode(k: Launch, requests: array<Descriptor>, b: nat, table: array<PageEntry>, drafts: array?<int>)
    requires k.hasDrafts == (drafts != null) && Runnable(k, MemOf(requests, table, drafts), b)
    modifies requests, table
    ensures var m := old(MemOf(requests, table, drafts));
      MemOf(requests, table, drafts) == Store(m, b, DoPrefill(Load(k, m, b)))
  {
    PrefillIsSplice(k, MemOf(requests, table, drafts), b);
    assert Placed(k, MemOf(requests, table, drafts), requests[b]);
    StagePrefill(requests, b, table);
  }

  method SelectCode(k: Launch, requests: array<Descriptor>, b: nat, table: array<PageEntry>, drafts: array?<int>)
    requires k.hasDrafts == (drafts != null) && Runnable(k, MemOf(requests, table, drafts), b)
    modifies table
    ensures var m := old(MemOf(requests, table, drafts));
      MemOf(requests, table, drafts) == Store(m, b, DoSelect(Load(k, m, b)))
  {
    ghost var m := MemOf(requests, table, drafts);
    var r := requests[b];
    assert Placed(k, m, r);
    SelectIsSplice(k, m, b);
    ghost var own := SelectPages(r, Slice(m.pages, r.kvOffset, Max(r.kvPages, 0)), r.blockSize);
    SelectOwnPages(r, table, own);
  }

  /** Selection over the request's own range, as one replacement. */
  method SelectOwnPages(r: Descriptor, table: array<PageEntry>, ghost own: seq<PageEntry>)
    requires r.kvPages > 0 ==> 0 <= r.kvOffset && r.kvOffset + r.kvPages <= table.Length
    requires own == SelectPages(r, Slice(table[..], r.kvOffset, Max(r.kvPages, 0)), r.blockSize)
    modifies table
    ensures table[..] == Splice(old(table[..]), r.kvOffset, own)
  {
    ghost var s := table[..];
    SelectSparseBlocks(r, table, r.blockSize);
    if r.kvPages > 0 {
      assert Slice(s, r.kvOffset, r.kvPages) == s[r.kvOffset..r.kvOffset + r.kvPages];
      PiecesAreSplice(s, table[..], r.kvOffset, own);
    } else {
      SpliceBack(s, r.kvOffset, 0);
    }
  }

  method DecodeCode(k: Launch, requests: array<Descriptor>, b: nat, table: array<PageEntry>, drafts: array?<int>)
    requires k.hasDrafts == (drafts != null) && Runnable(k, MemOf(requests, table, drafts), b)
    modifies requests, drafts
    ensures var m := old(MemOf(requests, table, drafts));
      MemOf(requests, table, drafts) == Store(m, b, DoDecode(k, Load(k, m, b)))
  {
    assert Placed(k, MemOf(requests, table, drafts), requests[b]);
    DecodeIsSplice(k, MemOf(requests, table, drafts), b);
    StageDecode(requests, b, drafts);
  }

  method VerifyCode(k: Launch, requests: array<Descriptor>, b: nat, table: array<PageEntry>, drafts: array?<int>)
    requires k.hasDrafts == (drafts != null) && Runnable(k, MemOf(requests, table, drafts), b)
    modifies requests
    ensures var m := old(MemOf(requests, table, drafts));
      MemOf(requests, table, drafts) == Store(m, b, DoVerify(k, Load(k, m, b)))
  {
    ghost var m := MemOf(requests, table, drafts);
    assert Placed(k, m, requests[b]) && Sized(k, Load(k, m, b));
    VerifyIsSplice(k, m, b, DraftOf(requests[b], drafts));
    StageSpecVerify(requests, b, drafts);
  }

  method CommitCode(k: Launch, requests: array<Descriptor>, b: nat, table: array<PageEntry>, drafts: array?<int>)
    requires k.hasDrafts == (drafts != null) && Runnable(k, MemOf(requests, table, drafts), b)
    modifies requests, table
    ensures var m := old(MemOf(requests, table, drafts));
      MemOf(requests, table, drafts) == Store(m, b, DoCommit(k, Load(k, m, b)))
  {
    CommitIsSplice(k, MemOf(requests, table, drafts), b);
    assert Placed(k, MemOf(requests, table, drafts), requests[b]);
    StageCommit(requests, b, table, k.pageSize);
  }

  /** The stages of one iteration, called one after the other. */
  method StagesCode(k: Launch, requests: array<Descriptor>, b: nat, table: array<PageEntry>, drafts: array?<int>)
    requires k.hasDrafts == (drafts != null) && Runnable(k, MemOf(requests, table, drafts), b)
    requires Settled(k, requests[b])
    modifies requests, table, drafts
    ensures var m := old(MemOf(requests, table, drafts));
      MemOf(requests, table, drafts) == Store(m, b, RunStages(k, Load(k, m, b)))
  {
    ghost var m0 := MemOf(requests, table, drafts);
    ghost var l0, l1, l2, l3, l4 := StageValues(k, Load(k, m0, b));
    LoadSized(k, m0, b);
    StoreSame(k, m0, b);
    Chain(k, m0, m0, b, l0, l1);
    PrefillCode(k, requests, b, table, drafts);
    Chain(k, m0, MemOf(requests, table, drafts), b, l1, l2);
    SelectCode(k, requests, b, table, drafts);
    Chain(k, m0, MemOf(requests, table, drafts), b, l2, l3);
    DecodeCode(k, requests, b, table, drafts);
    Chain(k, m0, MemOf(requests, table, drafts), b, l3, l4);
    VerifyCode(k, requests, b, table, drafts);
    Chain(k, m0, MemOf(requests, table, drafts), b, l4, DoCommit(k, l4));
    CommitCode(k, requests, b, table, drafts);
  }

  lemma StoreSame(k: Launch, m: Memory, b: nat)
    requires b < |m.requests|
    ensures Store(m, b, Load(k, m, b)) == m
  {
    var r := m.requests[b];
    SpliceBack(m.pages, r.kvOffset, Max(r.kvPages, 0));
    SpliceBack(m.drafts, r.draftOffset, k.region);
    SpliceBack(m.drafts, r.draftOffset, 0);
    assert m.requests[b := r] == m.requests;
  }

  predicate CommitSafe(l: Local) { l.req.state == CommitReady ==> l.req.acceptedPrefix >= 0 }

  /** The block's values from stage to stage. */
  lemma StageValues(k: Launch, l: Local) returns (l0: Local, l1: Local, l2: Local, l3: Local, l4: Local)
    requires k.pageSize >= 1 && Sized(k, l) && Settled(k, l.req) && CommitSafe(l)
    ensures l0 == l && l1 == DoPrefill(l0) && l2 == DoSelect(l1) && l3 == DoDecode(k, l2) && l4 == DoVerify(k, l3)
    ensures KeepsPlace(k, l0, l1) && KeepsPlace(k, l1, l2) && KeepsPlace(k, l2, l3) && KeepsPlace(k, l3, l4)
    ensures KeepsPlace(k, l4, DoCommit(k, l4))
    ensures CommitSafe(l1) && CommitSafe(l2) && CommitSafe(l3) && CommitSafe(l4)
  {
    l0, l1 := l, DoPrefill(l);
    l2 := DoSelect(l1);
    l3 := DoDecode(k, l2);
    l4 := DoVerify(k, l3);
    StagesKeepPlace(k, l);
  }

  lemma InitIsSplice(k: Launch, m: Memory, b: nat)
    requires b < |m.requests|
    ensures Store(m, b, InitBlock(k, Load(k, m, b)))
         == m.(requests := m.requests[b := m.requests[b].(ema := 0.80, blockSize := StartBlock(k))])
  {
    var r := m.requests[b];
    SpliceBack(m.pages, r.kvOffset, Max(r.kvPages, 0));
    SpliceBack(m.drafts, r.draftOffset, if k.hasDrafts then k.region else 0);
    SpliceBack(m.drafts, r.draftOffset, 0);
  }

  /** One iteration of the loop, up to the counting. */
  method IterationCode(k: Launch, requests: array<Descriptor>, b: nat, table: array<PageEntry>, drafts: array?<int>,
                       first: bool)
    requires k.hasDrafts == (drafts != null) && k.pageSize >= 1 && b < requests.Length
    requires Laid(k, MemOf(requests, table, drafts)) && CommitSafe(Load(k, MemOf(requests, table, drafts), b))
    requires if first then DraftsFit(k, requests[b]) else Settled(k, requests[b])
    modifies requests, table, drafts
    ensures var m := old(MemOf(requests, table, drafts));
      MemOf(requests, table, drafts) == Store(m, b, Body(k, Load(k, m, b), first))
  {
    ghost var m := MemOf(requests, table, drafts);
    ghost var l := Load(k, m, b);
    assert Sized(k, l);
    StoreSame(k, m, b);
    if first {
      InitIsSplice(k, m, b);
      StoreIsPrivate(k, m, b, InitBlock(k, l));
      requests[b] := requests[b].(ema := 0.80, blockSize := if k.initialBlock > 0 then k.initialBlock else 4);
    }
    ghost var start := if first then InitBlock(k, l) else l;
    assert MemOf(requests, table, drafts) == Store(m, b, start);
    if !requests[b].IsDone() {
      StagesCode(k, requests, b, table, drafts);
      StoreTwice(k, m, b, start, RunStages(k, start)) by {
        BodyKeepsPlace(k, l, first);
      }
    }
  }

  /** The device memory holds the request at `n` iterations of its own run, and nothing else has moved. */
  ghost predicate AtIteration(k: Launch, m: Memory, now: Memory, n: nat)
    requires k.pageSize >= 1 && |m.requests| == 1
  {
    now == Store(m, 0, Iterations(k, Load(k, m, 0), n))
  }

  lemma AtIterationView(k: Launch, m: Memory, now: Memory, n: nat)
    requires |m.requests| == 1 && Separated(k, m) && AtIteration(k, m, now, n)
    ensures |now.requests| == 1 && Laid(k, now) && Load(k, now, 0) == Iterations(k, Load(k, m, 0), n)
    ensures n > 0 ==> Settled(k, now.requests[0])
  {
    assert Sized(k, Load(k, m, 0));
    IterationsKeepPlace(k, Load(k, m, 0), n);
    StoreIsPrivate(k, m, 0, Iterations(k, Load(k, m, 0), n));
  }

  lemma NextStore(k: Launch, m: Memory, now: Memory, v: Local, w: Local)
    requires |m.requests| == 1 && Laid(k, m) && Sized(k, v) && SamePlace(m.requests[0], v.req) && now == Store(m, 0, v)
    requires Sized(k, w) && SamePlace(m.requests[0], w.req)
    ensures |now.requests| == 1 && Store(now, 0, w) == Store(m, 0, w)
  {
    StoreTwice(k, m, 0, v, w);
  }

  /** Two consecutive values of the block's own run. */
  lemma IterationPair(k: Launch, l: Local, n: nat) returns (v: Local, w: Local)
    requires k.pageSize >= 1 && Sized(k, l) && DraftsFit(k, l.req)
    ensures v == Iterations(k, l, n) && w == Iterations(k, l, n + 1) && w == Body(k, v, n == 0)
    ensures Stays(k, l.req, v) && Stays(k, l.req, w)
  {
    v := IterationValue(k, l, n);
    w := IterationValue(k, l, n + 1);
    IterationIs(k, l, n + 1);
  }

  lemma IterationValue(k: Launch, l: Local, n: nat) returns (v: Local)
    requires k.pageSize >= 1 && Sized(k, l) && DraftsFit(k, l.req)
    ensures v == Iterations(k, l, n) && Stays(k, l.req, v)
  {
    v := Iterations(k, l, n);
    IterationsKeepPlace(k, l, n);
  }

  lemma AtNextIteration(k: Launch, m: Memory, now: Memory, n: nat)
    requires |m.requests| == 1 && Separated(k, m) && AtIteration(k, m, now, n)
    ensures |now.requests| == 1 && AtIteration(k, m, Store(now, 0, Body(k, Load(k, now, 0), n == 0)), n + 1)
  {
    var l := Load(k, m, 0);
    assert Sized(k, l);
    var v, w := IterationPair(k, l, n);
    NextStore(k, m, now, v, w);
    assert Load(k, now, 0) == v by {
      StoreIsPrivate(k, m, 0, v);
    }
  }

  /** One turn of the loop of a lone block: the body, the count, and the poll. */
  method AloneTurn(k: Launch, requests: array<Descriptor>, table: array<PageEntry>, drafts: array?<int>,
                   shutdownFlag: array<int>, doneCounter: array<int>, iteration: nat, alreadyCounted: bool,
                   ghost m: Memory)
    returns (counted: bool)
    requires requests.Length == shutdownFlag.Length == doneCounter.Length == |m.requests| == 1
    requires shutdownFlag != doneCounter && shutdownFlag != drafts && doneCounter != drafts
    requires k.hasDrafts == (drafts != null) && Launched(k, m)
    requires AtIteration(k, m, MemOf(requests, table, drafts), iteration)
    requires !alreadyCounted && shutdownFlag[0] == 0 && doneCounter[0] == 0
    modifies requests, table, drafts, shutdownFlag, doneCounter
    ensures AtIteration(k, m, MemOf(requests, table, drafts), iteration + 1)
    ensures counted == requests[0].IsDone() && doneCounter[0] == shutdownFlag[0] == if counted then 1 else 0
  {
    ghost var now := MemOf(requests, table, drafts);
    AtIterationView(k, m, now, iteration);
    AtNextIteration(k, m, now, iteration);
    IterationsCommitSafe(k, Load(k, m, 0), iteration) by { assert ReadyRequest(m.requests[0]); }
    IterationCode(k, requests, 0, table, drafts, iteration == 0);
    counted := alreadyCounted;
    if !alreadyCounted && requests[0].IsDone() {
      doneCounter[0] := doneCounter[0] + 1;
      counted := true;
    }
    if doneCounter[0] >= 1 {
      shutdownFlag[0] := 1;
    }
  }

  /** The loop of a lone block. */
  method AloneLoop(k: Launch, requests: array<Descriptor>, table: array<PageEntry>, drafts: array?<int>,
                   shutdownFlag: array<int>, doneCounter: array<int>, ghost m: Memory)
    returns (iteration: nat)
    requires requests.Length == shutdownFlag.Length == doneCounter.Length == |m.requests| == 1
    requires shutdownFlag != doneCounter && shutdownFlag != drafts && doneCounter != drafts
    requires shutdownFlag[0] == 0 && doneCounter[0] == 0
    requires k.hasDrafts == (drafts != null) && Launched(k, m) && AtIteration(k, m, MemOf(requests, table, drafts), 0)
    modifies requests, table, drafts, shutdownFlag, doneCounter
    ensures iteration <= k.maxIterations && AtIteration(k, m, MemOf(requests, table, drafts), iteration)
    ensures iteration < k.maxIterations ==> iteration > 0 && requests[0].IsDone()
    ensures iteration > 0 ==> doneCounter[0] == shutdownFlag[0] == if requests[0].IsDone() then 1 else 0
  {
    var alreadyCounted := false;
    iteration := 0;
    while shutdownFlag[0] == 0 && iteration < k.maxIterations
      invariant 0 <= iteration <= k.maxIterations && AtIteration(k, m, MemOf(requests, table, drafts), iteration)
      invariant if iteration > 0 then alreadyCounted == requests[0].IsDone() else !alreadyCounted
      invariant doneCounter[0] == shutdownFlag[0] == if alreadyCounted then 1 else 0
    {
      alreadyCounted := AloneTurn(k, requests, table, drafts, shutdownFlag, doneCounter, iteration, alreadyCounted, m);
      iteration := iteration + 1;
    }
  }

  /** The whole kernel for a launch with one request: it ends counted, the flag up, at the result of its own run. */
  method KernelAlone(k: Launch, requests: array<Descriptor>, table: array<PageEntry>, drafts: array?<int>,
                     shutdownFlag: array<int>, doneCounter: array<int>)
    requires requests.Length == shutdownFlag.Length == doneCounter.Length == 1
    requires shutdownFlag != doneCounter && shutdownFlag != drafts && doneCounter != drafts
    requires shutdownFlag[0] == 0 && doneCounter[0] == 0
    requires k.hasDrafts == (drafts != null) && Launched(k, MemOf(requests, table, drafts))
    modifies requests, table, drafts, shutdownFlag, doneCounter
    ensures var m := old(MemOf(requests, table, drafts));
      MemOf(requests, table, drafts) == Store(m, 0, SoloRun(k, Load(k, m, 0)))
    ensures requests[0].IsDone() && shutdownFlag[0] == 1 && doneCounter[0] == 1
  {
    ghost var m := MemOf(requests, table, drafts);
    StoreSame(k, m, 0);
    var iteration := AloneLoop(k, requests, table, drafts, shutdownFlag, doneCounter, m);
    assert k.maxIterations >= 1 by { assert ReadyRequest(m.requests[0]); }
    AloneEnds(k, m, MemOf(requests, table, drafts), iteration);
  }

  /** The loop ends at the result of the full run. */
  lemma AloneEnds(k: Launch, m: Memory, now: Memory, n: nat)
    requires |m.requests| == 1 && Launched(k, m) && 1 <= n <= k.maxIterations && AtIteration(k, m, now, n)
    ensures |now.requests| == 1
    ensures now.requests[0].IsDone() || n == k.maxIterations ==>
      now.requests[0].IsDone() && now == Store(m, 0, SoloRun(k, Load(k, m, 0)))
  {
    var l := Load(k, m, 0);
    assert ReadyRequest(m.requests[0]) && Sized(k, l);
    AtIterationView(k, m, now, n);
    SoloRunCompletes(k, l);
    if now.requests[0].IsDone() {
      DoneIsFinal(k, l, n, k.maxIterations);
    }
  }

  lemma IterationsCommitSafe(k: Launch, l: Local, n: nat)
    requires k.pageSize >= 1 && ReadyRequest(l.req)
    ensures CommitSafe(Iterations(k, l, n))
  {
    if n > 0 {
      IterationsProgress(k, l, n);
    }
  }
}
