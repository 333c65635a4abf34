/** Selecting a request's best pages and gathering their payloads into a compact row. */
module SparseGather {
  import opened Arithmetic
  import opened Sequences
  import opened DeviceTypes
  import opened SparseSelect

  datatype GatherMetrics = GatherMetrics(requestId: int, examined: nat, selected: nat, bytesRead: int, bytesSaved: int)

  /** The positions gathered: the best pages, as many as are asked for and fit the row. */
  function Kept(r: Descriptor, s: seq<PageEntry>, topK: int, rowSize: nat): seq<int> {
    Take(Ranked(r, s), Min(topK, rowSize))
  }

  /** The output row: page ids in rank order, then -1. */
  function GatherRow(r: Descriptor, s: seq<PageEntry>, topK: int, rowSize: nat): (row: seq<int>)
    ensures |row| == rowSize
  {
    RankedFacts(r, s);
    TakeMember(Ranked(r, s), Min(topK, rowSize));
    var kept := Kept(r, s, topK, rowSize);
    assert forall j :: 0 <= j < |kept| ==> kept[j] in kept;
    seq(rowSize, j requires 0 <= j < rowSize => if j < |kept| then s[kept[j]].pageId else -1)
  }

  /** The `j`-th slot of `n` integers from `off` on. */
  function Slot(c: seq<int>, off: int, n: int, j: int): seq<int> { Slice(c, off + j * n, n) }

  function Top(r: Descriptor, rowSize: nat): int { if r.blockSize > 0 then r.blockSize else rowSize }

  /** A page is gathered exactly when its mark says so, into the slot of its rank. */
  lemma GatherTest(r: Descriptor, s: seq<PageEntry>, topK: int, rowSize: nat, i: int)
    requires 0 <= i < |s|
    ensures var e, kept := SelectPages(r, s, topK)[i], Kept(r, s, topK, rowSize);
      && (Eligible(r, e) <==> Eligible(r, s[i])) && e.pageId == s[i].pageId
      && (e.selected && e.sparseRank < rowSize ==> 0 <= e.sparseRank < |kept| && kept[e.sparseRank] == i)
      && (i in kept ==> Eligible(r, s[i]) && e.selected && 0 <= e.sparseRank < rowSize)
  {
    var chosen, kept := Take(Ranked(r, s), topK), Kept(r, s, topK, rowSize);
    RankedFacts(r, s);
    SelectedAreTheBest(r, s, topK, i, i);
    assert kept == Take(chosen, rowSize);
    TakeMember(Ranked(r, s), Min(topK, rowSize));
    if i in kept {
      var j :| 0 <= j < |kept| && kept[j] == i;
      assert chosen[j] == i && chosen[IndexOf(chosen, i)] == i;
      assert Ranked(r, s)[j] == i && Ranked(r, s)[IndexOf(chosen, i)] == i;
    }
  }

  method CopyPage(dst: array<int>, dstBase: int, src: array<int>, srcBase: int, n: int)
    requires dst != src && n >= 0
    requires 0 <= dstBase && dstBase + n <= dst.Length && 0 <= srcBase && srcBase + n <= src.Length
    modifies dst
    ensures dst[..] == old(dst[..])[..dstBase] + src[srcBase..srcBase + n] + old(dst[..])[dstBase + n..]
  {
    for j := 0 to n
      invariant forall k :: 0 <= k < dst.Length ==>
        dst[k] == if dstBase <= k < dstBase + j then src[srcBase + k - dstBase] else old(dst[k])
    {
      dst[dstBase + j] := src[srcBase + j];
    }
  }

  /** The slot arithmetic: slots lie side by side in the row. */
  lemma SlotBounds(off: int, n: int, j: int, rows: int)
    requires 0 <= j < rows && n >= 0
    ensures off <= off + j * n && off + j * n + n <= off + rows * n
  {
    MulLe(0, j, n);
    MulLe(j + 1, rows, n);
    MulStep(j, n);
  }

  /** Writing one slot changes that slot and no other. */
  lemma SlotWritten(c: seq<int>, d: seq<int>, off: int, n: int, rows: int, k: int, v: seq<int>)
    requires n >= 0 && 0 <= k < rows && 0 <= off && off + rows * n <= |c| && |v| == n
    requires 0 <= off + k * n && off + k * n + n <= |c|
    requires d == c[..off + k * n] + v + c[off + k * n + n..]
    ensures Slot(d, off, n, k) == v
    ensures forall j :: 0 <= j < rows && j != k ==> Slot(d, off, n, j) == Slot(c, off, n, j)
    ensures |d| == |c| && d[..off] == c[..off] && d[off + rows * n..] == c[off + rows * n..]
  {
    SlotBounds(off, n, k, rows);
    forall j | 0 <= j < rows && j != k ensures Slot(d, off, n, j) == Slot(c, off, n, j) {
      SlotBounds(off, n, j, rows);
      if j < k { SlotBounds(off, n, j, k); } else { SlotBounds(off, n, k, j); }
    }
  }

  /** The row after the positions below `i` have been scanned. */
  ghost predicate RowDone(row: seq<int>, s: seq<PageEntry>, kept: seq<int>, i: int) {
    forall j :: 0 <= j < |row| ==>
      row[j] == if j < |kept| && 0 <= kept[j] < |s| && kept[j] < i then s[kept[j]].pageId else -1
  }

  /** The compacted slots after the positions below `i` have been scanned; the rest of the buffer is as in `c0`. */
  ghost predicate SlotsDone(c: seq<int>, c0: seq<int>, off: int, n: int, rows: nat, p: seq<int>,
                            s: seq<PageEntry>, kept: seq<int>, i: int)
  {
    && |c| == |c0|
    && (forall j :: 0 <= j < rows ==>
          Slot(c, off, n, j) == if j < |kept| && 0 <= kept[j] < |s| && kept[j] < i
                                then Slice(p, s[kept[j]].pageId * n, n) else Slot(c0, off, n, j))
    && (0 <= off <= off + rows * n <= |c| ==> c[..off] == c0[..off] && c[off + rows * n..] == c0[off + rows * n..])
  }

  /** Positions below `i` in a set. */
  function Below(d: set<int>, i: nat): seq<int> { Within(Range(0, i), d) }

  lemma BelowNext(d: set<int>, i: nat)
    ensures Below(d, i + 1) == if i in d then Below(d, i) + [i] else Below(d, i)
  {
    assert Range(0, i + 1) == Range(0, i) + [i];
    WithinSnoc(Range(0, i), i, d);
  }

  /** The request's pages in the table: its range, cut at the end of the table. */
  function OwnPages(r: Descriptor, table: seq<PageEntry>): seq<PageEntry> {
    if r.kvPages <= 0 || r.kvOffset < 0 || r.kvOffset >= |table| then []
    else table[r.kvOffset..Min(r.kvOffset + r.kvPages, |table|)]
  }

  /** Pages outside the request's range are as before. */
  ghost predicate OthersUntouched(r: Descriptor, before: seq<PageEntry>, after: seq<PageEntry>) {
    && |after| == |before|
    && forall i :: 0 <= i < |before| && !(r.kvOffset <= i < r.kvOffset + r.kvPages) ==> after[i] == before[i]
  }

  lemma OutsideIsOthers(r: Descriptor, before: seq<PageEntry>, after: seq<PageEntry>, lo: nat, hi: nat)
    requires |after| == |before| && lo <= hi <= |before|
    requires lo == r.kvOffset && hi == Min(r.kvOffset + r.kvPages, |before|)
    requires after[..lo] == before[..lo] && after[hi..] == before[hi..]
    ensures OthersUntouched(r, before, after)
  {
    assert forall i :: 0 <= i < lo ==> after[..lo][i] == after[i] && before[..lo][i] == before[i];
    assert forall i :: hi <= i < |after| ==> after[hi..][i - hi] == after[i] && before[hi..][i - hi] == before[i];
  }

  ghost predicate PayloadsFit(s: seq<PageEntry>, n: int, size: int) {
    forall i :: 0 <= i < |s| ==> 0 <= s[i].pageId * n && s[i].pageId * n + n <= size
  }

  lemma KeptInside(r: Descriptor, s: seq<PageEntry>, topK: int, rowSize: nat)
    ensures var kept := Kept(r, s, topK, rowSize);
      && |kept| == Max(0, Min(Min(topK, rowSize), |EligibleIn(r, s)|)) && NoDup(kept)
      && (forall j :: 0 <= j < |kept| ==> 0 <= kept[j] < |s| && Eligible(r, s[kept[j]]))
  {
    RankedFacts(r, s);
    TakeMember(Ranked(r, s), Min(topK, rowSize));
    var kept := Kept(r, s, topK, rowSize);
    forall j | 0 <= j < |kept| ensures 0 <= kept[j] < |s| && Eligible(r, s[kept[j]]) {
      assert kept[j] in kept;
    }
  }

  /** Writing the kept position `i` into the row. */
  lemma RowStep(row: seq<int>, s: seq<PageEntry>, kept: seq<int>, i: nat, k: nat)
    requires NoDup(kept) && forall j :: 0 <= j < |kept| ==> 0 <= kept[j] < |s|
    requires RowDone(row, s, kept, i) && k < |kept| <= |row| && kept[k] == i
    ensures RowDone(row[k := s[i].pageId], s, kept, i + 1)
  {}

  lemma SlotsStep(c: seq<int>, d: seq<int>, c0: seq<int>, off: int, n: int, rows: nat, p: seq<int>,
                  s: seq<PageEntry>, kept: seq<int>, i: nat, k: nat)
    requires NoDup(kept) && forall j :: 0 <= j < |kept| ==> 0 <= kept[j] < |s|
    requires SlotsDone(c, c0, off, n, rows, p, s, kept, i) && k < |kept| <= rows && kept[k] == i
    requires n >= 0 && 0 <= off && off + rows * n <= |c|
    requires 0 <= off + k * n && off + k * n + n <= |c| && 0 <= s[i].pageId * n && s[i].pageId * n + n <= |p|
    requires d == c[..off + k * n] + p[s[i].pageId * n..s[i].pageId * n + n] + c[off + k * n + n..]
    ensures SlotsDone(d, c0, off, n, rows, p, s, kept, i + 1)
  {
    SlotBounds(off, n, k, rows);
    SlotWritten(c, d, off, n, rows, k, p[s[i].pageId * n..s[i].pageId * n + n]);
  }

  /** Positions outside `kept` change nothing. */
  lemma SkipStep(row: seq<int>, c: seq<int>, c0: seq<int>, off: int, n: int, rows: nat, p: seq<int>,
                 s: seq<PageEntry>, kept: seq<int>, i: nat)
    requires (forall j :: 0 <= j < |kept| ==> 0 <= kept[j] < |s|) && i !in kept
    ensures RowDone(row, s, kept, i) ==> RowDone(row, s, kept, i + 1)
    ensures SlotsDone(c, c0, off, n, rows, p, s, kept, i) ==> SlotsDone(c, c0, off, n, rows, p, s, kept, i + 1)
  {}

  method ClearRow(ids: array<int>, base: nat, rowSize: nat)
    requires base + rowSize <= ids.Length
    modifies ids
    ensures ids[..] == old(ids[..])[..base] + seq(rowSize, i => -1) + old(ids[..])[base + rowSize..]
  {
    for i := 0 to rowSize
      invariant forall k :: 0 <= k < ids.Length ==> ids[k] == if base <= k < base + i then -1 else old(ids[k])
    {
      ids[base + i] := -1;
    }
  }

  /** The marks in `t` tell exactly which positions of `s` are kept, and at which rank. */
  ghost predicate TellsKept(r: Descriptor, s: seq<PageEntry>, t: seq<PageEntry>, kept: seq<int>, rowSize: nat, i: int) {
    0 <= i < |s| == |t| ==>
      && (Eligible(r, t[i]) <==> Eligible(r, s[i])) && t[i].pageId == s[i].pageId
      && (t[i].selected && 0 <= t[i].sparseRank < rowSize ==> t[i].sparseRank < |kept| && kept[t[i].sparseRank] == i)
      && (i in kept ==> Eligible(r, s[i]) && t[i].selected && 0 <= t[i].sparseRank < rowSize)
  }

  ghost predicate KeptOk(s: seq<PageEntry>, kept: seq<int>, rowSize: nat) {
    NoDup(kept) && |kept| <= rowSize && forall j :: 0 <= j < |kept| ==> 0 <= kept[j] < |s|
  }

  /** A kept page is written to its place in the row and its payload copied. */
  method StorePage(pageId: int, rank: nat, payloads: array<int>, ipp: nat, base: nat, rowSize: nat, ids: array<int>,
                   off: nat, compacted: array<int>,
                   ghost s: seq<PageEntry>, ghost kept: seq<int>, ghost i: nat, ghost c0: seq<int>)
    requires ids != payloads && compacted != payloads && ids != compacted
    requires base + rowSize <= ids.Length && off + rowSize * ipp <= compacted.Length
    requires i < |s| && KeptOk(s, kept, rowSize) && PayloadsFit(s, ipp, payloads.Length)
    requires rank < |kept| && kept[rank] == i && pageId == s[i].pageId
    requires RowDone(ids[base..base + rowSize], s, kept, i)
    requires SlotsDone(compacted[..], c0, off, ipp, rowSize, payloads[..], s, kept, i)
    modifies ids, compacted
    ensures RowDone(ids[base..base + rowSize], s, kept, i + 1)
    ensures SlotsDone(compacted[..], c0, off, ipp, rowSize, payloads[..], s, kept, i + 1)
    ensures ids[..base] == old(ids[..base]) && ids[base + rowSize..] == old(ids[base + rowSize..])
  {
    ghost var row, c := ids[base..base + rowSize], compacted[..];
    RowStep(row, s, kept, i, rank);
    SlotBounds(off, ipp, rank, rowSize);
    ids[base + rank] := pageId;
    assert ids[base..base + rowSize] == row[rank := pageId];
    CopyPage(compacted, off + rank * ipp, payloads, pageId * ipp, ipp);
    SlotsStep(c, compacted[..], c0, off, ipp, rowSize, payloads[..], s, kept, i, rank);
  }

  /** The gathering loop over the pages `t` marked for `kept`. */
  method GatherPages(r: Descriptor, table: array<PageEntry>, lo: nat, hi: nat, payloads: array<int>, ipp: nat,
                     base: nat, rowSize: nat, ids: array<int>, off: nat, compacted: array<int>,
                     ghost s: seq<PageEntry>, ghost kept: seq<int>)
    returns (examined: nat, selected: nat)
    requires lo <= hi <= table.Length && |s| == hi - lo
    requires ids != payloads && compacted != payloads && ids != compacted
    requires base + rowSize <= ids.Length && off + rowSize * ipp <= compacted.Length
    requires KeptOk(s, kept, rowSize) && PayloadsFit(s, ipp, payloads.Length)
    requires forall i :: TellsKept(r, s, table[lo..hi], kept, rowSize, i)
    requires RowDone(ids[base..base + rowSize], s, kept, 0)
    modifies ids, compacted
    ensures RowDone(ids[base..base + rowSize], s, kept, |s|)
    ensures SlotsDone(compacted[..], old(compacted[..]), off, ipp, rowSize, payloads[..], s, kept, |s|)
    ensures ids[..base] == old(ids[..base]) && ids[base + rowSize..] == old(ids[base + rowSize..])
    ensures examined == |Below(EligibleSet(r, s), |s|)| && selected == |Below(Elems(kept), |s|)|
  {
    examined, selected := 0, 0;
    for idx := lo to hi
      invariant RowDone(ids[base..base + rowSize], s, kept, idx - lo)
      invariant SlotsDone(compacted[..], old(compacted[..]), off, ipp, rowSize, payloads[..], s, kept, idx - lo)
      invariant ids[..base] == old(ids[..base]) && ids[base + rowSize..] == old(ids[base + rowSize..])
      invariant examined == |Below(EligibleSet(r, s), idx - lo)| && selected == |Below(Elems(kept), idx - lo)|
    {
      var e := table[idx];
      ghost var i := idx - lo;
      assert e == table[lo..hi][i] && TellsKept(r, s, table[lo..hi], kept, rowSize, i);
      BelowNext(EligibleSet(r, s), i);
      BelowNext(Elems(kept), i);
      if i !in kept {
        SkipStep(ids[base..base + rowSize], compacted[..], old(compacted[..]), off, ipp, rowSize, payloads[..], s,
                 kept, i);
      }
      if e.requestId != r.requestId { continue; }
      if !(Resident in e.flags) || Draft in e.flags { continue; }
      examined := examined + 1;
      if !e.selected || e.sparseRank < 0 || e.sparseRank >= rowSize { continue; }
      assert kept[e.sparseRank] == i && i in kept;
      StorePage(e.pageId, e.sparseRank, payloads, ipp, base, rowSize, ids, off, compacted, s, kept, i,
                old(compacted[..]));
      selected := selected + 1;
    }
  }

  lemma MarksTell(r: Descriptor, s: seq<PageEntry>, topK: int, rowSize: nat)
    ensures var kept := Kept(r, s, topK, rowSize);
      KeptOk(s, kept, rowSize) && forall i :: TellsKept(r, s, SelectPages(r, s, topK), kept, rowSize, i)
  {
    KeptInside(r, s, topK, rowSize);
    forall i ensures TellsKept(r, s, SelectPages(r, s, topK), Kept(r, s, topK, rowSize), rowSize, i) {
      if 0 <= i < |s| {
        GatherTest(r, s, topK, rowSize, i);
      }
    }
  }

  /** The counters and the row once every position has been scanned. */
  lemma AllScanned(r: Descriptor, s: seq<PageEntry>, topK: int, rowSize: nat, row: seq<int>)
    requires |row| == rowSize && RowDone(row, s, Kept(r, s, topK, rowSize), |s|)
    ensures row == GatherRow(r, s, topK, rowSize)
    ensures |Below(EligibleSet(r, s), |s|)| == |EligibleIn(r, s)|
    ensures |Below(Elems(Kept(r, s, topK, rowSize)), |s|)| == |Kept(r, s, topK, rowSize)|
  {
    var kept := Kept(r, s, topK, rowSize);
    KeptInside(r, s, topK, rowSize);
    var low := Below(Elems(kept), |s|);
    WithinMember(Range(0, |s|), Elems(kept));
    WithinNoDup(Range(0, |s|), Elems(kept));
    forall x ensures x in low <==> x in kept {
      RangeMember(0, |s|, x);
    }
    SameElementsSameLength(low, kept);
  }

  /** Selection and gathering over a request's pages, into a cleared row. */
  method GatherRange(r: Descriptor, table: array<PageEntry>, topK: int, payloads: array<int>, ipp: nat,
                     base: nat, rowSize: nat, ids: array<int>, off: nat, compacted: array<int>, ghost s: seq<PageEntry>)
    returns (examined: nat, selected: nat)
    requires ids != payloads && compacted != payloads && ids != compacted
    requires r.kvPages > 0 && 0 <= r.kvOffset < table.Length && s == OwnPages(r, table[..])
    requires base + rowSize <= ids.Length && off + rowSize * ipp <= compacted.Length
    requires PayloadsFit(s, ipp, payloads.Length)
    requires RowDone(ids[base..base + rowSize], s, Kept(r, s, topK, rowSize), 0)
    modifies table, ids, compacted
    ensures OwnPages(r, table[..]) == SelectPages(r, s, topK)
    ensures OthersUntouched(r, old(table[..]), table[..])
    ensures ids[base..base + rowSize] == GatherRow(r, s, topK, rowSize)
    ensures SlotsDone(compacted[..], old(compacted[..]), off, ipp, rowSize, payloads[..], s,
                      Kept(r, s, topK, rowSize), |s|)
    ensures examined == |EligibleIn(r, s)| && selected == |Kept(r, s, topK, rowSize)|
    ensures ids[..base] == old(ids[..base]) && ids[base + rowSize..] == old(ids[base + rowSize..])
  {
    var lo, hi := r.kvOffset, Min(r.kvOffset + r.kvPages, table.Length);
    assert s == table[lo..hi];
    assert table[..][..lo] == table[..lo] && table[..][hi..] == table[hi..];
    SelectSparseBlocks(r, table, topK);
    assert table[..][..lo] == table[..lo] && table[..][hi..] == table[hi..];
    OutsideIsOthers(r, old(table[..]), table[..], lo, hi);
    ghost var t := table[lo..hi];
    assert t == SelectPages(r, s, topK) && OwnPages(r, table[..]) == t;
    MarksTell(r, s, topK, rowSize);
    ghost var kept := Kept(r, s, topK, rowSize);
    examined, selected := GatherPages(r, table, lo, hi, payloads, ipp, base, rowSize, ids, off, compacted, s, kept);
    AllScanned(r, s, topK, rowSize, ids[base..base + rowSize]);
  }

  function Summary(rid: int, examined: nat, selected: nat, pageBytes: int): (m: GatherMetrics)
    ensures m.bytesRead + m.bytesSaved == examined * pageBytes
  {
    Distribute(pageBytes, examined, selected);
    GatherMetrics(rid, examined, selected, selected * pageBytes, (examined - selected) * pageBytes)
  }

  /** The gather for one request whose row and slots start at `base` and `off`. */
  method GatherRequest(r: Descriptor, table: array<PageEntry>, payloads: array<int>, ipp: nat,
                       base: nat, rowSize: nat, ids: array<int>, off: nat, compacted: array<int>)
    returns (metric: GatherMetrics)
    requires ids != payloads && compacted != payloads && ids != compacted
    requires r.kvPages > 0 ==> 0 <= r.kvOffset
    requires base + rowSize <= ids.Length && off + rowSize * ipp <= compacted.Length
    requires PayloadsFit(OwnPages(r, table[..]), ipp, payloads.Length)
    modifies table, ids, compacted
    ensures var s, topK := old(OwnPages(r, table[..])), Top(r, rowSize);
      && OwnPages(r, table[..]) == (if s == [] then [] else SelectPages(r, s, topK))
      && ids[base..base + rowSize] == GatherRow(r, s, topK, rowSize)
      && SlotsDone(compacted[..], old(compacted[..]), off, ipp, rowSize, payloads[..], s, Kept(r, s, topK, rowSize),
                   |s|)
      && metric.examined == |EligibleIn(r, s)| && metric.selected == |Kept(r, s, topK, rowSize)|
    ensures ids[..base] == old(ids[..base]) && ids[base + rowSize..] == old(ids[base + rowSize..])
    ensures metric == Summary(r.requestId, metric.examined, metric.selected, ipp * 4)
    ensures OthersUntouched(r, old(table[..]), table[..])
  {
    ghost var s := OwnPages(r, table[..]);
    ClearRow(ids, base, rowSize);
    metric := Summary(r.requestId, 0, 0, ipp * 4);
    var topK := if r.blockSize > 0 then r.blockSize else rowSize;
    KeptInside(r, s, topK, rowSize);
    if r.kvPages <= 0 || r.kvOffset >= table.Length {
      AllScanned(r, s, topK, rowSize, ids[base..base + rowSize]);
      return;
    }
    var examined, selected := GatherRange(r, table, topK, payloads, ipp, base, rowSize, ids, off, compacted, s);
    metric := Summary(r.requestId, examined, selected, ipp * 4);
  }

  /** `sparse_kv_gather_and_score_kernel`: block `b` works on its own row. */
  method GatherKernel(requests: array<Descriptor>, b: nat, table: array<PageEntry>, payloads: array<int>, ipp: nat,
                      rowSize: nat, ids: array<int>, compacted: array<int>, metrics: array<GatherMetrics>)
    requires ids != payloads && compacted != payloads && ids != compacted
    requires b < requests.Length <= metrics.Length
    requires requests[b].kvPages > 0 ==> 0 <= requests[b].kvOffset
    requires 0 <= b * rowSize && b * rowSize + rowSize <= ids.Length
    requires 0 <= b * rowSize * ipp && b * rowSize * ipp + rowSize * ipp <= compacted.Length
    requires PayloadsFit(OwnPages(requests[b], table[..]), ipp, payloads.Length)
    modifies table, ids, compacted, metrics
    ensures var r, base, off := old(requests[b]), b * rowSize, b * rowSize * ipp;
      var s, topK := old(OwnPages(r, table[..])), Top(r, rowSize);
      && ids[base..base + rowSize] == GatherRow(r, s, topK, rowSize)
      && ids[..base] == old(ids[..base]) && ids[base + rowSize..] == old(ids[base + rowSize..])
      && SlotsDone(compacted[..], old(compacted[..]), off, ipp, rowSize, payloads[..], s,
                   Kept(r, s, topK, rowSize), |s|)
      && OthersUntouched(r, old(table[..]), table[..])
      && metrics[..] == old(metrics[..])[b := Summary(r.requestId, |EligibleIn(r, s)|, |Kept(r, s, topK, rowSize)|,
                                         ipp * 4)]
  {
    var base, off := b * rowSize, b * rowSize * ipp;
    metrics[b] := GatherRequest(requests[b], table, payloads, ipp, base, rowSize, ids, off, compacted);
  }

  /**
   The row: the first min(top_k, row size, eligible) pages of the stable descending
   sort, then -1; the slot of each listed page holds that page's payload.
   */
  lemma RowIsTopOfSort(r: Descriptor, s: seq<PageEntry>, topK: int, rowSize: nat, c: seq<int>, c0: seq<int>,
                       off: int, n: int, p: seq<int>, j: nat)
    requires j < rowSize
    requires SlotsDone(c, c0, off, n, rowSize, p, s, Kept(r, s, topK, rowSize), |s|)
    ensures var m := Max(0, Min(Min(topK, rowSize), |EligibleIn(r, s)|));
      var row := GatherRow(r, s, topK, rowSize);
      && |Ranked(r, s)| == |EligibleIn(r, s)|
      && (j < m ==> 0 <= Ranked(r, s)[j] < |s| && row[j] == s[Ranked(r, s)[j]].pageId)
      && (j < m ==> Slot(c, off, n, j) == Slice(p, row[j] * n, n))
      && (j >= m ==> row[j] == -1 && Slot(c, off, n, j) == Slot(c0, off, n, j))
  {
    KeptInside(r, s, topK, rowSize);
    RankedFacts(r, s);
    var kept := Kept(r, s, topK, rowSize);
    if j < |kept| {
      assert kept[j] == Ranked(r, s)[j];
    }
  }

  /**
   The bytes reported: four for each payload integer of each page put into the row as
   read, and as many for each eligible page left out as saved.
   */
  lemma BytesReported(r: Descriptor, s: seq<PageEntry>, rowSize: nat, ipp: nat)
    ensures var asked := if r.blockSize > 0 then Min(r.blockSize, rowSize) else rowSize;
      var eligible, kept := |EligibleIn(r, s)|, Kept(r, s, Top(r, rowSize), rowSize);
      var m := Summary(r.requestId, eligible, |kept|, ipp * 4);
      && |kept| == Min(asked, eligible) && NoDup(kept)
      && m.bytesRead == 4 * ipp * Min(asked, eligible) && m.bytesSaved == 4 * ipp * Max(0, eligible - asked)
  {
    KeptInside(r, s, Top(r, rowSize), rowSize);
  }
}
