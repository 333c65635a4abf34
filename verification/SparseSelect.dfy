/**
 Sparse KV selection on the device: repeatedly marking the best page that is left,
 proved to be the first pages of a stable descending sort by score.
 */
module SparseSelect {
  import opened Sequences
  import opened Ranking
  import opened DeviceTypes

  /** `sparse_kv_page_score`. */
  function PageScore(e: PageEntry, step: int): int {
    var distance := e.startToken + e.tokenCount - step;
    e.tokenCount * 10000 - (if distance < 0 then -distance else distance) * 100 - e.layerId
  }

  function DecodeStep(r: Descriptor): int { r.promptLen + r.decodePos }

  /** A resident page of the request that is not a draft. */
  predicate Eligible(r: Descriptor, e: PageEntry) {
    e.requestId == r.requestId && Resident in e.flags && Draft !in e.flags
  }

  function Cleared(r: Descriptor, e: PageEntry): PageEntry {
    ClearSelected(e).(score := PageScore(e, DecodeStep(r)))
  }

  function EligibleSet(r: Descriptor, s: seq<PageEntry>): set<int> {
    set i | 0 <= i < |s| && Eligible(r, s[i])
  }

  /** The eligible positions of a request's pages, in order. */
  function EligibleIn(r: Descriptor, s: seq<PageEntry>): seq<int> {
    Within(Range(0, |s|), EligibleSet(r, s))
  }

  /** Descending score; equal scores keep their order. */
  function ScoreOrder(r: Descriptor, s: seq<PageEntry>): Order {
    (i: int, j: int) =>
      0 <= i < |s| && 0 <= j < |s| &&
      (PageScore(s[i], DecodeStep(r)) > PageScore(s[j], DecodeStep(r))
       || (PageScore(s[i], DecodeStep(r)) == PageScore(s[j], DecodeStep(r)) && i < j))
  }

  /** The eligible positions, stably sorted. */
  function Ranked(r: Descriptor, s: seq<PageEntry>): seq<int> {
    Sort(ScoreOrder(r, s), EligibleIn(r, s))
  }

  lemma EligibleFacts(r: Descriptor, s: seq<PageEntry>)
    ensures forall i :: i in EligibleIn(r, s) <==> 0 <= i < |s| && Eligible(r, s[i])
    ensures NoDup(EligibleIn(r, s)) && TotalOn(ScoreOrder(r, s), EligibleIn(r, s))
  {
    WithinMember(Range(0, |s|), EligibleSet(r, s));
    WithinNoDup(Range(0, |s|), EligibleSet(r, s));
    forall i | 0 <= i < |s| ensures i in Range(0, |s|) {
      RangeMember(0, |s|, i);
    }
  }

  lemma RankedFacts(r: Descriptor, s: seq<PageEntry>)
    ensures NoDup(Ranked(r, s)) && |Ranked(r, s)| == |EligibleIn(r, s)|
    ensures forall i :: i in Ranked(r, s) <==> 0 <= i < |s| && Eligible(r, s[i])
  {
    EligibleFacts(r, s);
    SortMember(ScoreOrder(r, s), EligibleIn(r, s));
    SortSorted(ScoreOrder(r, s), EligibleIn(r, s));
    SortedNoDup(ScoreOrder(r, s), Ranked(r, s));
  }

  /** The position of `x` in `s`, or its length. */
  function IndexOf(s: seq<int>, x: int): (k: nat)
    ensures k <= |s|
    ensures k < |s| ==> s[k] == x
    ensures k == |s| <==> x !in s
  {
    if s == [] then 0
    else if s[0] == x then 0
    else
      assert s == [s[0]] + s[1..];
      1 + IndexOf(s[1..], x)
  }

  lemma {:induction false} IndexOfSnoc(s: seq<int>, x: int, y: int)
    ensures IndexOf(s + [x], y) == if y in s then IndexOf(s, y) else if y == x then |s| else |s| + 1
  {
    if s == [] {
      assert s + [x] == [x];
    } else {
      assert (s + [x])[1..] == s[1..] + [x] && s == [s[0]] + s[1..];
      IndexOfSnoc(s[1..], x, y);
    }
  }

  /** The pages with the positions in `chosen` marked, in rank order. */
  function Marked(r: Descriptor, s: seq<PageEntry>, chosen: seq<int>): (t: seq<PageEntry>)
    ensures |t| == |s|
  {
    seq(|s|, i requires 0 <= i < |s| =>
      if i in chosen
      then MarkSelected(Cleared(r, s[i]), PageScore(s[i], DecodeStep(r)), DecodeStep(r), IndexOf(chosen, i))
      else Cleared(r, s[i]))
  }

  /** `select_sparse_kv_blocks` on the request's own pages. */
  function SelectPages(r: Descriptor, s: seq<PageEntry>, topK: int): (t: seq<PageEntry>)
    ensures |t| == |s|
  {
    Marked(r, s, Take(Ranked(r, s), topK))
  }

  lemma MarkOneMore(r: Descriptor, s: seq<PageEntry>, chosen: seq<int>, x: int)
    requires 0 <= x < |s| && x !in chosen
    ensures Marked(r, s, chosen + [x]) ==
      Marked(r, s, chosen)[x := MarkSelected(Marked(r, s, chosen)[x], PageScore(s[x], DecodeStep(r)), DecodeStep(r),
                           |chosen|)]
  {
    forall i | 0 <= i < |s| ensures IndexOf(chosen + [x], i) == if i == x then |chosen| else IndexOf(chosen + [x], i)
    ensures i in chosen ==> IndexOf(chosen + [x], i) == IndexOf(chosen, i)
    {
      IndexOfSnoc(chosen, x, i);
    }
  }

  /** The best eligible page not yet chosen among the first `n`, or -1. */
  ghost predicate BestOfFirst(r: Descriptor, s: seq<PageEntry>, chosen: seq<int>, n: int, best: int) {
    if best < 0 then forall i :: 0 <= i < n && i < |s| && Eligible(r, s[i]) ==> i in chosen
    else
      && best < |s| && best < n && Eligible(r, s[best]) && best !in chosen
      && forall i :: 0 <= i < n && i < |s| && Eligible(r, s[i]) && i !in chosen && i != best
                     ==> ScoreOrder(r, s)(best, i)
  }

  lemma ChooseNext(r: Descriptor, s: seq<PageEntry>, chosen: seq<int>, best: int)
    requires chosen <= Ranked(r, s) && BestOfFirst(r, s, chosen, |s|, best)
    ensures best >= 0 ==> chosen + [best] <= Ranked(r, s)
    ensures best < 0 ==> chosen == Ranked(r, s)
  {
    EligibleFacts(r, s);
    if best >= 0 {
      NextRanked(ScoreOrder(r, s), EligibleIn(r, s), chosen, best);
    } else {
      AllRanked(ScoreOrder(r, s), EligibleIn(r, s), chosen);
    }
  }

  /** What the marks show of one page. */
  lemma MarkedShows(r: Descriptor, s: seq<PageEntry>, chosen: seq<int>, n: nat)
    requires n < |s|
    ensures var e := Marked(r, s, chosen)[n];
      && e.score == PageScore(s[n], DecodeStep(r)) && (e.selected <==> n in chosen)
      && (Eligible(r, e) <==> Eligible(r, s[n]))
  {}

  /** The search's test of a marked page `e` against the best score so far. */
  predicate Beats(r: Descriptor, e: PageEntry, found: bool, bestScore: int) {
    Eligible(r, e) && !e.selected && (!found || e.score > bestScore)
  }

  /** One candidate compared with the best so far. */
  lemma Consider(r: Descriptor, s: seq<PageEntry>, chosen: seq<int>, n: nat, best: int, bestScore: int)
    requires n < |s| && -1 <= best < n && BestOfFirst(r, s, chosen, n, best)
    requires best >= 0 ==> bestScore == PageScore(s[best], DecodeStep(r))
    ensures var e := Marked(r, s, chosen)[n];
      && BestOfFirst(r, s, chosen, n + 1, if Beats(r, e, best >= 0, bestScore) then n else best)
      && e.score == PageScore(s[n], DecodeStep(r))
  {
    MarkedShows(r, s, chosen, n);
  }

  /** Clears every page of the range and scores it. */
  method ClearAndScore(r: Descriptor, table: array<PageEntry>, lo: nat, hi: nat)
    requires lo <= hi <= table.Length
    modifies table
    ensures table[lo..hi] == Marked(r, old(table[lo..hi]), [])
    ensures table[..lo] == old(table[..lo]) && table[hi..] == old(table[hi..])
  {
    var step := r.promptLen + r.decodePos;
    for idx := lo to hi
      invariant forall j :: 0 <= j < table.Length ==>
        table[j] == if lo <= j < idx then Cleared(r, old(table[j])) else old(table[j])
    {
      var e := table[idx];
      table[idx] := ClearSelected(e).(score := PageScore(ClearSelected(e), step));
    }
  }

  /** The search for the best unselected page. */
  method FindBest(r: Descriptor, table: array<PageEntry>, lo: nat, hi: nat, ghost s: seq<PageEntry>,
                  ghost chosen: seq<int>)
    returns (best: int)
    requires lo <= hi <= table.Length && |s| == hi - lo && table[lo..hi] == Marked(r, s, chosen)
    ensures best >= 0 ==> lo <= best < hi && BestOfFirst(r, s, chosen, |s|, best - lo)
    ensures best < 0 ==> BestOfFirst(r, s, chosen, |s|, -1)
  {
    best := -1;
    var bestScore := 0;
    ghost var at := -1;
    for idx := lo to hi
      invariant best == (if at >= 0 then at + lo else -1) && -1 <= at < idx - lo
      invariant at >= 0 ==> bestScore == PageScore(s[at], DecodeStep(r))
      invariant BestOfFirst(r, s, chosen, idx - lo, at)
    {
      var e := table[idx];
      assert e == table[lo..hi][idx - lo];
      Consider(r, s, chosen, idx - lo, at, bestScore);
      if e.requestId != r.requestId { continue; }
      if !(Resident in e.flags) || Draft in e.flags { continue; }
      if e.selected { continue; }
      if best < 0 || e.score > bestScore {
        best, bestScore, at := idx, e.score, idx - lo;
      }
    }
  }

  /** One store, seen from the range. */
  method SetInRange(table: array<PageEntry>, lo: nat, hi: nat, at: nat, e: PageEntry)
    requires lo <= at < hi <= table.Length
    modifies table
    ensures table[lo..hi] == old(table[lo..hi])[at - lo := e]
    ensures table[..lo] == old(table[..lo]) && table[hi..] == old(table[hi..])
  {
    table[at] := e;
  }

  /** Marks the page found. */
  method MarkBest(r: Descriptor, table: array<PageEntry>, lo: nat, hi: nat, rank: nat, best: nat,
                  ghost s: seq<PageEntry>, ghost chosen: seq<int>)
    requires lo <= best < hi <= table.Length && |s| == hi - lo && table[lo..hi] == Marked(r, s, chosen)
    requires |chosen| == rank && best - lo !in chosen
    modifies table
    ensures table[lo..hi] == Marked(r, s, chosen + [best - lo])
    ensures table[..lo] == old(table[..lo]) && table[hi..] == old(table[hi..])
  {
    assert table[best] == Marked(r, s, chosen)[best - lo];
    MarkedShows(r, s, chosen, best - lo);
    MarkOneMore(r, s, chosen, best - lo);
    SetInRange(table, lo, hi, best, MarkSelected(table[best], table[best].score, r.promptLen + r.decodePos, rank));
  }

  /** One rank: marks the best page that is left, if any. */
  method SelectNext(r: Descriptor, table: array<PageEntry>, lo: nat, hi: nat, rank: nat,
                    ghost s: seq<PageEntry>, ghost chosen: seq<int>)
    returns (found: bool, ghost next: seq<int>)
    requires lo <= hi <= table.Length && |s| == hi - lo && table[lo..hi] == Marked(r, s, chosen)
    requires chosen <= Ranked(r, s) && |chosen| == rank
    modifies table
    ensures next <= Ranked(r, s) && table[lo..hi] == Marked(r, s, next)
    ensures if found then |next| == rank + 1 else next == chosen == Ranked(r, s)
    ensures table[..lo] == old(table[..lo]) && table[hi..] == old(table[hi..])
  {
    var best := FindBest(r, table, lo, hi, s, chosen);
    found, next := best >= 0, chosen;
    ChooseNext(r, s, chosen, if best < 0 then -1 else best - lo);
    if found {
      MarkBest(r, table, lo, hi, rank, best, s, chosen);
      next := chosen + [best - lo];
    }
  }

  /** `select_sparse_kv_blocks`; the range ends at the request's last page or at the end of the table. */
  method SelectSparseBlocks(r: Descriptor, table: array<PageEntry>, topK: int)
    requires r.kvPages > 0 ==> 0 <= r.kvOffset
    modifies table
    ensures r.kvPages <= 0 || r.kvOffset >= table.Length ==> table[..] == old(table[..])
    ensures r.kvPages > 0 && r.kvOffset < table.Length ==>
      var lo, hi := r.kvOffset, Min(r.kvOffset + r.kvPages, table.Length);
      && table[lo..hi] == SelectPages(r, old(table[lo..hi]), topK)
      && table[..lo] == old(table[..lo]) && table[hi..] == old(table[hi..])
  {
    if r.kvPages <= 0 || r.kvOffset >= table.Length {
      return;
    }
    var lo, hi := r.kvOffset, Min(r.kvOffset + r.kvPages, table.Length);
    ghost var s, chosen: seq<int> := table[lo..hi], [];
    ClearAndScore(r, table, lo, hi);
    var clamped := if topK < 0 then 0 else topK;
    var rank, found := 0, true;
    while rank < clamped && found
      invariant 0 <= rank <= clamped && chosen <= Ranked(r, s) && table[lo..hi] == Marked(r, s, chosen)
      invariant if found then |chosen| == rank else |chosen| <= rank && chosen == Ranked(r, s)
      invariant table[..lo] == old(table[..lo]) && table[hi..] == old(table[hi..])
    {
      found, chosen := SelectNext(r, table, lo, hi, rank, s, chosen);
      rank := rank + 1;
    }
    assert chosen == Take(Ranked(r, s), topK);
  }

  // -------------------------------------------------------------------- results

  /** Selected pages are exactly the first of the stable sort, and the rank is the position in it. */
  lemma SelectedAreTheBest(r: Descriptor, s: seq<PageEntry>, topK: int, i: int, j: int)
    requires 0 <= i < |s| && 0 <= j < |s|
    ensures var t, n := SelectPages(r, s, topK), Max(0, Min(topK, |EligibleIn(r, s)|));
      && (t[i].selected ==> Eligible(r, s[i]) && 0 <= t[i].sparseRank < n && Ranked(r, s)[t[i].sparseRank] == i)
      && (t[i].selected <==> i in Ranked(r, s)[..n])
      && (!t[i].selected ==> t[i].sparseRank == -1)
      && (t[i].selected && Eligible(r, s[j]) && !t[j].selected ==> ScoreOrder(r, s)(i, j))
      && (t[i].selected && t[j].selected && t[i].sparseRank < t[j].sparseRank ==> ScoreOrder(r, s)(i, j))
  {
    RankedFacts(r, s);
    EligibleFacts(r, s);
    SortSorted(ScoreOrder(r, s), EligibleIn(r, s));
    var ranked, chosen := Ranked(r, s), Take(Ranked(r, s), topK);
    var n := |chosen|;
    assert chosen == ranked[..n];
    TakeMember(ranked, topK);
    if i in chosen && Eligible(r, s[j]) && j !in chosen {
      assert j in ranked;
      var p, q :| 0 <= p < n && chosen[p] == i && 0 <= q < |ranked| && ranked[q] == j;
      assert q >= n;
      assert ranked[p] == i;
    }
    if i in chosen && j in chosen && IndexOf(chosen, i) < IndexOf(chosen, j) {
      assert ranked[IndexOf(chosen, i)] == i && ranked[IndexOf(chosen, j)] == j;
    }
  }

  /** With room for all, exactly the request's resident pages that are no drafts are selected. */
  lemma AllWithRoom(r: Descriptor, s: seq<PageEntry>, topK: int, i: int)
    requires 0 <= i < |s| && topK >= |s|
    ensures SelectPages(r, s, topK)[i].selected <==>
      s[i].requestId == r.requestId && Resident in s[i].flags && Draft !in s[i].flags
  {
    RankedFacts(r, s);
    DistinctBelow(Ranked(r, s), |s|);
    SelectedAreTheBest(r, s, topK, i, i);
    assert Ranked(r, s)[..|EligibleIn(r, s)|] == Ranked(r, s);
  }

  /** How far the end of a page is from the request's decode step. */
  function Away(r: Descriptor, e: PageEntry): nat {
    var d := e.startToken + e.tokenCount - (r.promptLen + r.decodePos);
    if d < 0 then -d else d
  }

  /**
   What selection prefers. A selected page `i` against an eligible page `j` that is
   left out: every token of page content outweighs a hundred positions of distance,
   and every position a hundred layers. So among pages with the same contents and
   layer the nearer go first, among equally near ones of a layer the fuller, and
   among equally near and full ones the lower layer; full ties go by position.
   */
  lemma NearAndFullFirst(r: Descriptor, s: seq<PageEntry>, topK: int, i: int, j: int)
    requires 0 <= i < |s| && 0 <= j < |s| && Eligible(r, s[j])
    requires SelectPages(r, s, topK)[i].selected && !SelectPages(r, s, topK)[j].selected
    ensures var e, f := s[i], s[j];
      var tokens, nearer, lower := e.tokenCount - f.tokenCount, Away(r, f) - Away(r, e), f.layerId - e.layerId;
      && 10000 * tokens + 100 * nearer + lower >= 0
      && (10000 * tokens + 100 * nearer + lower == 0 ==> i < j)
      && (tokens == 0 && lower == 0 ==> Away(r, e) <= Away(r, f))
      && (nearer == 0 && lower == 0 ==> e.tokenCount >= f.tokenCount)
      && (tokens == 0 && nearer == 0 ==> e.layerId <= f.layerId)
  {
    SelectedAreTheBest(r, s, topK, i, j);
  }

  /** What selection leaves behind: marks on selected pages alone, and nothing but selection fields touched. */
  lemma SelectionMarks(r: Descriptor, s: seq<PageEntry>, topK: int, i: int)
    requires 0 <= i < |s|
    ensures var e, f := s[i], SelectPages(r, s, topK)[i];
      && (f.selected <==> Selected in f.flags)
      && f.flags - {Selected} == e.flags - {Selected}
      && f.score == 10000 * e.tokenCount - 100 * Away(r, e) - e.layerId
      && f.lastSelectedStep == (if f.selected then r.promptLen + r.decodePos else e.lastSelectedStep)
      && f == e.(score := f.score, selected := f.selected, sparseRank := f.sparseRank, flags := f.flags,
                 lastSelectedStep := f.lastSelectedStep)
  {
  }
}
