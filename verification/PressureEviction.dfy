/** Eviction of one request's pages under pressure: drafts first, then committed pages, within a budget. */
module PressureEviction {
  import opened Arithmetic
  import opened Sequences
  import opened DeviceTypes

  datatype EvictionMetrics = EvictionMetrics(
    scanned: nat, pinnedSkipped: nat, selectedSkipped: nat,
    evicted: nat, drafts: nat, committed: nat, reclaimedBytes: int)

  predicate IsDraft(e: PageEntry) { Draft in e.flags || e.state == DraftPage }

  predicate IsCommitted(e: PageEntry) { Committed in e.flags || e.state == CommittedPage }

  /** Resident pages of the request that are neither pinned nor selected. */
  predicate Unprotected(e: PageEntry, rid: int) {
    e.requestId == rid && Resident in e.flags && Pinned !in e.flags && Selected !in e.flags
  }

  /** The pages a pass may take: drafts in the first pass, committed pages that are no drafts in the second. */
  predicate Wanted(e: PageEntry, rid: int, drafts: bool) {
    Unprotected(e, rid) && if drafts then IsDraft(e) else !IsDraft(e) && IsCommitted(e)
  }

  function EvictEntry(e: PageEntry): PageEntry {
    var m := MarkEvictable(e);
    ClearSelected(m.(flags := m.flags - {Resident, Draft, Committed}))
  }

  function WantedSet(s: seq<PageEntry>, rid: int, drafts: bool): set<int> {
    set i | 0 <= i < |s| && Wanted(s[i], rid, drafts)
  }

  /** The pages a pass may take, in scan order. */
  function WantedIn(s: seq<PageEntry>, rid: int, drafts: bool): seq<int> {
    Within(Range(0, |s|), WantedSet(s, rid, drafts))
  }

  /** The pages evicted within the budget. */
  function Victims(s: seq<PageEntry>, rid: int, budget: int): seq<int> {
    Take(WantedIn(s, rid, true) + WantedIn(s, rid, false), budget)
  }

  function EvictAt(s: seq<PageEntry>, at: seq<int>): (t: seq<PageEntry>)
    ensures |t| == |s|
    ensures forall i :: 0 <= i < |s| ==> t[i] == if i in at then EvictEntry(s[i]) else s[i]
  {
    seq(|s|, i requires 0 <= i < |s| => if i in at then EvictEntry(s[i]) else s[i])
  }

  lemma WantedInFacts(s: seq<PageEntry>, rid: int, drafts: bool)
    ensures NoDup(WantedIn(s, rid, drafts)) && |WantedIn(s, rid, drafts)| == |WantedSet(s, rid, drafts)|
    ensures forall i :: i in WantedIn(s, rid, drafts) <==> i in WantedSet(s, rid, drafts)
  {
    var d := WantedSet(s, rid, drafts);
    WithinMember(Range(0, |s|), d);
    WithinNoDup(Range(0, |s|), d);
    forall i | i in d ensures i in Range(0, |s|) {
      RangeMember(0, |s|, i);
    }
    SetSize(WantedIn(s, rid, drafts), d);
  }

  /** Resident pages of the request that the scan counts as pinned, and as selected. */
  function PinnedSet(s: seq<PageEntry>, rid: int): set<int> {
    set i | 0 <= i < |s| && s[i].requestId == rid && Resident in s[i].flags && Pinned in s[i].flags
  }

  function SelectedSet(s: seq<PageEntry>, rid: int): set<int> {
    set i | 0 <= i < |s| && s[i].requestId == rid && Resident in s[i].flags
          && Pinned !in s[i].flags && Selected in s[i].flags
  }

  /** How many of the first `k` positions lie in `d`. */
  function CountBelow(d: set<int>, k: nat): nat { |Within(Range(0, k), d)| }

  lemma CountBelowNext(d: set<int>, k: nat)
    ensures CountBelow(d, k + 1) == CountBelow(d, k) + if k in d then 1 else 0
  {
    assert Range(0, k + 1) == Range(0, k) + [k];
    WithinSnoc(Range(0, k), k, d);
  }

  /** How far a pass looks: up to the page that exhausts the budget, or to the end. */
  function ScanLength(s: seq<PageEntry>, rid: int, drafts: bool, budget: int): int {
    if budget <= 0 then 0
    else if |WantedIn(s, rid, drafts)| < budget then |s|
    else WantedIn(s, rid, drafts)[budget - 1] + 1
  }

  /** What the scan makes of one page. */
  datatype Look = PassedBy | SkippedPinned | SkippedSelected | Taken

  ghost predicate Saw(s: seq<PageEntry>, rid: int, drafts: bool, i: int, look: Look) {
    && (look == Taken <==> i in WantedSet(s, rid, drafts))
    && (look == SkippedPinned <==> i in PinnedSet(s, rid))
    && (look == SkippedSelected <==> i in SelectedSet(s, rid))
  }

  /** One page of a pass; `gone` are the pages evicted before. */
  method EvictOne(table: array<PageEntry>, base: nat, n: nat, rid: int, drafts: bool, i: nat,
                  ghost s: seq<PageEntry>, ghost gone: seq<int>)
    returns (look: Look)
    requires base + n <= table.Length && |s| == n && i < n && table[base..base + n] == EvictAt(s, gone)
    requires i in gone ==> i !in WantedSet(s, rid, drafts) && Unprotected(s[i], rid)
    modifies table
    ensures Saw(s, rid, drafts, i, look)
    ensures look == Taken ==> table[base..base + n] == EvictAt(s, gone + [i])
    ensures look != Taken ==> table[base..base + n] == EvictAt(s, gone)
    ensures table[..base] == old(table[..base]) && table[base + n..] == old(table[base + n..])
  {
    look := PassedBy;
    var e := table[base + i];
    assert e == table[base..base + n][i];
    if e.requestId != rid { return; }
    if Resident !in e.flags { return; }
    if Pinned in e.flags { return SkippedPinned; }
    if Selected in e.flags { return SkippedSelected; }
    if drafts && !IsDraft(e) { return; }
    if !drafts && (IsDraft(e) || !IsCommitted(e)) { return; }
    ghost var before := table[base..base + n];
    e := MarkEvictable(e);
    e := e.(flags := e.flags - {Resident} - {Draft} - {Committed});
    e := ClearSelected(e);
    assert e.flags == EvictEntry(s[i]).flags;
    table[base + i] := e;
    look := Taken;
    assert table[base..base + n] == before[i := e] == EvictAt(s, gone + [i]);
  }

  /** Where a pass stopped, and what it counted on the way. */
  ghost predicate ScanDone(s: seq<PageEntry>, rid: int, drafts: bool, budget: int, done: seq<int>,
                           scanned: nat, pinned: nat, selected: nat)
  {
    && done == Take(WantedIn(s, rid, drafts), budget) && scanned == ScanLength(s, rid, drafts, budget)
    && pinned == CountBelow(PinnedSet(s, rid), scanned) && selected == CountBelow(SelectedSet(s, rid), scanned)
  }

  /** A pass that has looked at `i` pages. */
  ghost predicate ScanAt(s: seq<PageEntry>, rid: int, drafts: bool, budget: int, i: nat, done: seq<int>,
                         pinned: nat, selected: nat)
  {
    && i <= |s| && |done| <= Max(budget, 0) && (budget <= 0 ==> i == 0)
    && done == Within(Range(0, |s|)[..i], WantedSet(s, rid, drafts))
    && (|done| == budget > 0 ==> done[|done| - 1] == i - 1)
    && pinned == CountBelow(PinnedSet(s, rid), i) && selected == CountBelow(SelectedSet(s, rid), i)
  }

  lemma ScanStarts(s: seq<PageEntry>, rid: int, drafts: bool, budget: int)
    ensures ScanAt(s, rid, drafts, budget, 0, [], 0, 0)
  {
    assert Range(0, |s|)[..0] == [] && Range(0, 0) == [];
  }

  lemma ScanLooks(s: seq<PageEntry>, rid: int, drafts: bool, budget: int, i: nat, done: seq<int>,
                  pinned: nat, selected: nat, look: Look)
    requires ScanAt(s, rid, drafts, budget, i, done, pinned, selected) && i < |s| && |done| < budget
    requires Saw(s, rid, drafts, i, look)
    ensures i !in done
    ensures ScanAt(s, rid, drafts, budget, i + 1, if look == Taken then done + [i] else done,
                   if look == SkippedPinned then pinned + 1 else pinned,
                   if look == SkippedSelected then selected + 1 else selected)
  {
    ScanStep(Range(0, |s|), WantedSet(s, rid, drafts), i);
    NotYetScanned(Range(0, |s|), WantedSet(s, rid, drafts), i);
    CountBelowNext(PinnedSet(s, rid), i);
    CountBelowNext(SelectedSet(s, rid), i);
  }

  lemma ScanStops(s: seq<PageEntry>, rid: int, drafts: bool, budget: int, i: nat, done: seq<int>,
                  pinned: nat, selected: nat)
    requires ScanAt(s, rid, drafts, budget, i, done, pinned, selected) && (i == |s| || |done| >= budget)
    ensures ScanDone(s, rid, drafts, budget, done, i, pinned, selected)
  {
    ScanIsTake(Range(0, |s|), WantedSet(s, rid, drafts), i, budget);
  }

  /** What a pass evicts was unprotected, and is not looked at as such again. */
  ghost predicate Cleanly(s: seq<PageEntry>, rid: int, drafts: bool, prior: seq<int>) {
    forall i :: i in prior ==> 0 <= i < |s| && i !in WantedSet(s, rid, drafts) && Unprotected(s[i], rid)
  }

  /** One round of a pass. */
  method EvictNext(table: array<PageEntry>, base: nat, n: nat, rid: int, drafts: bool, budget: int, i: nat,
                   pinned: nat, selected: nat, count: nat,
                   ghost s: seq<PageEntry>, ghost prior: seq<int>, ghost done: seq<int>)
    returns (pinnedNow: nat, selectedNow: nat, countNow: nat, ghost next: seq<int>)
    requires base + n <= table.Length && |s| == n && i < n && table[base..base + n] == EvictAt(s, prior + done)
    requires Cleanly(s, rid, drafts, prior) && ScanAt(s, rid, drafts, budget, i, done, pinned, selected)
    requires count == |done| < budget
    modifies table
    ensures ScanAt(s, rid, drafts, budget, i + 1, next, pinnedNow, selectedNow) && countNow == |next|
    ensures table[base..base + n] == EvictAt(s, prior + next)
    ensures table[..base] == old(table[..base]) && table[base + n..] == old(table[base + n..])
  {
    NotLookedAt(s, rid, drafts, i, prior, done);
    var look := EvictOne(table, base, n, rid, drafts, i, s, prior + done);
    ScanLooks(s, rid, drafts, budget, i, done, pinned, selected, look);
    assert prior + done + [i] == prior + (done + [i]);
    pinnedNow := if look == SkippedPinned then pinned + 1 else pinned;
    selectedNow := if look == SkippedSelected then selected + 1 else selected;
    countNow := if look == Taken then count + 1 else count;
    next := if look == Taken then done + [i] else done;
  }

  /** One pass of the kernel over the request's pages, in table order. */
  method EvictPass(table: array<PageEntry>, base: nat, n: nat, rid: int, drafts: bool, budget: int,
                   ghost s: seq<PageEntry>, ghost prior: seq<int>)
    returns (scanned: nat, pinned: nat, selected: nat, count: nat, ghost done: seq<int>)
    requires base + n <= table.Length && |s| == n && table[base..base + n] == EvictAt(s, prior)
    requires Cleanly(s, rid, drafts, prior)
    modifies table
    ensures ScanDone(s, rid, drafts, budget, done, scanned, pinned, selected) && count == |done|
    ensures table[base..base + n] == EvictAt(s, prior + done)
    ensures table[..base] == old(table[..base]) && table[base + n..] == old(table[base + n..])
  {
    scanned, pinned, selected, count, done := 0, 0, 0, 0, [];
    ScanStarts(s, rid, drafts, budget);
    assert prior + [] == prior;
    while scanned < n && count < budget
      invariant 0 <= scanned <= n && count == |done|
      invariant ScanAt(s, rid, drafts, budget, scanned, done, pinned, selected)
      invariant table[base..base + n] == EvictAt(s, prior + done)
      invariant table[..base] == old(table[..base]) && table[base + n..] == old(table[base + n..])
    {
      pinned, selected, count, done :=
        EvictNext(table, base, n, rid, drafts, budget, scanned, pinned, selected, count, s, prior, done);
      scanned := scanned + 1;
    }
    ScanStops(s, rid, drafts, budget, scanned, done, pinned, selected);
  }

  /** A page evicted before the scan reaches it was evicted by an earlier pass. */
  lemma NotLookedAt(s: seq<PageEntry>, rid: int, drafts: bool, i: nat, prior: seq<int>, done: seq<int>)
    requires i < |s| && Cleanly(s, rid, drafts, prior) && done == Within(Range(0, |s|)[..i], WantedSet(s, rid, drafts))
    ensures i in prior + done ==> i !in WantedSet(s, rid, drafts) && Unprotected(s[i], rid)
  {
    NotYetScanned(Range(0, |s|), WantedSet(s, rid, drafts), i);
  }

  /** What the draft pass takes is unprotected, and no page of the second pass. */
  lemma DraftsAreNotCommitted(s: seq<PageEntry>, rid: int, budget: int)
    ensures Cleanly(s, rid, false, Take(WantedIn(s, rid, true), budget))
  {
    WantedInFacts(s, rid, true);
    TakeMember(WantedIn(s, rid, true), budget);
  }

  /** The counters of a whole run: both passes together. */
  ghost predicate RunCounts(m: EvictionMetrics, s: seq<PageEntry>, rid: int, budget: int, bytesPerPage: int) {
    var drafts := Max(0, Min(budget, |WantedIn(s, rid, true)|));
    var one, two := ScanLength(s, rid, true, budget), ScanLength(s, rid, false, budget - drafts);
    && one >= 0 && two >= 0 && m.scanned == one + two && m.drafts == drafts
    && m.pinnedSkipped == CountBelow(PinnedSet(s, rid), one) + CountBelow(PinnedSet(s, rid), two)
    && m.selectedSkipped == CountBelow(SelectedSet(s, rid), one) + CountBelow(SelectedSet(s, rid), two)
    && m.evicted == |Victims(s, rid, budget)| && m.evicted == m.drafts + m.committed
    && m.reclaimedBytes == Times(bytesPerPage, m.evicted)
  }

  lemma BothPasses(m: EvictionMetrics, s: seq<PageEntry>, rid: int, budget: int, bytesPerPage: int,
                   scan1: nat, pin1: nat, sel1: nat, first: seq<int>,
                   scan2: nat, pin2: nat, sel2: nat, second: seq<int>)
    requires |first| == Max(0, Min(budget, |WantedIn(s, rid, true)|))
    requires scan1 == ScanLength(s, rid, true, budget) && scan2 == ScanLength(s, rid, false, budget - |first|)
    requires pin1 == CountBelow(PinnedSet(s, rid), scan1) && pin2 == CountBelow(PinnedSet(s, rid), scan2)
    requires sel1 == CountBelow(SelectedSet(s, rid), scan1) && sel2 == CountBelow(SelectedSet(s, rid), scan2)
    requires m == EvictionMetrics(scan1 + scan2, pin1 + pin2, sel1 + sel2, |first| + |second|, |first|, |second|,
                                  Times(bytesPerPage, |first| + |second|))
    ensures |first| + |second| == |Victims(s, rid, budget)| ==> RunCounts(m, s, rid, budget, bytesPerPage)
  {}

  /** Both passes over the request's pages. */
  method Passes(table: array<PageEntry>, base: nat, n: nat, rid: int, budget: int, bytesPerPage: int,
                ghost s: seq<PageEntry>)
    returns (metric: EvictionMetrics, ghost first: seq<int>, ghost second: seq<int>)
    requires base + n <= table.Length && s == table[base..base + n]
    modifies table
    ensures first == Take(WantedIn(s, rid, true), budget)
    ensures second == Take(WantedIn(s, rid, false), budget - |first|)
    ensures |first| + |second| == |Victims(s, rid, budget)| ==> RunCounts(metric, s, rid, budget, bytesPerPage)
    ensures table[base..base + n] == EvictAt(s, first + second)
    ensures table[..base] == old(table[..base]) && table[base + n..] == old(table[base + n..])
  {
    var scan1: nat, pin1: nat, sel1: nat, drafts: nat;
    var scan2: nat, pin2: nat, sel2: nat, committed: nat;
    assert EvictAt(s, []) == s;
    scan1, pin1, sel1, drafts, first := EvictPass(table, base, n, rid, true, budget, s, []);
    assert [] + first == first;
    DraftsAreNotCommitted(s, rid, budget);
    scan2, pin2, sel2, committed, second := EvictPass(table, base, n, rid, false, budget - drafts, s, first);
    metric := EvictionMetrics(scan1 + scan2, pin1 + pin2, sel1 + sel2, drafts + committed, drafts, committed,
                              Times(bytesPerPage, drafts + committed));
    BothPasses(metric, s, rid, budget, bytesPerPage, scan1, pin1, sel1, first, scan2, pin2, sel2, second);
  }

  /** `kv_pressure_eviction_kernel` for the pages of request `rid` that start at `base`. */
  method EvictUnderPressure(table: array<PageEntry>, base: nat, n: nat, rid: int, budget: int, bytesPerPage: int)
    returns (metric: EvictionMetrics)
    requires base + n <= table.Length
    modifies table
    ensures var s := old(table[base..base + n]);
      table[base..base + n] == EvictAt(s, Victims(s, rid, budget)) && RunCounts(metric, s, rid, budget, bytesPerPage)
    ensures table[..base] == old(table[..base]) && table[base + n..] == old(table[base + n..])
  {
    ghost var s := table[base..base + n];
    ghost var first, second;
    metric, first, second := Passes(table, base, n, rid, budget, bytesPerPage, s);
    TakeConcat(WantedIn(s, rid, true), WantedIn(s, rid, false), budget);
  }

  // ----------------------------------------------------------------------- results

  lemma VictimsFacts(s: seq<PageEntry>, rid: int, budget: int)
    ensures var v := Victims(s, rid, budget);
      && NoDup(v) && |v| == Max(0, Min(budget, |WantedSet(s, rid, true)| + |WantedSet(s, rid, false)|))
      && (forall i :: i in v ==> 0 <= i < |s| && (Wanted(s[i], rid, true) || Wanted(s[i], rid, false)))
  {
    WantedInFacts(s, rid, true);
    WantedInFacts(s, rid, false);
    var all := WantedIn(s, rid, true) + WantedIn(s, rid, false);
    ConcatNoDup(WantedIn(s, rid, true), WantedIn(s, rid, false));
    TakeMember(all, budget);
  }

  /**
   Exactly min(budget, eligible drafts plus eligible committed pages) are evicted;
   a committed page goes only after every eligible draft; within a class the pages
   go in table order; pinned and selected pages, and pages of others, are unchanged.
   */
  lemma DraftFirstEviction(s: seq<PageEntry>, rid: int, budget: int, i: int, j: int)
    requires 0 <= i < |s| && 0 <= j < |s|
    ensures var t, v := EvictAt(s, Victims(s, rid, budget)), Victims(s, rid, budget);
      && |v| == Max(0, Min(budget, |WantedSet(s, rid, true)| + |WantedSet(s, rid, false)|)) && NoDup(v)
      && (t[i] != s[i] ==> i in v && Unprotected(s[i], rid))
      && (i in v ==> Resident !in t[i].flags && t[i].state == EvictablePage)
      && (i in v && !IsDraft(s[i]) && Wanted(s[j], rid, true) ==> j in v)
      && (i in v && j < i && IsDraft(s[i]) == IsDraft(s[j]) ==>
            Wanted(s[j], rid, true) || Wanted(s[j], rid, false) ==> j in v)
  {
    VictimsFacts(s, rid, budget);
    WantedInFacts(s, rid, true);
    WantedInFacts(s, rid, false);
    if i in Victims(s, rid, budget) {
      if !IsDraft(s[i]) && Wanted(s[j], rid, true) {
        PrefixReaches(WantedIn(s, rid, true), WantedIn(s, rid, false), budget, i, j);
      }
      if j < i && IsDraft(s[i]) == IsDraft(s[j]) && (Wanted(s[j], rid, true) || Wanted(s[j], rid, false)) {
        EarlierGoesFirst(s, rid, budget, i, j);
      }
    }
  }

  /** Something taken from behind `p` means all of `p` was taken. */
  lemma PrefixReaches(p: seq<int>, q: seq<int>, n: int, i: int, j: int)
    requires i in Take(p + q, n) && i !in p && j in p
    ensures j in Take(p + q, n)
  {
    var v := Take(p + q, n);
    var a :| 0 <= a < |v| && v[a] == i;
    assert forall x :: 0 <= x < |p| ==> p[x] in p;
    var b :| 0 <= b < |p| && p[b] == j;
    assert v[a] == (p + q)[a] && b < a && v[b] == j;
  }

  lemma EarlierGoesFirst(s: seq<PageEntry>, rid: int, budget: int, i: int, j: int)
    requires 0 <= j < i < |s| && i in Victims(s, rid, budget) && IsDraft(s[i]) == IsDraft(s[j])
    requires Wanted(s[j], rid, true) || Wanted(s[j], rid, false)
    ensures j in Victims(s, rid, budget)
  {
    var p, q, v := WantedIn(s, rid, true), WantedIn(s, rid, false), Victims(s, rid, budget);
    var w := if IsDraft(s[i]) then p else q;
    WantedInFacts(s, rid, true);
    WantedInFacts(s, rid, false);
    var a :| 0 <= a < |v| && v[a] == i;
    assert (p + q)[a] == i;
    var off := if IsDraft(s[i]) then 0 else |p|;
    assert a < |p| ==> p[a] in p;
    assert a >= |p| ==> q[a - |p|] in q;
    assert j in w;
    var b :| 0 <= b < |w| && w[b] == j;
    assert w[a - off] == i;
    if b > a - off {
      WithinAscends(|s|, WantedSet(s, rid, IsDraft(s[i])), a - off, b);
    }
    assert (p + q)[off + b] == j && v[off + b] == j;
  }

  /** What eviction makes of a page: evictable, in no other role and not selected; all else about it stays. */
  lemma EvictionClears(e: PageEntry)
    ensures var f := EvictEntry(e);
      && f.state == EvictablePage && Evictable in f.flags && !f.selected && f.sparseRank == -1
      && f.flags !! {Resident, Draft, Committed, Pinned, Selected}
      && (forall x: PageFlag :: x in f.flags ==> x == Evictable || x in e.flags)
      && f == e.(state := f.state, flags := f.flags, selected := f.selected, sparseRank := f.sparseRank)
  {}

  /** The request's resident pages in a draft or committed role that are neither pinned nor selected. */
  ghost predicate Reclaimable(e: PageEntry, rid: int) {
    && e.requestId == rid && Resident in e.flags && Pinned !in e.flags && Selected !in e.flags
    && (Draft in e.flags || Committed in e.flags || e.state in {DraftPage, CommittedPage})
  }

  /**
   With budget to spare all reclaimable pages are evicted and no others; both passes see
   every page, so that each pinned and each selected page is skipped, and counted, twice.
   */
  lemma BudgetToSpare(s: seq<PageEntry>, rid: int, budget: int, m: EvictionMetrics, bytesPerPage: int, i: int)
    requires budget > |s| && RunCounts(m, s, rid, budget, bytesPerPage) && 0 <= i < |s|
    ensures i in Victims(s, rid, budget) <==> Reclaimable(s[i], rid)
    ensures m.scanned == 2 * |s|
    ensures m.pinnedSkipped == 2 * |PinnedSet(s, rid)| && m.selectedSkipped == 2 * |SelectedSet(s, rid)|
  {
    var p, q := WantedIn(s, rid, true), WantedIn(s, rid, false);
    WantedInFacts(s, rid, true);
    WantedInFacts(s, rid, false);
    ConcatNoDup(p, q);
    DistinctBelow(p + q, |s|);
    TakeMember(p + q, budget);
    assert Victims(s, rid, budget) == p + q;
    CountAll(PinnedSet(s, rid), |s|);
    CountAll(SelectedSet(s, rid), |s|);
  }

  lemma CountAll(d: set<int>, n: nat)
    requires forall i :: i in d ==> 0 <= i < n
    ensures CountBelow(d, n) == |d|
  {
    var all := Within(Range(0, n), d);
    WithinMember(Range(0, n), d);
    WithinNoDup(Range(0, n), d);
    forall i | i in d ensures i in Range(0, n) {
      RangeMember(0, n, i);
    }
    SetSize(all, d);
  }

  /** Each pass stops behind the page that uses up its budget: only what comes before it was looked at. */
  lemma PassStops(s: seq<PageEntry>, rid: int, drafts: bool, budget: int)
    ensures var n := ScanLength(s, rid, drafts, budget);
      && 0 <= n <= |s|
      && CountBelow(WantedSet(s, rid, drafts), n) == Max(0, Min(budget, |WantedSet(s, rid, drafts)|))
      && (n < |s| && n > 0 ==> n - 1 in WantedSet(s, rid, drafts))
  {
    var d, all := WantedSet(s, rid, drafts), WantedIn(s, rid, drafts);
    WantedInFacts(s, rid, drafts);
    if budget <= 0 {
      assert Range(0, 0) == [];
    } else if |all| < budget {
      CountAll(d, |s|);
    } else {
      assert all[budget - 1] in d;
      FoundBelow(d, |s|, budget - 1);
    }
  }

  /** The `k`-th member in scan order is found when `k` others have been. */
  lemma {:induction false} FoundBelow(d: set<int>, n: nat, k: nat)
    requires k < |Within(Range(0, n), d)|
    ensures var x := Within(Range(0, n), d)[k]; 0 <= x < n && x in d && CountBelow(d, x + 1) == k + 1
  {
    if n > 0 {
      assert Range(0, n) == Range(0, n - 1) + [n - 1];
      WithinSnoc(Range(0, n - 1), n - 1, d);
      if k < |Within(Range(0, n - 1), d)| {
        FoundBelow(d, n - 1, k);
      }
    }
  }
}
