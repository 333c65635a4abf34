/**
 Tier rebalancing of one request's pages: selected pages rise one tier, then pages
 that are not selected are pushed down, last page first, until each tier fits.
 */
module TierResidency {
  import opened Arithmetic
  import opened Sequences

  const HBM := 0
  const DRAM := 1
  const SSD := 2

  datatype TierMetrics = TierMetrics(
    toHbm: nat, toDram: nat, downToDram: nat, downToSsd: nat, rebalanced: nat,
    finalHbm: int, finalDram: int, finalSsd: int)

  // ------------------------------------------------------------------- promotion

  function Promoted(tier: int): int { if tier == DRAM then HBM else if tier == SSD then DRAM else tier }

  /** One entry of the selection: page ids that are negative or not the request's are skipped. */
  function PromoteOne(t: seq<int>, base: int, id: int): (u: seq<int>)
    ensures |u| == |t|
  {
    if id >= 0 && 0 <= id - base < |t| then t[id - base := Promoted(t[id - base])] else t
  }

  function PromoteAll(t: seq<int>, base: int, row: seq<int>): (u: seq<int>)
    ensures |u| == |t|
  {
    if row == [] then t else PromoteOne(PromoteAll(t, base, row[..|row| - 1]), base, row[|row| - 1])
  }

  /** How often page `i` is listed. */
  function Listed(row: seq<int>, base: int, i: int): nat {
    if row == [] then 0
    else Listed(row[..|row| - 1], base, i) + if row[|row| - 1] >= 0 && row[|row| - 1] == base + i then 1 else 0
  }

  /** A page rises once for each time it is listed, down to the HBM floor. */
  lemma {:induction false} PromotionsAdd(t: seq<int>, base: int, row: seq<int>, i: nat)
    requires i < |t| && t[i] in {HBM, DRAM, SSD}
    ensures PromoteAll(t, base, row)[i] == Max(0, t[i] - Listed(row, base, i))
  {
    if row != [] {
      PromotionsAdd(t, base, row[..|row| - 1], i);
    }
  }

  function CountTier(t: seq<int>, tier: int): nat {
    if t == [] then 0 else CountTier(t[..|t| - 1], tier) + if t[|t| - 1] == tier then 1 else 0
  }

  function SumTiers(t: seq<int>): int { if t == [] then 0 else SumTiers(t[..|t| - 1]) + t[|t| - 1] }

  lemma {:induction false} UpdateCounts(t: seq<int>, i: nat, v: int, tier: int)
    requires i < |t|
    ensures CountTier(t[i := v], tier)
         == CountTier(t, tier) - (if t[i] == tier then 1 else 0) + (if v == tier then 1 else 0)
    ensures SumTiers(t[i := v]) == SumTiers(t) - t[i] + v
  {
    var k := |t| - 1;
    if i < k {
      assert t[i := v][..k] == t[..k][i := v];
      UpdateCounts(t[..k], i, v, tier);
    } else {
      assert t[i := v][..k] == t[..k];
    }
  }

  /** What the promotion loop counts: rises to HBM and rises to DRAM. */
  function Rises(t: seq<int>, base: int, row: seq<int>, from: int): nat {
    if row == [] then 0
    else
      var p := PromoteAll(t, base, row[..|row| - 1]);
      var id := row[|row| - 1];
      Rises(t, base, row[..|row| - 1], from) + if id >= 0 && 0 <= id - base < |t| && p[id - base] == from then 1 else 0
  }

  lemma {:induction false} PromotionSum(t: seq<int>, base: int, row: seq<int>)
    ensures SumTiers(PromoteAll(t, base, row)) == SumTiers(t) - Rises(t, base, row, DRAM) - Rises(t, base, row, SSD)
  {
    if row != [] {
      PromotionSum(t, base, row[..|row| - 1]);
      var p, id := PromoteAll(t, base, row[..|row| - 1]), row[|row| - 1];
      if id >= 0 && 0 <= id - base < |t| {
        UpdateCounts(p, id - base, Promoted(p[id - base]), HBM);
      }
    }
  }

  // -------------------------------------------------------------------- demotion

  /** Is page `base + i` in the selection? */
  predicate IsSelected(row: seq<int>, base: int, i: int) { base + i in row }

  /** Pages of a tier that may be pushed down. */
  function Movable(t: seq<int>, row: seq<int>, base: int, tier: int): set<int> {
    set i | 0 <= i < |t| && t[i] == tier && !IsSelected(row, base, i)
  }

  /** Positions from the last down to the first. */
  function Down(n: nat): (d: seq<int>)
    ensures |d| == n && forall k :: 0 <= k < n ==> d[k] == n - 1 - k
  {
    seq(n, k requires 0 <= k < n => n - 1 - k)
  }

  function SetAll(t: seq<int>, at: seq<int>, v: int): (u: seq<int>)
    ensures |u| == |t|
    ensures forall i :: 0 <= i < |t| ==> u[i] == if i in at then v else t[i]
  {
    seq(|t|, i requires 0 <= i < |t| => if i in at then v else t[i])
  }

  /** The pages pushed down: the last movable ones, as many as the tier is over capacity. */
  function Pushed(t: seq<int>, row: seq<int>, base: int, tier: int, capacity: int): seq<int> {
    Take(Within(Down(|t|), Movable(t, row, base, tier)), CountTier(t, tier) - capacity)
  }

  function Demote(t: seq<int>, row: seq<int>, base: int, tier: int, capacity: int): (u: seq<int>)
    ensures |u| == |t|
  {
    SetAll(t, Pushed(t, row, base, tier, capacity), tier + 1)
  }

  lemma MovableList(t: seq<int>, row: seq<int>, base: int, tier: int)
    ensures var m := Within(Down(|t|), Movable(t, row, base, tier));
      NoDup(m) && forall i :: i in m <==> i in Movable(t, row, base, tier)
  {
    var d := Down(|t|);
    WithinMember(d, Movable(t, row, base, tier));
    WithinNoDup(d, Movable(t, row, base, tier));
    forall i | 0 <= i < |t| ensures i in d {
      assert d[|t| - 1 - i] == i;
    }
  }

  lemma PushedFacts(t: seq<int>, row: seq<int>, base: int, tier: int, capacity: int)
    ensures var v, m := Pushed(t, row, base, tier, capacity), Movable(t, row, base, tier);
      && NoDup(v) && (forall i :: i in v ==> i in m)
      && |v| == Max(0, Min(CountTier(t, tier) - capacity, |m|))
      && (CountTier(t, tier) - capacity > |v| ==> forall i :: i in m ==> i in v)
  {
    var all := Within(Down(|t|), Movable(t, row, base, tier));
    MovableList(t, row, base, tier);
    TakeMember(all, CountTier(t, tier) - capacity);
    SetSize(all, Movable(t, row, base, tier));
  }

  lemma {:induction false} SetAllCounts(t: seq<int>, at: seq<int>, from: int, v: int, tier: int)
    requires NoDup(at) && from != v && forall i :: i in at ==> 0 <= i < |t| && t[i] == from
    ensures CountTier(SetAll(t, at, v), tier)
         == CountTier(t, tier) - (if tier == from then |at| else 0) + (if tier == v then |at| else 0)
    ensures SumTiers(SetAll(t, at, v)) == SumTiers(t) + |at| * (v - from)
  {
    if at == [] {
      assert SetAll(t, at, v) == t;
    } else {
      var k := |at| - 1;
      var p := SetAll(t, at[..k], v);
      assert at == at[..k] + [at[k]] && at[k] in at && at[k] !in at[..k];
      assert forall i :: i in at[..k] ==> i in at;
      SetAllCounts(t, at[..k], from, v, tier);
      assert SetAll(t, at, v) == p[at[k] := v];
      UpdateCounts(p, at[k], v, tier);
      assert |at| * (v - from) == |at[..k]| * (v - from) + (v - from) by { MulStep(|at|, v - from); }
    }
  }

  // ------------------------------------------------------------------------ kernel

  /** The tiers after the kernel. */
  function Rebalanced(t: seq<int>, row: seq<int>, base: int, hbmCap: int, dramCap: int): (u: seq<int>)
    ensures |u| == |t|
  {
    Demote(Demote(PromoteAll(t, base, row), row, base, HBM, hbmCap), row, base, DRAM, dramCap)
  }

  method IsSelectedPage(pageId: int, selected: array<int>, base: nat, count: nat) returns (found: bool)
    requires base + count <= selected.Length
    ensures found == (pageId in selected[base..base + count])
  {
    ghost var row := selected[base..base + count];
    for i := 0 to count
      invariant pageId !in row[..i]
    {
      assert row[i] == selected[base + i] && row[..i + 1] == row[..i] + [row[i]];
      if selected[base + i] == pageId {
        return true;
      }
    }
    assert row[..count] == row;
    return false;
  }

  /** The promotion loop. */
  method PromoteListed(selected: array<int>, sbase: nat, count: nat, tiers: array<int>, tbase: nat, n: nat)
    returns (toHbm: nat, toDram: nat)
    requires selected != tiers && sbase + count <= selected.Length && tbase + n <= tiers.Length
    modifies tiers
    ensures var t, row := old(tiers[tbase..tbase + n]), selected[sbase..sbase + count];
      && tiers[tbase..tbase + n] == PromoteAll(t, tbase, row)
      && toHbm == Rises(t, tbase, row, DRAM) && toDram == Rises(t, tbase, row, SSD)
    ensures tiers[..tbase] == old(tiers[..tbase]) && tiers[tbase + n..] == old(tiers[tbase + n..])
  {
    toHbm, toDram := 0, 0;
    ghost var t, row := tiers[tbase..tbase + n], selected[sbase..sbase + count];
    for i := 0 to count
      invariant tiers[tbase..tbase + n] == PromoteAll(t, tbase, row[..i])
      invariant toHbm == Rises(t, tbase, row[..i], DRAM) && toDram == Rises(t, tbase, row[..i], SSD)
      invariant tiers[..tbase] == old(tiers[..tbase]) && tiers[tbase + n..] == old(tiers[tbase + n..])
    {
      var id := selected[sbase + i];
      assert id == row[i] && row[..i + 1][..i] == row[..i];
      var local := id - tbase;
      if id < 0 || local < 0 || local >= n { continue; }
      ghost var p := tiers[tbase..tbase + n];
      assert p[local] == tiers[tbase + local];
      if tiers[tbase + local] == DRAM {
        tiers[tbase + local] := HBM;
        toHbm := toHbm + 1;
      } else if tiers[tbase + local] == SSD {
        tiers[tbase + local] := DRAM;
        toDram := toDram + 1;
      }
      assert tiers[tbase..tbase + n] == p[local := Promoted(p[local])];
    }
    assert row[..count] == row;
  }

  /** The counting loop; what is neither HBM nor DRAM counts as SSD. */
  method CountTiers(tiers: array<int>, tbase: nat, n: nat) returns (hbm: nat, dram: nat, ssd: nat)
    requires tbase + n <= tiers.Length
    ensures var t := tiers[tbase..tbase + n];
      hbm == CountTier(t, HBM) && dram == CountTier(t, DRAM) && hbm + dram + ssd == n
  {
    hbm, dram, ssd := 0, 0, 0;
    ghost var t := tiers[tbase..tbase + n];
    for i := 0 to n
      invariant hbm == CountTier(t[..i], HBM) && dram == CountTier(t[..i], DRAM) && hbm + dram + ssd == i
    {
      var tier := tiers[tbase + i];
      assert tier == t[i] && t[..i + 1][..i] == t[..i];
      if tier == HBM {
        hbm := hbm + 1;
      } else if tier == DRAM {
        dram := dram + 1;
      } else {
        ssd := ssd + 1;
      }
    }
    assert t[..n] == t;
  }

  /** One page of a demotion pass; `done` are the pages pushed down before. */
  method DemoteAt(selected: array<int>, sbase: nat, count: nat, tiers: array<int>, tbase: nat, n: nat,
                  tier: int, i: nat, ghost t: seq<int>, ghost done: seq<int>)
    returns (moved: bool)
    requires selected != tiers && sbase + count <= selected.Length && tbase + n <= tiers.Length && i < n == |t|
    requires tiers[tbase..tbase + n] == SetAll(t, done, tier + 1) && i !in done
    modifies tiers
    ensures moved == (i in Movable(t, selected[sbase..sbase + count], tbase, tier))
    ensures tiers[tbase..tbase + n] == SetAll(t, if moved then done + [i] else done, tier + 1)
    ensures tiers[..tbase] == old(tiers[..tbase]) && tiers[tbase + n..] == old(tiers[tbase + n..])
  {
    moved := false;
    assert tiers[tbase + i] == tiers[tbase..tbase + n][i] == t[i];
    if tiers[tbase + i] != tier {
      return;
    }
    var isSelected := IsSelectedPage(tbase + i, selected, sbase, count);
    if isSelected {
      return;
    }
    ghost var before := tiers[tbase..tbase + n];
    tiers[tbase + i] := tier + 1;
    moved := true;
    assert tiers[tbase..tbase + n] == before[i := tier + 1] == SetAll(t, done + [i], tier + 1);
  }

  /** After `k` positions of `d`: the pages in `m` among them are pushed down, and `left` are still on the tier. */
  ghost predicate Scanned(d: seq<int>, m: set<int>, k: int, occupied: int, capacity: int, left: int, done: seq<int>) {
    0 <= k <= |d| && done == Within(d[..k], m) && left == occupied - |done| && |done| <= Max(occupied - capacity, 0)
  }

  lemma ScannedNext(d: seq<int>, m: set<int>, k: nat, occupied: int, capacity: int, left: int, done: seq<int>)
    requires NoDup(d) && k < |d| && left > capacity && Scanned(d, m, k, occupied, capacity, left, done)
    ensures d[k] !in done
    ensures if d[k] in m then Scanned(d, m, k + 1, occupied, capacity, left - 1, done + [d[k]])
            else Scanned(d, m, k + 1, occupied, capacity, left, done)
  {
    ScanStep(d, m, k);
    NotYetScanned(d, m, k);
  }

  /** The scan of a demotion pass: from the last page down, while the tier is over capacity. */
  method DemoteScan(selected: array<int>, sbase: nat, count: nat, tiers: array<int>, tbase: nat, n: nat,
                    tier: int, capacity: int, occupied: int, ghost t: seq<int>, ghost d: seq<int>)
    returns (left: int, moved: nat, ghost done: seq<int>)
    requires selected != tiers && sbase + count <= selected.Length && tbase + n <= tiers.Length
    requires tiers[tbase..tbase + n] == t && d == Down(n) && NoDup(d)
    modifies tiers
    ensures done == Take(Within(d, Movable(t, selected[sbase..sbase + count], tbase, tier)), occupied - capacity)
    ensures tiers[tbase..tbase + n] == SetAll(t, done, tier + 1) && moved == |done| && left == occupied - moved
    ensures tiers[..tbase] == old(tiers[..tbase]) && tiers[tbase + n..] == old(tiers[tbase + n..])
  {
    ghost var m := Movable(t, selected[sbase..sbase + count], tbase, tier);
    left, moved, done := occupied, 0, [];
    var i := n - 1;
    assert SetAll(t, [], tier + 1) == t && d[..0] == [];
    while i >= 0 && left > capacity
      invariant -1 <= i < n && moved == |done|
      invariant Scanned(d, m, n - 1 - i, occupied, capacity, left, done)
      invariant tiers[tbase..tbase + n] == SetAll(t, done, tier + 1)
      invariant tiers[..tbase] == old(tiers[..tbase]) && tiers[tbase + n..] == old(tiers[tbase + n..])
    {
      ScannedNext(d, m, n - 1 - i, occupied, capacity, left, done);
      var down := DemoteAt(selected, sbase, count, tiers, tbase, n, tier, i, t, done);
      if down {
        left, moved, done := left - 1, moved + 1, done + [i];
      }
      i := i - 1;
    }
    ScanIsTake(d, m, n - 1 - i, occupied - capacity);
  }

  /** A demotion pass. */
  method DemotePass(selected: array<int>, sbase: nat, count: nat, tiers: array<int>, tbase: nat, n: nat,
                    tier: int, capacity: int, occupied: int)
    returns (left: int, moved: nat)
    requires selected != tiers && sbase + count <= selected.Length && tbase + n <= tiers.Length
    requires occupied == CountTier(tiers[tbase..tbase + n], tier)
    modifies tiers
    ensures var t, row := old(tiers[tbase..tbase + n]), selected[sbase..sbase + count];
      && tiers[tbase..tbase + n] == Demote(t, row, tbase, tier, capacity)
      && moved == |Pushed(t, row, tbase, tier, capacity)| && left == occupied - moved
    ensures tiers[..tbase] == old(tiers[..tbase]) && tiers[tbase + n..] == old(tiers[tbase + n..])
  {
    ghost var t, done := tiers[tbase..tbase + n], [];
    left, moved, done := DemoteScan(selected, sbase, count, tiers, tbase, n, tier, capacity, occupied, t, Down(n));
  }

  /** `kv_tier_residency_kernel` for the request whose selection starts at `sbase` and whose pages start at `tbase`. */
  method RebalanceTiers(selected: array<int>, sbase: nat, count: nat, tiers: array<int>, tbase: nat, n: nat,
                        hbmCap: int, dramCap: int, bytesPerPage: int)
    returns (metric: TierMetrics, bytesPromoted: int, bytesDemoted: int)
    requires selected != tiers && sbase + count <= selected.Length && tbase + n <= tiers.Length
    modifies tiers
    ensures var t, row := old(tiers[tbase..tbase + n]), selected[sbase..sbase + count];
      var u := tiers[tbase..tbase + n];
      && u == Rebalanced(t, row, tbase, hbmCap, dramCap)
      && metric == MetricsFor(t, row, tbase, hbmCap, dramCap)
    ensures tiers[..tbase] == old(tiers[..tbase]) && tiers[tbase + n..] == old(tiers[tbase + n..])
    ensures bytesPromoted == (metric.toHbm + metric.toDram) * bytesPerPage
    ensures bytesDemoted == (metric.downToDram + metric.downToSsd) * bytesPerPage
  {
    var toHbm, toDram := PromoteListed(selected, sbase, count, tiers, tbase, n);
    var hbm, dram, ssd := CountTiers(tiers, tbase, n);
    ghost var row, p := selected[sbase..sbase + count], tiers[tbase..tbase + n];
    var down: nat, further: nat;
    hbm, down := DemotePass(selected, sbase, count, tiers, tbase, n, HBM, hbmCap, hbm);
    dram := dram + down;
    DemoteCounts(p, row, tbase, HBM, hbmCap);
    dram, further := DemotePass(selected, sbase, count, tiers, tbase, n, DRAM, dramCap, dram);
    ssd := ssd + further;
    metric := TierMetrics(toHbm, toDram, down, further, toHbm + toDram + down + further, hbm, dram, ssd);
    bytesPromoted, bytesDemoted := (toHbm + toDram) * bytesPerPage, (down + further) * bytesPerPage;
  }

  function MetricsFor(t: seq<int>, row: seq<int>, base: int, hbmCap: int, dramCap: int): TierMetrics {
    var p := PromoteAll(t, base, row);
    var q := Demote(p, row, base, HBM, hbmCap);
    var toHbm, toDram := Rises(t, base, row, DRAM), Rises(t, base, row, SSD);
    var down, further := |Pushed(p, row, base, HBM, hbmCap)|, |Pushed(q, row, base, DRAM, dramCap)|;
    TierMetrics(toHbm, toDram, down, further, toHbm + toDram + down + further,
                CountTier(p, HBM) - down, CountTier(p, DRAM) + down - further,
                |t| - CountTier(p, HBM) - CountTier(p, DRAM) + further)
  }

  lemma DemoteCounts(t: seq<int>, row: seq<int>, base: int, tier: int, capacity: int)
    ensures var u, k := Demote(t, row, base, tier, capacity), |Pushed(t, row, base, tier, capacity)|;
      && CountTier(u, tier) == CountTier(t, tier) - k && CountTier(u, tier + 1) == CountTier(t, tier + 1) + k
      && SumTiers(u) == SumTiers(t) + k
  {
    var v := Pushed(t, row, base, tier, capacity);
    PushedFacts(t, row, base, tier, capacity);
    SetAllCounts(t, v, tier, tier + 1, tier);
    SetAllCounts(t, v, tier, tier + 1, tier + 1);
  }

  lemma DemoteKeepsOthers(t: seq<int>, row: seq<int>, base: int, tier: int, capacity: int, other: int)
    requires other != tier && other != tier + 1
    ensures CountTier(Demote(t, row, base, tier, capacity), other) == CountTier(t, other)
  {
    PushedFacts(t, row, base, tier, capacity);
    SetAllCounts(t, Pushed(t, row, base, tier, capacity), tier, tier + 1, other);
  }

  // ----------------------------------------------------------------------- results

  /**
   For any row: a selected page ends higher by the number of times it is listed, at
   best in HBM, and is never demoted; a page that is not selected never rises.
   */
  lemma ListedRise(t: seq<int>, row: seq<int>, base: nat, hbmCap: int, dramCap: int, i: nat)
    requires i < |t| && t[i] in {HBM, DRAM, SSD}
    ensures var u := Rebalanced(t, row, base, hbmCap, dramCap);
      if IsSelected(row, base, i) then u[i] == Max(0, t[i] - Listed(row, base, i)) else t[i] <= u[i] <= SSD
  {
    var p := PromoteAll(t, base, row);
    PromotionsAdd(t, base, row, i);
    ListedIfSelected(row, base, i);
    DemotedOnce(p, row, base, HBM, hbmCap, i);
    DemotedOnce(Demote(p, row, base, HBM, hbmCap), row, base, DRAM, dramCap, i);
  }

  /** A demotion pass leaves selected pages alone, and moves others down one tier from `tier`, or not at all. */
  lemma DemotedOnce(t: seq<int>, row: seq<int>, base: int, tier: int, capacity: int, i: nat)
    requires i < |t|
    ensures var v := Demote(t, row, base, tier, capacity)[i];
      v == t[i] || (v == t[i] + 1 == tier + 1 && !IsSelected(row, base, i))
  {
    PushedFacts(t, row, base, tier, capacity);
  }

  lemma {:induction false} ListedIfSelected(row: seq<int>, base: nat, i: nat)
    ensures Listed(row, base, i) > 0 <==> IsSelected(row, base, i)
  {
    if row != [] {
      var k := |row| - 1;
      assert row == row[..k] + [row[k]];
      ListedIfSelected(row[..k], base, i);
    }
  }

  /** No page is selected twice; the padding of a row may repeat. */
  ghost predicate PagesDistinct(row: seq<int>) {
    forall a, b :: 0 <= a < b < |row| && row[a] >= 0 ==> row[a] != row[b]
  }

  /**
   With no page selected twice: a selected page ends one tier higher, at best HBM,
   and is never demoted; a page that is not selected never rises.
   */
  lemma SelectedRise(t: seq<int>, row: seq<int>, base: nat, hbmCap: int, dramCap: int, i: nat)
    requires i < |t| && t[i] in {HBM, DRAM, SSD} && PagesDistinct(row)
    ensures var u := Rebalanced(t, row, base, hbmCap, dramCap);
      if IsSelected(row, base, i) then u[i] == Max(0, t[i] - 1) else t[i] <= u[i] <= SSD
  {
    ListedRise(t, row, base, hbmCap, dramCap, i);
    ListedOnce(row, base, i);
  }

  lemma {:induction false} ListedOnce(row: seq<int>, base: nat, i: nat)
    requires PagesDistinct(row)
    ensures Listed(row, base, i) == if IsSelected(row, base, i) then 1 else 0
  {
    if row != [] {
      var k := |row| - 1;
      assert row == row[..k] + [row[k]];
      ListedOnce(row[..k], base, i);
    }
  }

  /** HBM and DRAM each end within capacity, or hold only selected pages. */
  lemma WithinCapacityOrSelected(t: seq<int>, row: seq<int>, base: int, hbmCap: int, dramCap: int)
    ensures var u := Rebalanced(t, row, base, hbmCap, dramCap);
      && (CountTier(u, HBM) <= hbmCap || forall i :: 0 <= i < |u| && u[i] == HBM ==> IsSelected(row, base, i))
      && (CountTier(u, DRAM) <= dramCap || forall i :: 0 <= i < |u| && u[i] == DRAM ==> IsSelected(row, base, i))
  {
    var p := PromoteAll(t, base, row);
    var q := Demote(p, row, base, HBM, hbmCap);
    PushedFacts(p, row, base, HBM, hbmCap);
    DemoteCounts(p, row, base, HBM, hbmCap);
    PushedFacts(q, row, base, DRAM, dramCap);
    DemoteCounts(q, row, base, DRAM, dramCap);
    DemoteKeepsOthers(q, row, base, DRAM, dramCap, HBM);
  }

  /** No page is demoted without need: whoever is pushed down leaves a tier that is still at capacity or above. */
  lemma NoNeedlessDemotion(t: seq<int>, row: seq<int>, base: int, hbmCap: int, dramCap: int)
    ensures var u, m := Rebalanced(t, row, base, hbmCap, dramCap), MetricsFor(t, row, base, hbmCap, dramCap);
      (m.downToDram > 0 ==> CountTier(u, HBM) >= hbmCap) && (m.downToSsd > 0 ==> CountTier(u, DRAM) >= dramCap)
  {
    var p := PromoteAll(t, base, row);
    var q := Demote(p, row, base, HBM, hbmCap);
    PushedFacts(p, row, base, HBM, hbmCap);
    PushedFacts(q, row, base, DRAM, dramCap);
    DemoteCounts(p, row, base, HBM, hbmCap);
    DemoteCounts(q, row, base, DRAM, dramCap);
    DemoteKeepsOthers(q, row, base, DRAM, dramCap, HBM);
  }

  /** The reported counts are the true ones, and the tiers' sum moves by demotions minus promotions. */
  lemma CountsAreTrue(t: seq<int>, row: seq<int>, base: int, hbmCap: int, dramCap: int)
    requires Tiered(t)
    ensures var u, m := Rebalanced(t, row, base, hbmCap, dramCap), MetricsFor(t, row, base, hbmCap, dramCap);
      && m.finalHbm == CountTier(u, HBM) && m.finalDram == CountTier(u, DRAM) && m.finalSsd == CountTier(u, SSD)
      && SumTiers(u) - SumTiers(t) == m.downToDram + m.downToSsd - m.toHbm - m.toDram
      && m.rebalanced == m.toHbm + m.toDram + m.downToDram + m.downToSsd
  {
    var p := PromoteAll(t, base, row);
    PromotionSum(t, base, row);
    PromotedTiers(t, base, row);
    ThreeTiers(p);
    DemoteTwice(p, row, base, hbmCap, dramCap);
  }

  /** The pages listed often enough to pass from a tier to the one above. */
  ghost function Passing(t: seq<int>, base: int, row: seq<int>, from: int): set<int> {
    set i | 0 <= i < |t| && t[i] >= from && Listed(row, base, i) > t[i] - from
  }

  /** A promotion from a tier is counted once for each page that passes it. */
  lemma {:induction false} RisesArePassings(t: seq<int>, base: nat, row: seq<int>, from: int)
    requires Tiered(t) && from in {DRAM, SSD}
    ensures Rises(t, base, row, from) == |Passing(t, base, row, from)|
  {
    if row == [] {
      assert Passing(t, base, row, from) == {};
    } else {
      var k := |row| - 1;
      var i := row[k] - base;
      RisesArePassings(t, base, row[..k], from);
      PassingNext(t, base, row, from);
      if row[k] >= 0 && 0 <= i < |t| {
        PromotionsAdd(t, base, row[..k], i);
      }
    }
  }

  lemma PassingNext(t: seq<int>, base: nat, row: seq<int>, from: int)
    requires row != []
    ensures var k := |row| - 1;
      var i, less := row[k] - base, Passing(t, base, row[..k], from);
      Passing(t, base, row, from) ==
        if row[k] >= 0 && 0 <= i < |t| && t[i] >= from && t[i] - Listed(row[..k], base, i) == from
        then less + {i} else less
  {}

  lemma {:induction false} PromotionCounts(t: seq<int>, base: int, row: seq<int>)
    ensures var p, toHbm, toDram := PromoteAll(t, base, row), Rises(t, base, row, DRAM), Rises(t, base, row, SSD);
      && CountTier(p, HBM) == CountTier(t, HBM) + toHbm && CountTier(p, DRAM) == CountTier(t, DRAM) + toDram - toHbm
      && CountTier(p, SSD) == CountTier(t, SSD) - toDram
  {
    if row != [] {
      PromotionCounts(t, base, row[..|row| - 1]);
      var p, id := PromoteAll(t, base, row[..|row| - 1]), row[|row| - 1];
      if id >= 0 && 0 <= id - base < |t| {
        UpdateCounts(p, id - base, Promoted(p[id - base]), HBM);
        UpdateCounts(p, id - base, Promoted(p[id - base]), DRAM);
        UpdateCounts(p, id - base, Promoted(p[id - base]), SSD);
      }
    }
  }

  /**
   Every reported movement is a real one. The pages that passed from SSD and from DRAM
   are those listed often enough, and each tier ends with what it had, plus what came
   in from the tiers beside it, minus what went out to them.
   */
  lemma MovesBalance(t: seq<int>, row: seq<int>, base: nat, hbmCap: int, dramCap: int)
    requires Tiered(t)
    ensures var u, m := Rebalanced(t, row, base, hbmCap, dramCap), MetricsFor(t, row, base, hbmCap, dramCap);
      && m.toHbm == |Passing(t, base, row, DRAM)| && m.toDram == |Passing(t, base, row, SSD)|
      && CountTier(u, HBM) == CountTier(t, HBM) + m.toHbm - m.downToDram
      && CountTier(u, DRAM) == CountTier(t, DRAM) + m.toDram - m.toHbm + m.downToDram - m.downToSsd
      && CountTier(u, SSD) == CountTier(t, SSD) - m.toDram + m.downToSsd
  {
    RisesArePassings(t, base, row, DRAM);
    RisesArePassings(t, base, row, SSD);
    PromotionCounts(t, base, row);
    DemoteTwice(PromoteAll(t, base, row), row, base, hbmCap, dramCap);
  }

  predicate Tiered(t: seq<int>) { forall i :: 0 <= i < |t| ==> HBM <= t[i] <= SSD }

  lemma PromotedTiers(t: seq<int>, base: int, row: seq<int>)
    requires Tiered(t)
    ensures Tiered(PromoteAll(t, base, row))
  {
    forall i: nat | i < |t| ensures HBM <= PromoteAll(t, base, row)[i] <= SSD {
      PromotionsAdd(t, base, row, i);
    }
  }

  lemma DemoteTwice(p: seq<int>, row: seq<int>, base: int, hbmCap: int, dramCap: int)
    ensures var q := Demote(p, row, base, HBM, hbmCap);
      var u := Demote(q, row, base, DRAM, dramCap);
      var down, further := |Pushed(p, row, base, HBM, hbmCap)|, |Pushed(q, row, base, DRAM, dramCap)|;
      && CountTier(u, HBM) == CountTier(p, HBM) - down && CountTier(u, DRAM) == CountTier(p, DRAM) + down - further
      && CountTier(u, SSD) == CountTier(p, SSD) + further && SumTiers(u) == SumTiers(p) + down + further
  {
    var q := Demote(p, row, base, HBM, hbmCap);
    DemoteCounts(p, row, base, HBM, hbmCap);
    DemoteKeepsOthers(p, row, base, HBM, hbmCap, SSD);
    DemoteCounts(q, row, base, DRAM, dramCap);
    DemoteKeepsOthers(q, row, base, DRAM, dramCap, HBM);
  }

  lemma {:induction false} ThreeTiers(t: seq<int>)
    requires Tiered(t)
    ensures CountTier(t, HBM) + CountTier(t, DRAM) + CountTier(t, SSD) == |t|
  {
    if t != [] {
      ThreeTiers(t[..|t| - 1]);
    }
  }

  /** Demotion takes the last movable pages: any later movable page of the tier goes first. */
  lemma LastPagesGoFirst(t: seq<int>, row: seq<int>, base: int, tier: int, capacity: int, i: int, j: int)
    requires i in Pushed(t, row, base, tier, capacity) && j in Movable(t, row, base, tier) && i < j
    ensures j in Pushed(t, row, base, tier, capacity)
  {
    var d, m := Down(|t|), Movable(t, row, base, tier);
    var all, v := Within(d, m), Pushed(t, row, base, tier, capacity);
    MovableList(t, row, base, tier);
    var a :| 0 <= a < |v| && v[a] == i;
    assert all[a] == i && j in all;
    var b :| 0 <= b < |all| && all[b] == j;
    if b > a {
      DownKeepsOrder(d, m, a, b);
    }
    assert b != a ==> b < a;
    assert v[b] == j;
  }

  lemma {:induction false} DownKeepsOrder(d: seq<int>, m: set<int>, a: nat, b: nat)
    requires forall i, j :: 0 <= i < j < |d| ==> d[i] > d[j]
    requires a < b < |Within(d, m)|
    ensures Within(d, m)[a] > Within(d, m)[b]
  {
    var k := |d| - 1;
    if b < |Within(d[..k], m)| {
      DownKeepsOrder(d[..k], m, a, b);
    } else {
      WithinMember(d[..k], m);
      var x := Within(d[..k], m)[a];
      assert x in Within(d[..k], m) && x in d[..k];
    }
  }
}
