/** Planning where selected pages come from, and staging them tier by tier through two alternating buffer slots. */
module MovementPlan {
  import opened Arithmetic
  import opened Sequences

  const NO_TIER := -1
  const HBM := 0
  const DRAM := 1
  const SSD := 2

  const NO_OP := 0
  const DRAM_TO_HBM := 1
  const SSD_TO_HBM := 2

  datatype PlanMetrics = PlanMetrics(
    planned: nat, hbmHits: nat, dramFetches: nat, ssdFetches: nat, dmaOps: nat, bytesMoved: int,
    bytesFromHbm: int, bytesFromDram: int, bytesFromSsd: int)

  datatype StagingMetrics = StagingMetrics(staged: nat, hbmStaged: nat, dmaStaged: nat, switches: nat, bytes: int)

  /** Outside the `n` entries from `base` on nothing differs. */
  ghost predicate SameAround(s: seq<int>, t: seq<int>, base: nat, n: nat) {
    |s| == |t| && forall j :: 0 <= j < |s| && !(base <= j < base + n) ==> t[j] == s[j]
  }

  // -------------------------------------------------------------------------- plan

  /** `classify_page_tier`. */
  function ClassifyTier(id: int): (t: int)
    ensures t == NO_TIER <==> id < 0
    ensures NO_TIER <= t <= SSD
  {
    if id < 0 then NO_TIER else if id % 5 <= 1 then HBM else if id % 5 <= 3 then DRAM else SSD
  }

  function MoveOp(id: int): int {
    var t := ClassifyTier(id);
    if t == DRAM then DRAM_TO_HBM else if t == SSD then SSD_TO_HBM else NO_OP
  }

  function PlannedTiers(row: seq<int>): (t: seq<int>)
    ensures |t| == |row| && forall i :: 0 <= i < |row| ==> t[i] == ClassifyTier(row[i])
  {
    seq(|row|, i requires 0 <= i < |row| => ClassifyTier(row[i]))
  }

  /** How many pages of the row the plan takes from a tier. */
  function FromTier(row: seq<int>, tier: int): nat {
    if row == [] then 0 else FromTier(row[..|row| - 1], tier) + if ClassifyTier(row[|row| - 1]) == tier then 1 else 0
  }

  lemma FromTierSnoc(row: seq<int>, i: nat, tier: int)
    requires i < |row|
    ensures FromTier(row[..i + 1], tier) == FromTier(row[..i], tier) + if ClassifyTier(row[i]) == tier then 1 else 0
  {
    assert row[..i + 1][..i] == row[..i];
  }

  ghost predicate PlanCounts(m: PlanMetrics, row: seq<int>, bytesPerPage: int) {
    && m.hbmHits == FromTier(row, HBM) && m.dramFetches == FromTier(row, DRAM) && m.ssdFetches == FromTier(row, SSD)
    && m.dmaOps == m.dramFetches + m.ssdFetches && m.planned == m.hbmHits + m.dmaOps
    && m.bytesMoved == Times(bytesPerPage, m.dmaOps) && m.bytesFromHbm == Times(bytesPerPage, m.hbmHits)
    && m.bytesFromDram == Times(bytesPerPage, m.dramFetches) && m.bytesFromSsd == Times(bytesPerPage, m.ssdFetches)
  }

  /** One page planned: its tier, how it gets to HBM, and the counters. */
  method PlanOne(row: seq<int>, i: nat, m0: PlanMetrics, bytesPerPage: int) returns (tier: int, op: int, m: PlanMetrics)
    requires i < |row| && PlanCounts(m0, row[..i], bytesPerPage)
    ensures tier == ClassifyTier(row[i]) && op == MoveOp(row[i]) && PlanCounts(m, row[..i + 1], bytesPerPage)
  {
    FromTierSnoc(row, i, HBM);
    FromTierSnoc(row, i, DRAM);
    FromTierSnoc(row, i, SSD);
    m, op := m0, NO_OP;
    tier := ClassifyTier(row[i]);
    if row[i] < 0 {
      return;
    }
    m := m.(planned := m.planned + 1);
    if tier == HBM {
      m := m.(hbmHits := m.hbmHits + 1, bytesFromHbm := m.bytesFromHbm + bytesPerPage);
    } else if tier == DRAM {
      op := DRAM_TO_HBM;
      m := m.(dramFetches := m.dramFetches + 1, dmaOps := m.dmaOps + 1, bytesMoved := m.bytesMoved + bytesPerPage,
              bytesFromDram := m.bytesFromDram + bytesPerPage);
    } else {
      op := SSD_TO_HBM;
      m := m.(ssdFetches := m.ssdFetches + 1, dmaOps := m.dmaOps + 1, bytesMoved := m.bytesMoved + bytesPerPage,
              bytesFromSsd := m.bytesFromSsd + bytesPerPage);
    }
  }

  /** `dma_aware_kv_movement_planner_kernel` for the row that starts at `base`. */
  method PlanMovement(selected: array<int>, base: nat, n: nat, bytesPerPage: int, tiers: array<int>, ops: array<int>)
    returns (m: PlanMetrics)
    requires selected != tiers && selected != ops && tiers != ops
    requires base + n <= selected.Length && base + n <= tiers.Length && base + n <= ops.Length
    modifies tiers, ops
    ensures var row := selected[base..base + n];
      && tiers[base..base + n] == PlannedTiers(row) && PlanCounts(m, row, bytesPerPage)
      && (forall i :: 0 <= i < n ==> ops[base + i] == MoveOp(row[i]))
    ensures SameAround(old(tiers[..]), tiers[..], base, n) && SameAround(old(ops[..]), ops[..], base, n)
  {
    m := PlanMetrics(0, 0, 0, 0, 0, 0, 0, 0, 0);
    var row := selected[base..base + n];
    for i := 0 to n
      invariant forall j :: 0 <= j < i ==> tiers[base + j] == ClassifyTier(row[j]) && ops[base + j] == MoveOp(row[j])
      invariant PlanCounts(m, row[..i], bytesPerPage)
      invariant SameAround(old(tiers[..]), tiers[..], base, n) && SameAround(old(ops[..]), ops[..], base, n)
    {
      tiers[base + i], ops[base + i], m := PlanOne(row, i, m, bytesPerPage);
    }
    assert row[..n] == row;
  }

  // ------------------------------------------------------------------------ staging

  function TierSet(row: seq<int>, tiers: seq<int>, tier: int): set<int>
    requires |row| == |tiers|
  {
    set i | 0 <= i < |row| && row[i] >= 0 && tiers[i] == tier
  }

  /** The row's positions on a tier, in order. */
  function OnTier(row: seq<int>, tiers: seq<int>, tier: int): seq<int>
    requires |row| == |tiers|
  {
    Within(Range(0, |row|), TierSet(row, tiers, tier))
  }

  /** The staging order: HBM, then DRAM, then SSD, each in row order. */
  function StagingOrder(row: seq<int>, tiers: seq<int>): seq<int>
    requires |row| == |tiers|
  {
    OnTier(row, tiers, HBM) + OnTier(row, tiers, DRAM) + OnTier(row, tiers, SSD)
  }

  /** Output entry `j` when the positions in `order` have been staged: page, tier and buffer slot, or nothing. */
  ghost predicate StagedAs(row: seq<int>, tiers: seq<int>, order: seq<int>, ids: seq<int>, outTiers: seq<int>,
                           slots: seq<int>)
    requires |row| == |tiers|
  {
    && |ids| == |outTiers| == |slots| == |row| && |order| <= |row|
    && forall j :: 0 <= j < |row| ==>
         if j < |order| && 0 <= order[j] < |row|
         then ids[j] == row[order[j]] && outTiers[j] == tiers[order[j]] && slots[j] == j % 2
         else ids[j] == -1 && outTiers[j] == NO_TIER && slots[j] == -1
  }

  ghost predicate StagingCounts(m: StagingMetrics, order: seq<int>, hbm: nat, bytesPerPage: int) {
    && m.staged == |order| && m.hbmStaged == hbm && m.hbmStaged + m.dmaStaged == m.staged
    && m.switches == Max(0, |order| - 1) && m.bytes == Times(bytesPerPage, m.staged)
  }

  lemma OnTierFacts(row: seq<int>, tiers: seq<int>, tier: int)
    requires |row| == |tiers|
    ensures NoDup(OnTier(row, tiers, tier))
    ensures forall i :: i in OnTier(row, tiers, tier) <==> i in TierSet(row, tiers, tier)
  {
    var d := TierSet(row, tiers, tier);
    WithinMember(Range(0, |row|), d);
    WithinNoDup(Range(0, |row|), d);
    forall i | i in d ensures i in Range(0, |row|) {
      RangeMember(0, |row|, i);
    }
  }

  /** The staging order lists each page of a known tier once. */
  lemma StagingOrderFacts(row: seq<int>, tiers: seq<int>)
    requires |row| == |tiers|
    ensures NoDup(StagingOrder(row, tiers)) && |StagingOrder(row, tiers)| <= |row|
    ensures forall i :: i in StagingOrder(row, tiers) <==> 0 <= i < |row| && row[i] >= 0 && HBM <= tiers[i] <= SSD
  {
    OnTierFacts(row, tiers, HBM);
    OnTierFacts(row, tiers, DRAM);
    OnTierFacts(row, tiers, SSD);
    var a, b, c := OnTier(row, tiers, HBM), OnTier(row, tiers, DRAM), OnTier(row, tiers, SSD);
    ConcatNoDup(a, b);
    ConcatNoDup(a + b, c);
    DistinctBelow(a + b + c, |row|);
  }

  /** The three output rows. */
  ghost predicate Rows(ids: array<int>, outTiers: array<int>, slots: array<int>, base: nat, n: nat) {
    && ids != outTiers && ids != slots && outTiers != slots
    && base + n <= ids.Length && base + n <= outTiers.Length && base + n <= slots.Length
  }

  /** A staging step writes inside its own rows only. */
  twostate predicate InRow(ids: array<int>, outTiers: array<int>, slots: array<int>, base: nat, n: nat)
    reads ids, outTiers, slots
  {
    && SameAround(old(ids[..]), ids[..], base, n) && SameAround(old(outTiers[..]), outTiers[..], base, n)
    && SameAround(old(slots[..]), slots[..], base, n)
  }

  method ClearRows(ids: array<int>, outTiers: array<int>, slots: array<int>, base: nat, n: nat)
    requires Rows(ids, outTiers, slots, base, n)
    modifies ids, outTiers, slots
    ensures forall j :: base <= j < base + n ==> ids[j] == -1 && outTiers[j] == NO_TIER && slots[j] == -1
    ensures InRow(ids, outTiers, slots, base, n)
  {
    for i := 0 to n
      invariant InRow(ids, outTiers, slots, base, n)
      invariant forall j :: base <= j < base + i ==> ids[j] == -1 && outTiers[j] == NO_TIER && slots[j] == -1
    {
      ids[base + i], outTiers[base + i], slots[base + i] := -1, NO_TIER, -1;
    }
  }

  /** The slot used last, given what has been staged. */
  function LastSlot(order: seq<int>): int { if order == [] then -1 else (|order| - 1) % 2 }

  /** The output rows and the counters after the positions in `order`, `hbm` of them from HBM. */
  ghost predicate StagedSoFar(row: seq<int>, tiers: seq<int>, order: seq<int>, ids: array<int>, outTiers: array<int>,
                              slots: array<int>, base: nat, m: StagingMetrics, slot: int, bytesPerPage: int, hbm: nat)
    reads ids, outTiers, slots
  {
    && |row| == |tiers| && Rows(ids, outTiers, slots, base, |row|)
    && StagedAs(row, tiers, order, ids[base..base + |row|], outTiers[base..base + |row|], slots[base..base + |row|])
    && StagingCounts(m, order, hbm, bytesPerPage) && slot == LastSlot(order)
  }

  /** One page takes the next place and the other buffer slot. */
  method StageOne(row: seq<int>, tiers: seq<int>, i: nat, ids: array<int>, outTiers: array<int>, slots: array<int>,
                  base: nat, ghost order: seq<int>, m: StagingMetrics, previousSlot: int, bytesPerPage: int,
                  ghost hbm: nat)
    returns (next: StagingMetrics, slot: int)
    requires i < |row| && |order| < |row|
    requires StagedSoFar(row, tiers, order, ids, outTiers, slots, base, m, previousSlot, bytesPerPage, hbm)
    modifies ids, outTiers, slots
    ensures StagedSoFar(row, tiers, order + [i], ids, outTiers, slots, base, next, slot, bytesPerPage,
                        if tiers[i] == HBM then hbm + 1 else hbm)
    ensures InRow(ids, outTiers, slots, base, |row|)
  {
    var out := m.staged;
    slot := out % 2;
    ids[base + out], outTiers[base + out], slots[base + out] := row[i], tiers[i], slot;
    next := m.(staged := m.staged + 1, bytes := m.bytes + bytesPerPage);
    if tiers[i] == HBM {
      next := next.(hbmStaged := m.hbmStaged + 1);
    } else {
      next := next.(dmaStaged := m.dmaStaged + 1);
    }
    if previousSlot >= 0 && previousSlot != slot {
      next := next.(switches := m.switches + 1);
    }
  }

  lemma OnTierSnoc(row: seq<int>, tiers: seq<int>, tier: int, i: nat)
    requires |row| == |tiers| && i < |row|
    ensures var d := TierSet(row, tiers, tier);
      Within(Range(0, i + 1), d) == if i in d then Within(Range(0, i), d) + [i] else Within(Range(0, i), d)
  {
    assert Range(0, i + 1) == Range(0, i) + [i];
    WithinSnoc(Range(0, i), i, TierSet(row, tiers, tier));
  }

  /** The order after tiers below `wanted` and the first `i` positions of `wanted`. */
  ghost function StagedUpTo(row: seq<int>, tiers: seq<int>, wanted: int, i: nat): seq<int>
    requires |row| == |tiers| && HBM <= wanted <= SSD
  {
    (if wanted == HBM then [] else if wanted == DRAM then OnTier(row, tiers, HBM)
     else OnTier(row, tiers, HBM) + OnTier(row, tiers, DRAM))
    + Within(Range(0, i), TierSet(row, tiers, wanted))
  }

  lemma StagedUpToFacts(row: seq<int>, tiers: seq<int>, wanted: int, i: nat)
    requires |row| == |tiers| && HBM <= wanted <= SSD && i <= |row|
    ensures NoDup(StagedUpTo(row, tiers, wanted, i)) && |StagedUpTo(row, tiers, wanted, i)| <= |row|
    ensures i < |row| && i in TierSet(row, tiers, wanted) ==>
      i !in StagedUpTo(row, tiers, wanted, i) && |StagedUpTo(row, tiers, wanted, i)| < |row|
  {
    OnTierFacts(row, tiers, HBM);
    OnTierFacts(row, tiers, DRAM);
    var d := TierSet(row, tiers, wanted);
    var part := Within(Range(0, i), d);
    WithinMember(Range(0, i), d);
    WithinNoDup(Range(0, i), d);
    forall x | x in part ensures x in d && x < i {
      RangeMember(0, i, x);
    }
    var a, b := OnTier(row, tiers, HBM), OnTier(row, tiers, DRAM);
    if wanted == DRAM {
      ConcatNoDup(a, part);
    } else if wanted == SSD {
      ConcatNoDup(a, b);
      ConcatNoDup(a + b, part);
    }
    var order := StagedUpTo(row, tiers, wanted, i);
    assert wanted == HBM ==> order == part;
    DistinctBelow(order, |row|);
    if i < |row| && i in d {
      RoomForOne(order, |row|, i);
    }
  }

  /** How many HBM pages are staged by the time `wanted` has been looked for in the first `i` positions. */
  ghost function HbmSoFar(row: seq<int>, tiers: seq<int>, wanted: int, i: nat): nat
    requires |row| == |tiers|
  {
    if wanted == HBM then |Within(Range(0, i), TierSet(row, tiers, HBM))| else |OnTier(row, tiers, HBM)|
  }

  /** What one more position adds to the staging order. */
  lemma StagedUpToNext(row: seq<int>, tiers: seq<int>, wanted: int, i: nat)
    requires |row| == |tiers| && HBM <= wanted <= SSD && i < |row|
    ensures var order, next := StagedUpTo(row, tiers, wanted, i), StagedUpTo(row, tiers, wanted, i + 1);
      if row[i] >= 0 && tiers[i] == wanted
      then next == order + [i] && |order| < |row|
           && HbmSoFar(row, tiers, wanted, i + 1) == HbmSoFar(row, tiers, wanted, i) + if wanted == HBM then 1 else 0
      else next == order && HbmSoFar(row, tiers, wanted, i + 1) == HbmSoFar(row, tiers, wanted, i)
  {
    OnTierSnoc(row, tiers, wanted, i);
    StagedUpToFacts(row, tiers, wanted, i);
  }

  /** The pass over the row for one tier. */
  method StageTier(row: seq<int>, tiers: seq<int>, wanted: int, ids: array<int>, outTiers: array<int>,
                   slots: array<int>, base: nat, m0: StagingMetrics, previous: int, bytesPerPage: int)
    returns (m: StagingMetrics, slot: int)
    requires |row| == |tiers| && HBM <= wanted <= SSD
    requires StagedSoFar(row, tiers, StagedUpTo(row, tiers, wanted, 0), ids, outTiers, slots, base, m0, previous,
                         bytesPerPage, HbmSoFar(row, tiers, wanted, 0))
    modifies ids, outTiers, slots
    ensures StagedSoFar(row, tiers, StagedUpTo(row, tiers, wanted, |row|), ids, outTiers, slots, base, m, slot,
                        bytesPerPage, HbmSoFar(row, tiers, wanted, |row|))
    ensures InRow(ids, outTiers, slots, base, |row|)
  {
    m, slot := m0, previous;
    ghost var order, hbm := StagedUpTo(row, tiers, wanted, 0), HbmSoFar(row, tiers, wanted, 0);
    for i := 0 to |row|
      invariant order == StagedUpTo(row, tiers, wanted, i) && hbm == HbmSoFar(row, tiers, wanted, i)
      invariant StagedSoFar(row, tiers, order, ids, outTiers, slots, base, m, slot, bytesPerPage, hbm)
      invariant InRow(ids, outTiers, slots, base, |row|)
    {
      StagedUpToNext(row, tiers, wanted, i);
      if row[i] < 0 || tiers[i] != wanted { continue; }
      m, slot := StageOne(row, tiers, i, ids, outTiers, slots, base, order, m, slot, bytesPerPage, hbm);
      order, hbm := order + [i], if wanted == HBM then hbm + 1 else hbm;
    }
  }

  /** One tier's pass ends where the next begins, and the last one ends the staging order. */
  lemma PassesMeet(row: seq<int>, tiers: seq<int>)
    requires |row| == |tiers|
    ensures StagedUpTo(row, tiers, HBM, 0) == []
    ensures StagedUpTo(row, tiers, HBM, |row|) == StagedUpTo(row, tiers, DRAM, 0)
    ensures StagedUpTo(row, tiers, DRAM, |row|) == StagedUpTo(row, tiers, SSD, 0)
    ensures StagedUpTo(row, tiers, SSD, |row|) == StagingOrder(row, tiers)
    ensures HbmSoFar(row, tiers, HBM, 0) == 0
  {
    assert Range(0, 0) == [];
  }

  /** `tiered_kv_staging_kernel` for the row that starts at `base`. */
  method StageRow(selected: array<int>, sourceTiers: array<int>, base: nat, n: nat, bytesPerPage: int,
                  ids: array<int>, outTiers: array<int>, slots: array<int>)
    returns (m: StagingMetrics)
    requires Rows(ids, outTiers, slots, base, n) && base + n <= selected.Length && base + n <= sourceTiers.Length
    requires ids != selected && ids != sourceTiers && outTiers != selected && outTiers != sourceTiers
    requires slots != selected && slots != sourceTiers
    modifies ids, outTiers, slots
    ensures var row, tiers := selected[base..base + n], sourceTiers[base..base + n];
      && StagedAs(row, tiers, StagingOrder(row, tiers), ids[base..base + n], outTiers[base..base + n],
                  slots[base..base + n])
      && StagingCounts(m, StagingOrder(row, tiers), |OnTier(row, tiers, HBM)|, bytesPerPage)
    ensures InRow(ids, outTiers, slots, base, n)
  {
    ClearRows(ids, outTiers, slots, base, n);
    var row, tiers := selected[base..base + n], sourceTiers[base..base + n];
    var slot := -1;
    m := StagingMetrics(0, 0, 0, 0, 0);
    PassesMeet(row, tiers);
    m, slot := StageTier(row, tiers, HBM, ids, outTiers, slots, base, m, slot, bytesPerPage);
    m, slot := StageTier(row, tiers, DRAM, ids, outTiers, slots, base, m, slot, bytesPerPage);
    m, slot := StageTier(row, tiers, SSD, ids, outTiers, slots, base, m, slot, bytesPerPage);
  }

  // ------------------------------------------------------------------------ results

  /** Of each five pages two are at hand in HBM, two come from DRAM and one from SSD; other ids name no page. */
  lemma TiersRepeat(block: nat, i: nat, id: int)
    requires i < 5
    ensures var page := 5 * block + i;
      && ClassifyTier(page) == [HBM, HBM, DRAM, DRAM, SSD][i]
      && MoveOp(page) == [NO_OP, NO_OP, DRAM_TO_HBM, DRAM_TO_HBM, SSD_TO_HBM][i]
    ensures id < 0 ==> ClassifyTier(id) == NO_TIER && MoveOp(id) == NO_OP
  {}

  /** Earlier in the staging order: nearer tier, or the same tier and earlier in the row. */
  predicate StagedBefore(row: seq<int>, tiers: seq<int>, i: int, j: int)
    requires |row| == |tiers|
  {
    0 <= i < |row| && 0 <= j < |row| && (tiers[i] < tiers[j] || (tiers[i] == tiers[j] && i < j))
  }

  /** Which tier's list entry `j` of the staging order comes from. */
  lemma OrderEntry(row: seq<int>, tiers: seq<int>, j: nat) returns (tier: int, k: nat)
    requires |row| == |tiers| && j < |StagingOrder(row, tiers)|
    ensures HBM <= tier <= SSD && k < |OnTier(row, tiers, tier)|
    ensures 0 <= StagingOrder(row, tiers)[j] < |row|
    ensures StagingOrder(row, tiers)[j] == OnTier(row, tiers, tier)[k] && tiers[StagingOrder(row, tiers)[j]] == tier
    ensures j == k + (if tier > HBM then |OnTier(row, tiers, HBM)| else 0)
                   + (if tier > DRAM then |OnTier(row, tiers, DRAM)| else 0)
  {
    var a, b := |OnTier(row, tiers, HBM)|, |OnTier(row, tiers, DRAM)|;
    tier := if j < a then HBM else if j < a + b then DRAM else SSD;
    k := if j < a then j else if j < a + b then j - a else j - a - b;
    OnTierFacts(row, tiers, tier);
    assert OnTier(row, tiers, tier)[k] in OnTier(row, tiers, tier);
  }

  /** The staging order is stable: by tier, then by position in the row. */
  lemma StagingIsStable(row: seq<int>, tiers: seq<int>, a: nat, b: nat)
    requires |row| == |tiers| && a < b < |StagingOrder(row, tiers)|
    ensures StagedBefore(row, tiers, StagingOrder(row, tiers)[a], StagingOrder(row, tiers)[b])
  {
    var s, i := OrderEntry(row, tiers, a);
    var t, j := OrderEntry(row, tiers, b);
    if s == t {
      WithinAscends(|row|, TierSet(row, tiers, s), i, j);
    }
  }

  /** The number of listed pages of a tier is what the plan counted. */
  lemma {:induction false} PlanCountsTier(row: seq<int>, tier: int, n: nat)
    requires n <= |row| && HBM <= tier <= SSD
    ensures |Within(Range(0, n), TierSet(row, PlannedTiers(row), tier))| == FromTier(row[..n], tier)
  {
    if n > 0 {
      PlanCountsTier(row, tier, n - 1);
      OnTierSnoc(row, PlannedTiers(row), tier, n - 1);
      FromTierSnoc(row, n - 1, tier);
    }
  }

  /** Every page that was selected is staged exactly once, in the stable order of its planned tier. */
  lemma StagedInOrder(row: seq<int>)
    ensures var order := StagingOrder(row, PlannedTiers(row));
      && NoDup(order) && (forall i :: i in order <==> 0 <= i < |row| && row[i] >= 0)
      && (forall a, b :: 0 <= a < b < |order| ==> StagedBefore(row, PlannedTiers(row), order[a], order[b]))
  {
    var tiers := PlannedTiers(row);
    var order := StagingOrder(row, tiers);
    StagingOrderFacts(row, tiers);
    forall a, b | 0 <= a < b < |order| ensures StagedBefore(row, tiers, order[a], order[b]) {
      StagingIsStable(row, tiers, a, b);
    }
  }

  /** What is staged is what the plan counted. */
  lemma StagedAsPlanned(row: seq<int>, plan: PlanMetrics, bytesPerPage: int)
    requires PlanCounts(plan, row, bytesPerPage)
    ensures var order := StagingOrder(row, PlannedTiers(row));
      && |order| == plan.planned && |OnTier(row, PlannedTiers(row), HBM)| == plan.hbmHits
      && Times(bytesPerPage, |order|) == plan.bytesFromHbm + plan.bytesMoved
  {
    assert row[..|row|] == row;
    PlanCountsTier(row, HBM, |row|);
    PlanCountsTier(row, DRAM, |row|);
    PlanCountsTier(row, SSD, |row|);
    TimesAdds(bytesPerPage, plan.hbmHits, plan.dmaOps);
  }

  /**
   Plan then stage: the staging order lists every selected page once, sorted stably
   by planned tier; the output rows follow it; buffer slots alternate and switch
   one time fewer than pages are staged; and the staged bytes are the bytes already
   in HBM plus the bytes moved.
   */
  lemma PlanThenStage(row: seq<int>, plan: PlanMetrics, ids: seq<int>, outTiers: seq<int>, slots: seq<int>,
                      m: StagingMetrics, bytesPerPage: int)
    requires PlanCounts(plan, row, bytesPerPage)
    requires var tiers := PlannedTiers(row);
      && StagedAs(row, tiers, StagingOrder(row, tiers), ids, outTiers, slots)
      && StagingCounts(m, StagingOrder(row, tiers), |OnTier(row, tiers, HBM)|, bytesPerPage)
    ensures var order := StagingOrder(row, PlannedTiers(row));
      && NoDup(order) && (forall i :: i in order <==> 0 <= i < |row| && row[i] >= 0)
      && (forall a, b :: 0 <= a < b < |order| ==> StagedBefore(row, PlannedTiers(row), order[a], order[b]))
      && (forall j :: 0 <= j < |order| ==> 0 <= order[j] < |row| && ids[j] == row[order[j]] && slots[j] == j % 2)
      && (forall j :: |order| <= j < |row| ==> ids[j] == -1 && slots[j] == -1)
      && m.staged == |order| == plan.planned && m.hbmStaged == plan.hbmHits && m.dmaStaged == plan.dmaOps
      && m.switches == Max(0, m.staged - 1) && m.bytes == plan.bytesFromHbm + plan.bytesMoved
  {
    StagedInOrder(row);
    StagedAsPlanned(row, plan, bytesPerPage);
    var order := StagingOrder(row, PlannedTiers(row));
    assert forall j :: 0 <= j < |order| ==> order[j] in order;
  }
}
