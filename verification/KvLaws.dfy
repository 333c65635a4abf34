/** Laws of the cache: eviction policy, admission, and the draft page lifecycle. */
module KvLaws {
  import opened Arithmetic
  import opened Sequences
  import opened KvCacheModel
  import opened KvAllocation

  // ----------------------------------------------------------------- eviction

  /** `a` comes before `b` in the LRU order. */
  ghost predicate Older(c: Cache, a: int, b: int) {
    exists i, j :: 0 <= i < j < |c.lru| && c.lru[i] == a && c.lru[j] == b
  }

  lemma {:induction false} WithinKeepsOrder(s: seq<int>, d: set<int>, i: int, j: int)
    requires NoDup(s) && 0 <= i < j < |s| && s[i] in d && s[j] in d
    ensures exists p, q :: 0 <= p < q < |Within(s, d)| && Within(s, d)[p] == s[i] && Within(s, d)[q] == s[j]
  {
    var k := |s| - 1;
    var w := Within(s, d);
    if j < k {
      WithinKeepsOrder(s[..k], d, i, j);
      var p, q :| 0 <= p < q < |Within(s[..k], d)| && Within(s[..k], d)[p] == s[i] && Within(s[..k], d)[q] == s[j];
      assert w[p] == s[i] && w[q] == s[j];
    } else {
      WithinMember(s[..k], d);
      assert s[..k][i] == s[i] && s[i] in s[..k];
      var p :| 0 <= p < |Within(s[..k], d)| && Within(s[..k], d)[p] == s[i];
      assert w[p] == s[i] && w[|w| - 1] == s[j];
    }
  }

  /** Every element of a prefix of `s + t` that comes from `t` has all of `s` before it. */
  lemma PrefixTakesFirst(s: seq<int>, t: seq<int>, n: int, id: int, x: int)
    requires id in Take(s + t, n) && id !in s && x in s
    ensures x in Take(s + t, n)
  {
    var v := Take(s + t, n);
    var at :| 0 <= at < |v| && v[at] == id;
    assert v[at] == (s + t)[at];
    assert forall i :: 0 <= i < |s| ==> s[i] in s;
    var i :| 0 <= i < |s| && s[i] == x;
    assert i < at && v[i] == x;
  }

  /** Inside one filtered block of a duplicate-free order, a prefix is closed under "older". */
  lemma PrefixClosed(c: Cache, order: seq<int>, d: set<int>, off: nat, n: int, x: int, id: int)
    requires NoDup(c.lru) && NoDup(order)
    requires off + |Within(c.lru, d)| <= |order| && order[off..off + |Within(c.lru, d)|] == Within(c.lru, d)
    requires x in d && id in d && Older(c, x, id) && id in Take(order, n)
    ensures x in Take(order, n)
  {
    var w, v := Within(c.lru, d), Take(order, n);
    var i, j :| 0 <= i < j < |c.lru| && c.lru[i] == x && c.lru[j] == id;
    WithinKeepsOrder(c.lru, d, i, j);
    var p, q :| 0 <= p < q < |w| && w[p] == x && w[q] == id;
    assert order[off + q] == w[q] && order[off + p] == w[p];
    var at :| 0 <= at < |v| && v[at] == id;
    assert order[at] == id;
    assert at == off + q;
    assert v[off + p] == x;
  }

  /**
   A pinned page is never a victim. A page that is not a draft goes only after
   every unpinned draft. Inside a class, an older page goes before a newer one.
   */
  lemma EvictionPolicy(c: Cache, n: int, id: int, x: int)
    requires Inv(c) && id in Victims(c, n)
    ensures id in c.pages && !c.pages[id].pinned
    ensures !c.pages[id].isDraft && x in UnpinnedDrafts(c) ==> x in Victims(c, n)
    ensures x in Unpinned(c) && c.pages[x].isDraft == c.pages[id].isDraft && Older(c, x, id) ==> x in Victims(c, n)
  {
    VictimsFacts(c, n);
    EvictionOrderFacts(c);
    var order := EvictionOrder(c);
    var drafts, others := Within(c.lru, UnpinnedDrafts(c)), Within(c.lru, UnpinnedOthers(c));
    WithinMember(c.lru, UnpinnedDrafts(c));
    if !c.pages[id].isDraft && x in UnpinnedDrafts(c) {
      PrefixTakesFirst(drafts, others, n, id, x);
    }
    if x in Unpinned(c) && c.pages[x].isDraft == c.pages[id].isDraft && Older(c, x, id) {
      if c.pages[id].isDraft {
        assert order[0..|drafts|] == drafts;
        PrefixClosed(c, order, UnpinnedDrafts(c), 0, n, x, id);
      } else {
        assert order[|drafts|..|drafts| + |others|] == others;
        PrefixClosed(c, order, UnpinnedOthers(c), |drafts|, n, x, id);
      }
    }
  }

  // ---------------------------------------------------------------- admission

  /** Allocation raises exactly when free plus evictable pages do not cover the need. */
  lemma AllocateRaises(c: Cache, rid: int, layers: seq<int>, total: int, pin: bool)
    requires Inv(c)
    ensures Allocate(c, rid, layers, total, pin).Refused?
       <==> c.maxPages - |c.pages| + |Unpinned(c)| < Needed(c, rid, layers, total)
  {
    EvictInv(c, Deficit(c, rid, layers, total));
  }

  /**
   `commit_tokens` raises exactly when `can_allocate` says no, except that with
   nothing needed in an overfull cache it also tries to evict the excess and
   raises when too few pages are unpinned.
   */
  lemma AdmissionAgrees(c: Cache, rid: int, layers: seq<int>, total: int, pin: bool)
    requires Inv(c)
    ensures (Commit(c, rid, layers, total, pin).Refused? <==> !CanAllocate(c, rid, layers, total))
       <==> !(Needed(c, rid, layers, total) == 0 && |c.pages| > c.maxPages + |Unpinned(c)|)
    ensures |c.pages| <= c.maxPages ==>
      (Commit(c, rid, layers, total, pin).Refused? <==> !CanAllocate(c, rid, layers, total))
  {
    AllocateRaises(c, rid, layers, total, pin);
  }

  /** An overfull cache of pinned pages, all on one list: nothing more is needed there, and yet commit raises. */
  lemma OverfullDisagrees(c: Cache, rid: int, layer: int, total: int, pin: bool)
    requires Inv(c) && |c.pages| > c.maxPages && RequiredPages(c, total) <= |c.pages|
    requires forall id :: id in c.pages ==> KeyOf(c.pages[id]) == (rid, layer) && c.pages[id].pinned
    ensures CanAllocate(c, rid, [layer], total) && Commit(c, rid, [layer], total, pin).Refused?
  {
    var list := ListOf(c, (rid, layer));
    assert |list| == |c.pages| by {
      ListOfFacts(c, (rid, layer));
      SetSize(list, c.pages.Keys);
    }
    assert [layer][..0] == [];
    assert Needed(c, rid, [layer], total) == 0;
    assert Unpinned(c) == {} by {
      assert forall id :: id in c.pages ==> KeyOf(c.pages[id]) == (rid, layer) && id !in Unpinned(c);
    }
    AdmissionAgrees(c, rid, [layer], total, pin);
  }

  /** Two pinned committed pages where one is allowed: `can_allocate` says yes to two tokens, `commit_tokens` raises. */
  lemma TwoPagesDisagree()
    ensures var page := (id: int) => KVPage(id, 1, 0, id, 1, true, true, false);
      var c := Cache(1, 1, 1, map[0 := page(0), 1 := page(1)], [0, 1], 2, 0, 0, 0, 0);
      Inv(c) && CanAllocate(c, 1, [0], 2) && Commit(c, 1, [0], 2, true).Refused?
  {
    var c := Cache(1, 1, 1, map[0 := KVPage(0, 1, 0, 0, 1, true, true, false),
                                1 := KVPage(1, 1, 0, 1, 1, true, true, false)], [0, 1], 2, 0, 0, 0, 0);
    assert c.lru[0] == 0 && c.lru[1] == 1;
    assert c.pages.Keys == {0, 1} && |c.pages| == |c.pages.Keys| == 2;
    CeilDivUnique(2, 1, 2);
    OverfullDisagrees(c, 1, 0, 2, true);
  }

  ghost predicate OwnPinned(c: Cache, rid: int) {
    forall id :: id in c.pages && c.pages[id].requestId == rid ==> c.pages[id].pinned
  }

  /** The pages evicted to make room. */
  function Evicted(c: Cache, rid: int, layers: seq<int>, total: int): seq<int>
    requires c.pageSize >= 1
  {
    Victims(c, Deficit(c, rid, layers, total))
  }

  /** From `c` to `d` a list has fallen short of the required length, or further short of it. */
  ghost predicate FellShort(c: Cache, d: Cache, rid: int, total: int, l: int)
    requires c.pageSize == d.pageSize >= 1
  {
    |ListOf(d, (rid, l))| < |ListOf(c, (rid, l))| && |ListOf(d, (rid, l))| < RequiredPages(c, total)
  }

  /** Shorter lists raise the need exactly when one of them falls short. */
  lemma {:induction false} NeededGrows(c: Cache, d: Cache, rid: int, layers: seq<int>, total: int)
    requires c.pageSize == d.pageSize >= 1
    requires forall l :: l in layers ==> |ListOf(d, (rid, l))| <= |ListOf(c, (rid, l))|
    ensures Needed(c, rid, layers, total) <= Needed(d, rid, layers, total)
    ensures (exists l :: l in layers && FellShort(c, d, rid, total, l))
       <==> Needed(c, rid, layers, total) < Needed(d, rid, layers, total)
  {
    if layers != [] {
      var k := |layers| - 1;
      var l := layers[k];
      assert layers == layers[..k] + [l] && l in layers;
      assert |ListOf(d, (rid, l))| <= |ListOf(c, (rid, l))|;
      NeededGrows(c, d, rid, layers[..k], total);
      if FellShort(c, d, rid, total, l) {
      } else if x :| x in layers && FellShort(c, d, rid, total, x) {
        assert x in layers[..k];
      }
    }
  }

  lemma {:induction false} WithoutShorter(s: seq<int>, d: set<int>)
    ensures (exists x :: x in s && x in d) ==> |Without(s, d)| < |s|
  {
    SplitLength(s, d);
    WithinMember(s, d);
    if x :| x in s && x in d {
      assert x in Within(s, d);
    }
  }

  /** Some page that eviction of `n` pages removes is listed under `k`. */
  ghost predicate VictimUnder(c: Cache, n: int, k: LayerKey) {
    exists id :: id in Victims(c, n) && id in c.pages && KeyOf(c.pages[id]) == k
  }

  /** Eviction shortens exactly the lists that hold a victim. */
  lemma EvictListOf(c: Cache, n: int, k: LayerKey)
    requires Inv(c)
    ensures |ListOf(Evict(c, n), k)| <= |ListOf(c, k)|
    ensures |ListOf(Evict(c, n), k)| < |ListOf(c, k)| <==> VictimUnder(c, n, k)
    ensures !VictimUnder(c, n, k) ==> ListOf(Evict(c, n), k) == ListOf(c, k)
  {
    var v := Elems(Victims(c, n));
    DropListOf(c, v, k);
    VictimsFacts(c, n);
    ListOfFacts(c, k);
    SplitLength(ListOf(c, k), v);
    if VictimUnder(c, n, k) {
      WithoutShorter(ListOf(c, k), v);
    } else {
      WithoutNone(ListOf(c, k), v);
    }
  }

  /** The cache after making room, before new pages are added. */
  function Room(c: Cache, rid: int, layers: seq<int>, total: int): Cache
    requires c.pageSize >= 1
  {
    var n := Deficit(c, rid, layers, total);
    if n > 0 then Evict(c, n) else c
  }

  /** The request loses one of its own pages that it then has to allocate again. */
  ghost predicate OwnVictim(c: Cache, rid: int, layers: seq<int>, total: int)
    requires c.pageSize >= 1
  {
    var n := Deficit(c, rid, layers, total);
    exists l :: l in layers && VictimUnder(c, n, (rid, l)) && |ListOf(Evict(c, n), (rid, l))| < RequiredPages(c, total)
  }

  /** Making room raises the need exactly when the request loses a page it needs. */
  lemma NeededAfterRoom(c: Cache, rid: int, layers: seq<int>, total: int)
    requires Inv(c)
    ensures Needed(c, rid, layers, total) <= Needed(Room(c, rid, layers, total), rid, layers, total)
    ensures Needed(c, rid, layers, total) < Needed(Room(c, rid, layers, total), rid, layers, total)
       <==> OwnVictim(c, rid, layers, total)
  {
    var n, m := Deficit(c, rid, layers, total), Room(c, rid, layers, total);
    forall l | l in layers
      ensures |ListOf(m, (rid, l))| <= |ListOf(c, (rid, l))|
      ensures |ListOf(m, (rid, l))| < |ListOf(c, (rid, l))| <==> VictimUnder(c, n, (rid, l))
    {
      EvictListOf(c, n, (rid, l));
    }
    NeededGrows(c, m, rid, layers, total);
    if l :| l in layers && VictimUnder(c, n, (rid, l)) && |ListOf(Evict(c, n), (rid, l))| < RequiredPages(c, total) {
      assert FellShort(c, m, rid, total, l);
    }
  }

  /**
   A granted allocation that starts within the page bound ends within it if and
   only if no victim was one of the request's own pages that it still needs.
   */
  lemma GrantKeepsBound(c: Cache, rid: int, layers: seq<int>, total: int, pin: bool)
    requires Inv(c) && |c.pages| <= c.maxPages && NoDup(layers)
    requires Allocate(c, rid, layers, total, pin).Granted?
    ensures var d := Allocate(c, rid, layers, total, pin).cache;
      |d.pages| <= c.maxPages <==> !OwnVictim(c, rid, layers, total)
  {
    var m := Room(c, rid, layers, total);
    AllocateViaRoom(c, rid, layers, total, pin);
    RoomSize(c, rid, layers, total);
    var after := Needed(m, rid, layers, total);
    assert |Allocate(c, rid, layers, total, pin).cache.pages| == |m.pages| + after by {
      GrowthSize(m, rid, layers, total, pin);
    }
    NeededAfterRoom(c, rid, layers, total);
  }

  /** A full cache in which every page is the request's own and some are unpinned: one more, and the bound is passed. */
  lemma OwnPagesOvershoot(c: Cache, rid: int, layer: int, total: int, pin: bool)
    requires Inv(c) && |c.pages| == c.maxPages && RequiredPages(c, total) == c.maxPages + 1
    requires Unpinned(c) != {} && forall id :: id in c.pages ==> KeyOf(c.pages[id]) == (rid, layer)
    ensures var a := Allocate(c, rid, [layer], total, pin); a.Granted? && |a.cache.pages| > c.maxPages
  {
    var list := ListOf(c, (rid, layer));
    assert |list| == |c.pages| by {
      ListOfFacts(c, (rid, layer));
      SetSize(list, c.pages.Keys);
    }
    assert [layer][..0] == [];
    assert Needed(c, rid, [layer], total) == 1;
    VictimsFacts(c, 1);
    var victim := Victims(c, 1)[0];
    assert victim in Victims(c, 1) && KeyOf(c.pages[victim]) == (rid, layer);
    assert VictimUnder(c, 1, (rid, layer));
    EvictListOf(c, 1, (rid, layer));
    assert layer in [layer] && Deficit(c, rid, [layer], total) == 1;
    assert OwnVictim(c, rid, [layer], total);
    AllocateRaises(c, rid, [layer], total, pin);
    GrantKeepsBound(c, rid, [layer], total, pin);
  }

  /** Allocation is: make room, check, fill. */
  lemma AllocateViaRoom(c: Cache, rid: int, layers: seq<int>, total: int, pin: bool)
    requires c.pageSize >= 1
    ensures var m := Room(c, rid, layers, total);
      Allocate(c, rid, layers, total, pin) ==
        if m.maxPages - |m.pages| < Needed(c, rid, layers, total) then Refused(m)
        else Granted(AllocLayers(m, rid, layers, total, pin))
  {}

  /** A granted allocation evicts exactly the deficit. */
  lemma AllocateCounters(c: Cache, rid: int, layers: seq<int>, total: int, pin: bool)
    requires Inv(c)
    requires Allocate(c, rid, layers, total, pin).Granted?
    ensures var d := Allocate(c, rid, layers, total, pin).cache;
      && d.evictions == c.evictions + Max(0, Needed(c, rid, layers, total) - (c.maxPages - |c.pages|))
      && d.maxPages == c.maxPages
  {
    var m := Room(c, rid, layers, total);
    AllocateViaRoom(c, rid, layers, total, pin);
    RoomSize(c, rid, layers, total);
    SettingsKeptLayers(m, rid, layers, total, pin);
  }

  lemma RoomSize(c: Cache, rid: int, layers: seq<int>, total: int)
    requires Inv(c)
    ensures var n, m := Deficit(c, rid, layers, total), Room(c, rid, layers, total);
      && Inv(m)
      && m.maxPages == c.maxPages && m.pageSize == c.pageSize
      && |m.pages| == |c.pages| - Min(n, |Unpinned(c)|)
      && m.evictions == c.evictions + Min(n, |Unpinned(c)|)
  {
    var n := Deficit(c, rid, layers, total);
    VictimsFacts(c, n);
    EvictInv(c, n);
  }

  lemma GrowthSize(c: Cache, rid: int, layers: seq<int>, total: int, pin: bool)
    requires Inv(c) && NoDup(layers)
    ensures var d := AllocLayers(c, rid, layers, total, pin);
      |d.pages| == |c.pages| + Needed(c, rid, layers, total) && d.maxPages == c.maxPages && d.evictions == c.evictions
  {
    AllocLayersFacts(c, rid, layers, total, pin);
    GrownSize(c, AllocLayers(c, rid, layers, total, pin), rid, layers, pin);
  }

  /** Making room never touches the lists of a request whose pages are pinned. */
  lemma PinnedRoom(c: Cache, rid: int, layers: seq<int>, total: int)
    requires Inv(c) && OwnPinned(c, rid)
    ensures Needed(Room(c, rid, layers, total), rid, layers, total) == Needed(c, rid, layers, total)
    ensures forall id :: id in Evicted(c, rid, layers, total) && id in c.pages ==> c.pages[id].requestId != rid
  {
    var n, m := Deficit(c, rid, layers, total), Room(c, rid, layers, total);
    VictimsFacts(c, n);
    forall l | l in layers ensures |ListOf(m, (rid, l))| == |ListOf(c, (rid, l))| {
      EvictListOf(c, n, (rid, l));
    }
    NeededSame(c, m, rid, layers, total);
  }

  /**
   With its own pages pinned a request can never evict itself: a granted allocation
   evicts exactly the deficit, none of it the request's own, and keeps the page bound.
   */
  lemma PinnedGrantKeepsBound(c: Cache, rid: int, layers: seq<int>, total: int, pin: bool)
    requires Inv(c) && |c.pages| <= c.maxPages && NoDup(layers) && OwnPinned(c, rid)
    requires Allocate(c, rid, layers, total, pin).Granted?
    ensures var d := Allocate(c, rid, layers, total, pin).cache;
      && |d.pages| <= d.maxPages == c.maxPages
      && d.evictions == c.evictions + Max(0, Needed(c, rid, layers, total) - (c.maxPages - |c.pages|))
    ensures forall id :: id in Evicted(c, rid, layers, total) && id in c.pages ==> c.pages[id].requestId != rid
  {
    var m := Room(c, rid, layers, total);
    PinnedRoom(c, rid, layers, total);
    AllocateViaRoom(c, rid, layers, total, pin);
    RoomSize(c, rid, layers, total);
    GrowthSize(m, rid, layers, total, pin);
    AllocateCounters(c, rid, layers, total, pin);
  }

  // ---------------------------------------------------------- draft lifecycle

  /** Allocating drafts and accepting them is committing the tokens, raising included. */
  lemma DraftThenAccept(c: Cache, rid: int, layers: seq<int>, total: int)
    requires Inv(c)
    ensures AllocateDraft(c, rid, layers, total).Refused? == Commit(c, rid, layers, total, true).Refused?
    ensures AllocateDraft(c, rid, layers, total).Granted? ==>
      AcceptMark(AllocateDraft(c, rid, layers, total).cache, rid, layers)
        == Commit(c, rid, layers, total, true).cache
  {
    var a := Allocate(c, rid, layers, total, true);
    if a.Granted? {
      AllocateInv(c, rid, layers, total, true);
      var d := a.cache;
      var e, f := AcceptMark(DraftMark(d, rid, layers), rid, layers), CommitMark(d, rid, layers);
      forall id | id in d.pages ensures e.pages[id] == f.pages[id] {
        assert PageOk(d, id);
      }
      assert e.pages == f.pages;
    }
  }

  lemma AllocateInv(c: Cache, rid: int, layers: seq<int>, total: int, pin: bool)
    requires Inv(c)
    ensures Inv(Allocate(c, rid, layers, total, pin).cache)
  {
    var n := Deficit(c, rid, layers, total);
    EvictInv(c, n);
    AllocLayersFacts(if n > 0 then Evict(c, n) else c, rid, layers, total, pin);
  }

  /** Same pages, page lists and LRU order; hence the same page table and counters. */
  ghost predicate SameResidency(c: Cache, d: Cache) {
    c.pages == d.pages && c.lru == d.lru && forall k: LayerKey :: ListOf(c, k) == ListOf(d, k)
  }

  /**
   When no eviction is needed, allocating drafts and releasing them restores
   pages, page lists and LRU order if and only if every page the request already
   had on those layers was committed.
   */
  lemma DraftThenRelease(c: Cache, rid: int, layers: seq<int>, total: int)
    requires Inv(c)
    requires Deficit(c, rid, layers, total) == 0
    ensures AllocateDraft(c, rid, layers, total).Granted?
    ensures SameResidency(c, ReleaseDrafts(AllocateDraft(c, rid, layers, total).cache, rid, layers))
       <==> forall id :: id in c.pages && Owned(c.pages[id], rid, layers) ==> c.pages[id].isCommitted
  {
    AllocLayersFacts(c, rid, layers, total, true);
    var d := AllocLayers(c, rid, layers, total, true);
    assert AllocateDraft(c, rid, layers, total).cache == DraftMark(d, rid, layers);
    if id :| id in c.pages && Owned(c.pages[id], rid, layers) && !c.pages[id].isCommitted {
      UncommittedIsLost(c, d, rid, layers, id);
    } else {
      DraftThenReleaseRestores(c, d, rid, layers);
    }
  }

  lemma UncommittedIsLost(c: Cache, d: Cache, rid: int, layers: seq<int>, id: int)
    requires Grown(c, d, rid, layers, true)
    requires id in c.pages && Owned(c.pages[id], rid, layers) && !c.pages[id].isCommitted
    ensures id !in ReleaseDrafts(DraftMark(d, rid, layers), rid, layers).pages
  {
    assert d.pages[id] == c.pages[id];
    assert id in DraftIds(DraftMark(d, rid, layers), rid, layers);
  }

  /** If the old pages were all committed, the drafts are exactly the new pages. */
  lemma DraftsAreNew(c: Cache, d: Cache, rid: int, layers: seq<int>)
    requires Inv(c) && Inv(d) && Grown(c, d, rid, layers, true)
    requires forall id :: id in c.pages && Owned(c.pages[id], rid, layers) ==> c.pages[id].isCommitted
    ensures DraftIds(DraftMark(d, rid, layers), rid, layers) == d.pages.Keys - c.pages.Keys
    ensures ReleaseDrafts(DraftMark(d, rid, layers), rid, layers).pages == c.pages
  {
    var e := DraftMark(d, rid, layers);
    var gone := DraftIds(e, rid, layers);
    forall id | id in c.pages ensures id in e.pages && id !in gone && e.pages[id] == c.pages[id] {
      assert PageOk(c, id);
      assert d.pages[id] == c.pages[id];
    }
    forall id | id in d.pages && id !in c.pages ensures id in gone {
      assert FreshPage(d.pages[id], rid, layers, true);
    }
    assert gone == d.pages.Keys - c.pages.Keys;
    assert e.pages - gone == c.pages;
  }

  lemma RestoredLru(c: Cache, d: Cache, rid: int, layers: seq<int>, gone: set<int>)
    requires Inv(c) && Inv(d) && Grown(c, d, rid, layers, true)
    requires gone == d.pages.Keys - c.pages.Keys
    ensures Without(d.lru, gone) == c.lru
  {
    var k := d.nextId - c.nextId;
    WithoutConcat(c.lru, Range(c.nextId, k), gone);
    WithoutNone(c.lru, gone);
    forall x | x in c.pages ensures x < c.nextId {
      assert PageOk(c, x);
    }
    forall x | x in Range(c.nextId, k) ensures x in gone {
      assert x in d.lru && x in d.pages;
      RangeMember(c.nextId, k, x);
    }
    WithoutAll(Range(c.nextId, k), gone);
    assert c.lru + [] == c.lru;
  }

  lemma DraftThenReleaseRestores(c: Cache, d: Cache, rid: int, layers: seq<int>)
    requires Inv(c) && Inv(d) && Grown(c, d, rid, layers, true)
    requires forall id :: id in c.pages && Owned(c.pages[id], rid, layers) ==> c.pages[id].isCommitted
    ensures SameResidency(c, ReleaseDrafts(DraftMark(d, rid, layers), rid, layers))
  {
    var e := DraftMark(d, rid, layers);
    var gone := DraftIds(e, rid, layers);
    var f := ReleaseDrafts(e, rid, layers);
    DraftsAreNew(c, d, rid, layers);
    RestoredLru(c, d, rid, layers, gone);
    forall key: LayerKey ensures ListOf(f, key) == ListOf(c, key) {
      SamePagesSameLists(c, f, key);
    }
  }

  /** Page lists depend on the pages alone. */
  lemma SamePagesSameLists(c: Cache, f: Cache, key: LayerKey)
    requires Inv(c) && c.pages == f.pages && c.nextId <= f.nextId
    ensures ListOf(f, key) == ListOf(c, key)
  {
    var more := Range(c.nextId, f.nextId - c.nextId);
    assert AllIds(f) == AllIds(c) + more;
    WithinConcat(AllIds(c), more, Under(c, key));
    InvFreshIds(c);
    forall x | x in more ensures x !in Under(c, key) {
      RangeMember(c.nextId, f.nextId - c.nextId, x);
    }
    WithinNone(more, Under(c, key));
    assert Under(f, key) == Under(c, key);
  }
}
