/**
 The paged KV cache as an object updated in place. Every method is proved
 against the value-level operation of KvCacheModel, keeps the page table equal to
 the page lists, and keeps the counters equal to sums over the live pages.
 */
module KvCache {
  import opened Arithmetic
  import opened Sequences
  import opened KvCacheModel
  import opened KvLaws
  import opened KvCounters
  import opened KvTable

  class KVCache {
    const pageSize: int
    const maxPages: int
    const bytesPerToken: int
    var pages: map<int, KVPage>
    var table: map<LayerKey, seq<int>>
    var lru: seq<int>
    var nextPageId: int
    var evictionCount: int
    var accessCount: int
    var hitCount: int
    var liveBytes: int
    var pinnedBytes: int
    var evictedBytes: int
    var capacityTokens: int
    var usedTokens: int

    function State(): Cache
      reads this
    {
      Cache(pageSize, maxPages, bytesPerToken, pages, lru, nextPageId,
            evictionCount, evictedBytes, accessCount, hitCount)
    }

    /** Pages, LRU order and counters agree; the table may be in the middle of an update. */
    ghost predicate Counted()
      reads this
    {
      Kept(State(), liveBytes, pinnedBytes, usedTokens, capacityTokens)
    }

    /** The representation invariant: pages and LRU order, page table, counters. */
    ghost predicate Valid()
      reads this
    {
      Sound(State(), table, liveBytes, pinnedBytes, usedTokens, capacityTokens)
    }

    constructor (pageSize: int, maxPages: int, bytesPerToken: int)
      requires pageSize >= 1 && bytesPerToken >= 0
      ensures Valid()
      ensures State() == Cache(pageSize, maxPages, bytesPerToken, map[], [], 0, 0, 0, 0, 0)
    {
      this.pageSize, this.maxPages, this.bytesPerToken := pageSize, maxPages, bytesPerToken;
      pages, table, lru, nextPageId := map[], map[], [], 0;
      evictionCount, accessCount, hitCount := 0, 0, 0;
      liveBytes, pinnedBytes, evictedBytes, capacityTokens, usedTokens := 0, 0, 0, 0, 0;
    }

    method PagesNeeded(rid: int, layers: seq<int>, total: int) returns (needed: int)
      requires Valid()
      ensures needed == Needed(State(), rid, layers, total)
    {
      needed := 0;
      for i := 0 to |layers|
        invariant needed == Needed(State(), rid, layers[..i], total)
      {
        var existing := |Lookup(table, (rid, layers[i]))|;
        var required := if total <= 0 then 0 else CeilDiv(total, pageSize);
        needed := needed + Max(required - existing, 0);
        LookupIsListOf(table, State(), (rid, layers[i]));
        assert layers[..i + 1][..i] == layers[..i];
      }
      assert layers[..|layers|] == layers;
    }

    method CanAllocatePages(rid: int, layers: seq<int>, total: int) returns (r: bool)
      requires Valid()
      ensures r == CanAllocate(State(), rid, layers, total)
    {
      var needed := PagesNeeded(rid, layers, total);
      if needed == 0 {
        return true;
      }
      var evictable := |set id | id in pages && !pages[id].pinned|;
      return maxPages - |pages| + evictable >= needed;
    }

    method IsUnderPressure() returns (r: bool)
      ensures r == UnderPressure(State())
    {
      r := |pages| as real > maxPages as real * 0.85;
    }

    /** `pages_for_request`: list after list, whatever the order of the lists. */
    method PagesForRequest(rid: int) returns (ids: seq<int>)
      requires Valid()
      ensures NoDup(ids) && forall id :: id in ids <==> id in pages && pages[id].requestId == rid
    {
      ids := [];
      var left := set k | k in table && k.0 == rid;
      forall id | id in pages && pages[id].requestId == rid ensures KeyOf(pages[id]) in left {
        EachPageListedOnce(table, State(), id, KeyOf(pages[id]));
      }
      while left != {}
        invariant forall k :: k in left ==> k in table && k.0 == rid
        invariant NoDup(ids)
        invariant forall id :: id in ids <==> id in pages && pages[id].requestId == rid && KeyOf(pages[id]) !in left
        decreases left
      {
        var key :| key in left;
        forall id ensures id in table[key] <==> id in pages && KeyOf(pages[id]) == key {
          EachPageListedOnce(table, State(), id, key);
        }
        EachPageListedOnce(table, State(), 0, key);
        ConcatNoDup(ids, table[key]);
        left := left - {key};
        ids := ids + table[key];
      }
    }

    /** Takes one live page out of pages, LRU order and counters; the table is the caller's business. */
    method ForgetPage(id: int)
      requires Counted() && id in pages
      modifies this
      ensures State() == Drop(old(State()), {id})
      ensures Counted() && table == old(table)
    {
      var page := pages[id];
      ghost var c := State();
      DropOneKept(c, id, liveBytes, pinnedBytes, usedTokens, capacityTokens);
      pages := pages - {id};
      lru := Without(lru, {id});
      liveBytes := liveBytes - page.tokenCount * bytesPerToken;
      usedTokens := usedTokens - page.tokenCount;
      capacityTokens := capacityTokens - pageSize;
      if page.pinned {
        pinnedBytes := pinnedBytes - page.tokenCount * bytesPerToken;
      }
      assert State() == Drop(c, {id});
    }

    method EvictSinglePage(id: int)
      requires Valid() && id in pages
      modifies this
      ensures Valid() && State() == EvictAll(old(State()), [id])
    {
      ghost var c := State();
      var page := pages[id];
      var bytes := page.tokenCount * bytesPerToken;
      UnlistMatches(table, c, id);
      ForgetPage(id);
      table := Unlist(table, KeyOf(page), id);
      EvictedIsSound(c, table, id, bytes, liveBytes, pinnedBytes, usedTokens, capacityTokens);
      evictedBytes := evictedBytes + bytes;
      evictionCount := evictionCount + 1;
    }

    /** One scan of the LRU order, evicting unpinned drafts or unpinned other pages. */
    method EvictScan(n: int, wantDrafts: bool, before: seq<int>, ghost c: Cache) returns (evicted: seq<int>)
      requires Valid() && Inv(c) && State() == EvictAll(c, before)
      requires |before| <= Max(n, 0)
      modifies this
      ensures Valid() && State() == EvictAll(c, evicted)
      ensures evicted == before + Take(Within(Without(c.lru, Elems(before)), Evictable(c, wantDrafts)), n - |before|)
    {
      evicted := before;
      var order, i := lru, 0;
      while i < |order| && |evicted| < n
        invariant 0 <= i <= |order|
        invariant order == Without(c.lru, Elems(before))
        invariant evicted == before + Within(order[..i], Evictable(c, wantDrafts)) && |evicted| <= Max(n, 0)
        invariant Valid() && State() == EvictAll(c, evicted)
      {
        var id := order[i];
        NextVictim(c, order, i, before, wantDrafts);
        var page := pages[id];
        if !page.pinned && page.isDraft == wantDrafts {
          EvictSinglePage(id);
          evicted := evicted + [id];
        }
        i := i + 1;
      }
      ScanDone(c, order, i, before, wantDrafts, n);
    }

    /** `evict_lru`: drafts first, then the rest. */
    method EvictLru(n: int) returns (evicted: seq<int>)
      requires Valid()
      modifies this
      ensures Valid()
      ensures evicted == Victims(old(State()), n) && State() == Evict(old(State()), n)
    {
      ghost var c := State();
      EvictNothing(c);
      evicted := EvictScan(n, true, [], c);
      evicted := EvictScan(n, false, evicted, c);
      TwoScans(c, n);
    }

    /** The eviction of the deficit that opens both `ensure_capacity` and `allocate_for_request`. */
    method MakeRoom(rid: int, layers: seq<int>, total: int) returns (needed: int)
      requires Valid()
      modifies this
      ensures Valid() && State() == Room(old(State()), rid, layers, total)
      ensures needed == Needed(old(State()), rid, layers, total)
    {
      needed := PagesNeeded(rid, layers, total);
      var deficit := Max(needed - (maxPages - |pages|), 0);
      if deficit > 0 {
        var _ := EvictLru(deficit);
      }
    }

    /** `ensure_capacity`; `ok` is false where the source raises. */
    method EnsureCapacity(rid: int, layers: seq<int>, total: int) returns (ok: bool)
      requires Valid()
      modifies this
      ensures Valid() && State() == Room(old(State()), rid, layers, total)
      ensures ok == CanAllocate(State(), rid, layers, total)
    {
      var _ := MakeRoom(rid, layers, total);
      ok := CanAllocatePages(rid, layers, total);
    }

    /** Stores a new page everywhere at once; `bytes` is its size. */
    method StorePage(rid: int, layer: int, start: int, count: int, pin: bool, bytes: int) returns (id: int)
      modifies this
      ensures State() == AllocOne(old(State()), rid, layer, start, count, pin) && id == old(nextPageId)
      ensures table == old(table)[(rid, layer) := Lookup(old(table), (rid, layer)) + [id]]
      ensures liveBytes == old(liveBytes) + bytes && usedTokens == old(usedTokens) + count
      ensures capacityTokens == old(capacityTokens) + pageSize
      ensures pinnedBytes == if pin then old(pinnedBytes) + bytes else old(pinnedBytes)
    {
      id := nextPageId;
      pages, nextPageId, lru, table :=
        pages[id := KVPage(id, rid, layer, start, count, pin, false, false)], nextPageId + 1,
        lru + [id], table[(rid, layer) := Lookup(table, (rid, layer)) + [id]];
      liveBytes, usedTokens, capacityTokens := liveBytes + bytes, usedTokens + count, capacityTokens + pageSize;
      pinnedBytes := if pin then pinnedBytes + bytes else pinnedBytes;
    }

    method AllocateOnePage(rid: int, layer: int, start: int, count: int, pin: bool) returns (id: int)
      requires Valid() && 1 <= count <= pageSize
      modifies this
      ensures Valid() && id == old(nextPageId)
      ensures State() == AllocOne(old(State()), rid, layer, start, count, pin)
    {
      var bytes := count * bytesPerToken;
      AllocOneSound(State(), table, rid, layer, start, count, pin, liveBytes, pinnedBytes, usedTokens, capacityTokens,
                    bytes);
      id := StorePage(rid, layer, start, count, pin, bytes);
    }

    /** The page loop of `allocate_for_request` for one layer. */
    method AllocatePages(rid: int, layer: int, start: int, total: int, k: nat, pin: bool, have: seq<int>)
      returns (ids: seq<int>)
      requires Valid() && Fits(k, pageSize, total - start) && have == ListOf(State(), (rid, layer))
      modifies this
      ensures Valid() && State() == AllocPages(old(State()), rid, layer, start, total, k, pin)
      ensures ids == ListOf(State(), (rid, layer))
    {
      ids := have;
      var at := start;
      for i := 0 to k
        invariant Valid() && ids == ListOf(State(), (rid, layer))
        invariant Fits(k - i, pageSize, total - at)
        invariant AllocPages(State(), rid, layer, at, total, k - i, pin)
               == AllocPages(old(State()), rid, layer, start, total, k, pin)
      {
        var count := Min(pageSize, total - at);
        AllocStep(State(), rid, layer, at, total, k - i, pin);
        var id := AllocateOnePage(rid, layer, at, count, pin);
        ids := ids + [id];
        at := at + count;
      }
    }

    method AllocateLayer(rid: int, layer: int, total: int, pin: bool) returns (ids: seq<int>)
      requires Valid()
      modifies this
      ensures Valid() && State() == AllocLayer(old(State()), rid, layer, total, pin)
      ensures ids == ListOf(State(), (rid, layer))
    {
      ids := Lookup(table, (rid, layer));
      LookupIsListOf(table, State(), (rid, layer));
      var capacity := |ids| * pageSize;
      if total > capacity {
        CeilDivFacts(total - capacity, pageSize);
        ids := AllocatePages(rid, layer, capacity, total, CeilDiv(total - capacity, pageSize), pin, ids);
      }
    }

    /** The layer loop of `allocate_for_request`. */
    method AllocateEachLayer(rid: int, layers: seq<int>, total: int, pin: bool)
      returns (layerMap: map<int, seq<int>>)
      requires Valid()
      modifies this
      ensures Valid() && State() == AllocLayers(old(State()), rid, layers, total, pin)
      ensures layerMap == LayerMap(State(), rid, layers)
    {
      layerMap := map[];
      for i := 0 to |layers|
        invariant Valid()
        invariant AllocLayers(State(), rid, layers[i..], total, pin)
               == AllocLayers(old(State()), rid, layers, total, pin)
        invariant layerMap == LayerMap(State(), rid, layers[..i])
      {
        AllocLayerMap(State(), rid, layers, i, total, pin);
        var ids := AllocateLayer(rid, layers[i], total, pin);
        layerMap := layerMap[layers[i] := ids];
      }
      assert layers[..|layers|] == layers;
    }

    /** `allocate_for_request`; `ok` is false where the source raises. */
    method AllocateForRequest(rid: int, layers: seq<int>, total: int, pin: bool)
      returns (ok: bool, layerMap: map<int, seq<int>>)
      requires Valid()
      modifies this
      ensures Valid() && ok == Allocate(old(State()), rid, layers, total, pin).Granted?
      ensures State() == Allocate(old(State()), rid, layers, total, pin).cache
      ensures ok ==> layerMap == LayerMap(State(), rid, layers)
    {
      AllocateViaRoom(State(), rid, layers, total, pin);
      layerMap := map[];
      var needed := MakeRoom(rid, layers, total);
      ok := maxPages - |pages| >= needed;
      if ok {
        layerMap := AllocateEachLayer(rid, layers, total, pin);
      }
    }

    /** Applies `m` to the listed pages; `done` are the pages marked before. */
    method MarkList(ids: seq<int>, m: PageMark, ghost c: Cache, ghost done: set<int>)
      requires State() == c.(pages := Marked(c, done, m))
      requires forall id :: id in ids ==> id in c.pages
      modifies this`pages
      ensures State() == c.(pages := Marked(c, done + Elems(ids), m))
    {
      assert done + Elems(ids[..0]) == done;
      for j := 0 to |ids|
        invariant State() == c.(pages := Marked(c, done + Elems(ids[..j]), m))
      {
        var id := ids[j];
        assert id in ids;
        MarkOneMore(c, done + Elems(ids[..j]), id, m);
        if id in pages {
          pages := pages[id := MarkPage(m, pages[id])];
        }
        assert ids[..j + 1] == ids[..j] + [id];
        assert done + Elems(ids[..j + 1]) == done + Elems(ids[..j]) + {id};
      }
      assert ids[..|ids|] == ids;
    }

    /** Applies `m` to every page of the request on the given layers. */
    method MarkPages(rid: int, layers: seq<int>, m: PageMark)
      requires Valid()
      modifies this`pages
      ensures Valid() && State() == MarkOwned(old(State()), rid, layers, m)
    {
      ghost var c := State();
      ghost var done: set<int> := {};
      MarkNone(c, m);
      for i := 0 to |layers|
        invariant State() == c.(pages := Marked(c, done, m))
        invariant forall id :: id in done <==> id in c.pages && Owned(c.pages[id], rid, layers[..i])
      {
        var ids := Lookup(table, (rid, layers[i]));
        LookupIsListOf(table, c, (rid, layers[i]));
        ListOfFacts(c, (rid, layers[i]));
        MarkList(ids, m, c, done);
        assert layers[..i + 1] == layers[..i] + [layers[i]];
        done := done + Elems(ids);
      }
      assert layers[..|layers|] == layers;
      MarkOwnedDone(c, done, rid, layers, m);
      MarkKeepsAll(table, c, rid, layers, m, liveBytes, pinnedBytes, usedTokens, capacityTokens);
    }

    /** `commit_tokens`. */
    method CommitTokens(rid: int, layers: seq<int>, total: int, pin: bool)
      returns (ok: bool, layerMap: map<int, seq<int>>)
      requires Valid()
      modifies this
      ensures Valid() && ok == Commit(old(State()), rid, layers, total, pin).Granted?
      ensures State() == Commit(old(State()), rid, layers, total, pin).cache
      ensures ok ==> layerMap == LayerMap(State(), rid, layers)
    {
      ok, layerMap := AllocateForRequest(rid, layers, total, pin);
      if ok {
        MarkOwnedInv(State(), rid, layers, CommitPage);
        MarkPages(rid, layers, CommitPage);
      }
    }

    /** `allocate_draft_pages`. */
    method AllocateDraftPages(rid: int, layers: seq<int>, total: int)
      returns (ok: bool, layerMap: map<int, seq<int>>)
      requires Valid()
      modifies this
      ensures Valid() && ok == AllocateDraft(old(State()), rid, layers, total).Granted?
      ensures State() == AllocateDraft(old(State()), rid, layers, total).cache
      ensures ok ==> layerMap == LayerMap(State(), rid, layers)
    {
      ok, layerMap := AllocateForRequest(rid, layers, total, true);
      if ok {
        MarkOwnedInv(State(), rid, layers, DraftPage);
        MarkPages(rid, layers, DraftPage);
      }
    }

    /** `accept_draft_pages`. */
    method AcceptDraftPages(rid: int, layers: seq<int>)
      requires Valid()
      modifies this
      ensures Valid() && State() == AcceptMark(old(State()), rid, layers)
    {
      MarkPages(rid, layers, AcceptPage);
    }

    /** The loop of `pin_pages` and of `unpin_pages`: ids that are not live, or already there, are skipped. */
    method SetPins(ids: seq<int>, pin: bool)
      requires Valid()
      modifies this`pages, this`pinnedBytes
      ensures Valid() && State() == SetPinned(old(State()), ids, pin)
    {
      SetPinnedNone(State(), pin);
      for i := 0 to |ids|
        invariant Valid() && State() == SetPinned(old(State()), ids[..i], pin)
      {
        var id := ids[i];
        SetPinnedOneMore(table, old(State()), State(), ids[..i], id, pin);
        assert ids[..i + 1] == ids[..i] + [id];
        if id in pages && pages[id].pinned != pin {
          FlipPinBalanced(State(), id, liveBytes, pinnedBytes, usedTokens, capacityTokens);
          var bytes := pages[id].tokenCount * bytesPerToken;
          pages := pages[id := pages[id].(pinned := pin)];
          pinnedBytes := if pin then pinnedBytes + bytes else pinnedBytes - bytes;
        }
      }
      assert ids[..|ids|] == ids;
    }

    method PinPages(ids: seq<int>)
      requires Valid()
      modifies this`pages, this`pinnedBytes
      ensures Valid() && State() == SetPinned(old(State()), ids, true)
    {
      SetPins(ids, true);
    }

    method UnpinPages(ids: seq<int>)
      requires Valid()
      modifies this`pages, this`pinnedBytes
      ensures Valid() && State() == SetPinned(old(State()), ids, false)
    {
      SetPins(ids, false);
    }

    /** One access of `touch_pages`. */
    method TouchPage(id: int)
      requires Valid()
      modifies this`lru, this`accessCount, this`hitCount
      ensures Valid() && State() == TouchOne(old(State()), id)
    {
      ghost var c := State();
      TouchOneSound(c, table, id, liveBytes, pinnedBytes, usedTokens, capacityTokens);
      accessCount := accessCount + 1;
      if id in pages {
        hitCount := hitCount + 1;
        lru := Without(lru, {id}) + [id];
      }
      assert State() == TouchOne(c, id);
    }

    method TouchPages(ids: seq<int>)
      requires Valid()
      modifies this`lru, this`accessCount, this`hitCount
      ensures Valid() && State() == Touch(old(State()), ids)
    {
      for i := 0 to |ids|
        invariant Valid() && Touch(State(), ids[i..]) == Touch(old(State()), ids)
      {
        assert ids[i..][0] == ids[i] && ids[i..][1..] == ids[i + 1..];
        TouchPage(ids[i]);
      }
    }

    /** Forgets every page of `ids` that is still live; `c` and `done` say what is gone already. */
    method ForgetPages(ids: seq<int>, ghost c: Cache, ghost done: set<int>)
      requires Counted() && State() == Drop(c, done)
      modifies this
      ensures Counted() && table == old(table)
      ensures State() == Drop(c, done + Elems(ids))
    {
      assert done + Elems(ids[..0]) == done;
      for j := 0 to |ids|
        invariant Counted() && table == old(table)
        invariant State() == Drop(c, done + Elems(ids[..j]))
      {
        var id := ids[j];
        ghost var gone := done + Elems(ids[..j]);
        DropTwice(c, gone, {id});
        assert ids[..j + 1] == ids[..j] + [id];
        assert done + Elems(ids[..j + 1]) == gone + {id};
        if id in pages {
          ForgetPage(id);
        } else {
          DropAbsent(State(), id);
        }
      }
      assert ids[..|ids|] == ids;
    }

    /** `release_draft_pages` on one layer: the drafts leave the list, and an empty list leaves the table. */
    method ReleaseLayerDrafts(rid: int, layer: int)
      requires Valid()
      modifies this
      ensures Valid() && State() == ReleaseDrafts(old(State()), rid, [layer])
    {
      ghost var c, before := State(), table;
      var key := (rid, layer);
      var ids := Lookup(table, key);
      LookupIsListOf(table, c, key);
      var drafts := set id | id in ids && id in pages && pages[id].isDraft;
      var toRemove := Within(ids, drafts);
      LayerDrafts(c, rid, layer, toRemove);
      DropNothing(c);
      ForgetPages(toRemove, c, {});
      var rest := Without(ids, Elems(toRemove));
      table := if rest == [] then table - {key} else table[key := rest];
      DropListMatches(before, table, c, Elems(toRemove), key);
    }

    /** `release_draft_pages`. */
    method ReleaseDraftPages(rid: int, layers: seq<int>)
      requires Valid()
      modifies this
      ensures Valid() && State() == ReleaseDrafts(old(State()), rid, layers)
    {
      ghost var c := State();
      DropNothing(c);
      assert DraftIds(c, rid, layers[..0]) == {};
      for i := 0 to |layers|
        invariant Valid() && State() == Drop(c, DraftIds(c, rid, layers[..i]))
      {
        ReleaseLayerDrafts(rid, layers[i]);
        DraftIdsSnoc(c, rid, layers[..i], layers[i]);
        assert layers[..i + 1] == layers[..i] + [layers[i]];
      }
      assert layers[..|layers|] == layers;
    }

    /** The key loop of `release_request`: each list is popped, then its pages go. */
    method ReleaseLists(rid: int)
      requires Valid()
      modifies this
      ensures Valid() && State() == Release(old(State()), rid)
    {
      ghost var c := State();
      ghost var done: set<int> := {};
      DropNothing(c);
      var left := set k | k in table && k.0 == rid;
      NoEntryNoList(table, c, rid, left);
      while left != {}
        invariant Valid() && State() == Drop(c, done) && done <= OwnedIds(c, rid)
        invariant forall k :: k in left ==> k.0 == rid
        invariant forall l: int :: (rid, l) !in left ==> ListOf(State(), (rid, l)) == []
        decreases left
      {
        var key :| key in left;
        left := left - {key};
        var layer := key.1;
        ghost var d := State();
        var ids := Lookup(table, (rid, layer));
        LookupIsListOf(table, d, (rid, layer));
        DropWholeList(table, d, rid, layer);
        table := table - {(rid, layer)};
        DropNothing(d);
        ForgetPages(ids, d, {});
        assert {} + Elems(ids) == Elems(ids);
        DropTwice(c, done, Elems(ids));
        done := done + Elems(ids);
      }
      NoListNoPage(c, done, rid);
    }

    /** `release_request`; the clamps at the end never change anything. */
    method ReleaseRequest(rid: int)
      requires Valid()
      modifies this
      ensures Valid() && State() == Release(old(State()), rid)
      ensures liveBytes >= 0 && pinnedBytes >= 0 && usedTokens >= 0 && capacityTokens >= 0
    {
      ReleaseLists(rid);
      BalancedNonNegative(State(), liveBytes, pinnedBytes, usedTokens, capacityTokens);
      liveBytes, pinnedBytes := Max(liveBytes, 0), Max(pinnedBytes, 0);
      usedTokens, capacityTokens := Max(usedTokens, 0), Max(capacityTokens, 0);
    }
  }
}
