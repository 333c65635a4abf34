/**
 The page table as a map kept beside the pages, and the single-page steps from
 which the cache's loops are built.
 */
module KvTable {
  import opened Sequences
  import opened KvCacheModel
  import opened KvAllocation
  import opened KvCounters

  /** The table holds exactly the non-empty page lists. */
  ghost predicate TableMatches(t: map<LayerKey, seq<int>>, c: Cache) {
    forall k: LayerKey :: EntryMatches(t, c, k)
  }

  ghost predicate EntryMatches(t: map<LayerKey, seq<int>>, c: Cache, k: LayerKey) {
    && (k in t <==> ListOf(c, k) != [])
    && (k in t ==> t[k] == ListOf(c, k))
  }

  /** The table agrees with the page lists except possibly under one key. */
  ghost predicate MatchesElsewhere(t: map<LayerKey, seq<int>>, c: Cache, key: LayerKey) {
    forall k: LayerKey :: k != key ==> EntryMatches(t, c, k)
  }

  function Lookup(t: map<LayerKey, seq<int>>, k: LayerKey): seq<int> { if k in t then t[k] else [] }

  /** `live > max_pages * 0.85`, over the reals. */
  predicate UnderPressure(c: Cache) { |c.pages| as real > c.maxPages as real * 0.85 }

  /** Dropping one page touches only the list it is on. */
  lemma DropOneLists(c: Cache, id: int, k: LayerKey)
    requires Inv(c) && id in c.pages
    ensures k != KeyOf(c.pages[id]) ==> ListOf(Drop(c, {id}), k) == ListOf(c, k)
    ensures k == KeyOf(c.pages[id]) ==> ListOf(Drop(c, {id}), k) == RemoveFirst(ListOf(c, k), id)
    ensures k == KeyOf(c.pages[id]) ==> id in ListOf(c, k)
  {
    ListOfFacts(c, k);
    DropListOf(c, {id}, k);
    if k == KeyOf(c.pages[id]) {
      RemoveFirstIsWithout(ListOf(c, k), id);
    } else {
      WithoutNone(ListOf(c, k), {id});
    }
  }

  /** The other entries of a matching table survive the removal of one page. */
  lemma DropOneElsewhere(t: map<LayerKey, seq<int>>, c: Cache, id: int)
    requires Inv(c) && id in c.pages && MatchesElsewhere(t, c, KeyOf(c.pages[id]))
    ensures MatchesElsewhere(t, Drop(c, {id}), KeyOf(c.pages[id]))
  {
    forall k: LayerKey | k != KeyOf(c.pages[id]) ensures EntryMatches(t, Drop(c, {id}), k) {
      DropOneLists(c, id, k);
      assert EntryMatches(t, c, k);
    }
  }

  /** Restoring the entry under `key` completes a table that matches elsewhere. */
  lemma CompleteTable(t: map<LayerKey, seq<int>>, u: map<LayerKey, seq<int>>, c: Cache, key: LayerKey)
    requires MatchesElsewhere(t, c, key)
    requires u == if ListOf(c, key) == [] then t - {key} else t[key := ListOf(c, key)]
    ensures TableMatches(u, c)
  {
    forall k: LayerKey ensures EntryMatches(u, c, k) {
      if k != key {
        assert EntryMatches(t, c, k);
      }
    }
  }

  /** `page_ids.remove(page_id)`, dropping the entry when its list runs empty. */
  function Unlist(t: map<LayerKey, seq<int>>, key: LayerKey, id: int): map<LayerKey, seq<int>> {
    var ids := Lookup(t, key);
    if id !in ids then t
    else if RemoveFirst(ids, id) == [] then t - {key} else t[key := RemoveFirst(ids, id)]
  }

  lemma UnlistMatches(t: map<LayerKey, seq<int>>, c: Cache, id: int)
    requires Inv(c) && id in c.pages && TableMatches(t, c)
    ensures TableMatches(Unlist(t, KeyOf(c.pages[id]), id), Drop(c, {id}))
  {
    var key := KeyOf(c.pages[id]);
    DropOneLists(c, id, key);
    DropOneElsewhere(t, c, id);
    LookupIsListOf(t, c, key);
    CompleteTable(t, Unlist(t, key, id), Drop(c, {id}), key);
  }

  lemma LookupIsListOf(t: map<LayerKey, seq<int>>, c: Cache, k: LayerKey)
    requires TableMatches(t, c)
    ensures Lookup(t, k) == ListOf(c, k)
  {
    assert EntryMatches(t, c, k);
  }

  /** Caches with the same page lists match the same tables. */
  lemma SameListsSameTable(t: map<LayerKey, seq<int>>, c: Cache, d: Cache)
    requires TableMatches(t, c)
    requires forall k: LayerKey :: ListOf(d, k) == ListOf(c, k)
    ensures TableMatches(t, d)
  {
    forall k: LayerKey ensures EntryMatches(t, d, k) {
      assert EntryMatches(t, c, k) && ListOf(d, k) == ListOf(c, k);
    }
  }

  /** What a matching table says: every live page is listed exactly once, under its own key, and no list is empty. */
  lemma EachPageListedOnce(t: map<LayerKey, seq<int>>, c: Cache, id: int, k: LayerKey)
    requires Inv(c) && TableMatches(t, c)
    ensures k in t ==> t[k] != [] && NoDup(t[k])
    ensures k in t && id in t[k] <==> id in c.pages && KeyOf(c.pages[id]) == k
  {
    assert EntryMatches(t, c, k);
    ListOfFacts(c, k);
  }

  /** The drafts found by walking one page list are the request's drafts on that layer. */
  lemma LayerDrafts(c: Cache, rid: int, layer: int, found: seq<int>)
    requires Inv(c)
    requires var ids := ListOf(c, (rid, layer));
      found == Within(ids, set id | id in ids && id in c.pages && c.pages[id].isDraft)
    ensures {} + Elems(found) == Elems(found) == DraftIds(c, rid, [layer])
    ensures forall id :: id in found ==> id in ListOf(c, (rid, layer))
  {
    var ids := ListOf(c, (rid, layer));
    ListOfFacts(c, (rid, layer));
    WithinMember(ids, set id | id in ids && id in c.pages && c.pages[id].isDraft);
    forall id ensures id in found <==> id in DraftIds(c, rid, [layer]) {
      assert id in ids <==> id in c.pages && KeyOf(c.pages[id]) == (rid, layer);
    }
    assert Elems(found) == DraftIds(c, rid, [layer]);
  }

  lemma DraftIdsSnoc(c: Cache, rid: int, layers: seq<int>, layer: int)
    ensures ReleaseDrafts(Drop(c, DraftIds(c, rid, layers)), rid, [layer])
         == Drop(c, DraftIds(c, rid, layers + [layer]))
  {
    var d := Drop(c, DraftIds(c, rid, layers));
    assert DraftIds(c, rid, layers + [layer]) == DraftIds(c, rid, layers) + DraftIds(d, rid, [layer]);
    DropTwice(c, DraftIds(c, rid, layers), DraftIds(d, rid, [layer]));
  }

  lemma NoEntryNoList(t: map<LayerKey, seq<int>>, c: Cache, rid: int, left: set<LayerKey>)
    requires TableMatches(t, c)
    requires forall l: int :: (rid, l) in t ==> (rid, l) in left
    ensures forall l: int :: (rid, l) !in left ==> ListOf(c, (rid, l)) == []
  {
    forall l: int | (rid, l) !in left ensures ListOf(c, (rid, l)) == [] {
      assert EntryMatches(t, c, (rid, l));
    }
  }

  lemma DropNothing(c: Cache)
    ensures Drop(c, {}) == c
  {
    WithoutNone(c.lru, {});
    assert c.pages - {} == c.pages;
  }

  lemma DropAbsent(c: Cache, id: int)
    requires Inv(c) && id !in c.pages
    ensures Drop(c, {id}) == c
  {
    WithoutNone(c.lru, {id});
    assert c.pages - {id} == c.pages;
  }

  /** Dropping pages of one list, and filtering that list, keeps the table right. */
  lemma DropListMatches(t: map<LayerKey, seq<int>>, u: map<LayerKey, seq<int>>, c: Cache, d: set<int>, key: LayerKey)
    requires Inv(c) && TableMatches(t, c)
    requires forall id :: id in d ==> id in ListOf(c, key)
    requires u == if Without(ListOf(c, key), d) == [] then t - {key} else t[key := Without(ListOf(c, key), d)]
    ensures TableMatches(u, Drop(c, d))
  {
    forall k: LayerKey ensures EntryMatches(u, Drop(c, d), k) {
      DropListOf(c, d, k);
      assert EntryMatches(t, c, k);
      if k != key {
        ListOfFacts(c, k);
        ListOfFacts(c, key);
        WithoutNone(ListOf(c, k), d);
      }
    }
  }

  /** Popping a whole list empties it and leaves the request's other lists alone. */
  lemma DropWholeList(t: map<LayerKey, seq<int>>, c: Cache, rid: int, layer: int)
    requires Inv(c) && TableMatches(t, c)
    ensures var d := Drop(c, Elems(ListOf(c, (rid, layer))));
      && TableMatches(t - {(rid, layer)}, d)
      && ListOf(d, (rid, layer)) == []
      && (forall l: int :: l != layer ==> ListOf(d, (rid, l)) == ListOf(c, (rid, l)))
      && Elems(ListOf(c, (rid, layer))) <= OwnedIds(c, rid)
  {
    var key := (rid, layer);
    var gone := Elems(ListOf(c, key));
    WithoutAll(ListOf(c, key), gone);
    DropListMatches(t, t - {key}, c, gone, key);
    DropListOf(c, gone, key);
    ListOfFacts(c, key);
    forall l: int | l != layer ensures ListOf(Drop(c, gone), (rid, l)) == ListOf(c, (rid, l)) {
      DropListOf(c, gone, (rid, l));
      ListOfFacts(c, (rid, l));
      WithoutNone(ListOf(c, (rid, l)), gone);
    }
  }

  /** When all lists of a request are empty, all its pages are gone. */
  lemma NoListNoPage(c: Cache, done: set<int>, rid: int)
    requires Inv(Drop(c, done)) && done <= OwnedIds(c, rid)
    requires forall l: int :: ListOf(Drop(c, done), (rid, l)) == []
    ensures done == OwnedIds(c, rid)
  {
    var d := Drop(c, done);
    forall id | id in OwnedIds(c, rid) ensures id !in d.pages {
      var l := c.pages[id].layerId;
      ListOfFacts(d, (rid, l));
      assert ListOf(d, (rid, l)) == [];
      assert id in d.pages ==> KeyOf(d.pages[id]) == (rid, l);
    }
  }

  lemma SetPinnedNone(c: Cache, pin: bool)
    ensures SetPinned(c, [], pin) == c
  {
    assert SetPinned(c, [], pin).pages == c.pages;
  }

  /** Pinning one page more. */
  lemma SetPinnedOneMore(t: map<LayerKey, seq<int>>, c: Cache, d: Cache, ids: seq<int>, id: int, pin: bool)
    requires Inv(c) && d == SetPinned(c, ids, pin) && TableMatches(t, d)
    ensures var e := SetPinned(c, ids + [id], pin);
      && Inv(e) && TableMatches(t, e)
      && e == if id in d.pages then d.(pages := d.pages[id := d.pages[id].(pinned := pin)]) else d
    ensures id in d.pages && d.pages[id].pinned == pin ==> SetPinned(c, ids + [id], pin) == d
  {
    var e := SetPinned(c, ids + [id], pin);
    SetPinnedInv(c, ids + [id], pin);
    assert e.pages == if id in d.pages then d.pages[id := d.pages[id].(pinned := pin)] else d.pages;
    forall k: LayerKey ensures ListOf(e, k) == ListOf(d, k) {
      SameUnder(d, e, k);
    }
    SameListsSameTable(t, d, e);
  }

  lemma TouchOneKeeps(t: map<LayerKey, seq<int>>, c: Cache, id: int)
    requires Inv(c) && TableMatches(t, c)
    ensures Inv(TouchOne(c, id)) && TableMatches(t, TouchOne(c, id))
  {
    TouchOneInv(c, id);
    forall k: LayerKey ensures ListOf(TouchOne(c, id), k) == ListOf(c, k) {
      SameUnder(c, TouchOne(c, id), k);
    }
    SameListsSameTable(t, c, TouchOne(c, id));
  }

  function Marked(c: Cache, done: set<int>, m: PageMark): map<int, KVPage> {
    map id | id in c.pages :: if id in done then MarkPage(m, c.pages[id]) else c.pages[id]
  }

  lemma MarkNone(c: Cache, m: PageMark)
    ensures Marked(c, {}, m) == c.pages
  {}

  lemma MarkOneMore(c: Cache, done: set<int>, id: int, m: PageMark)
    requires id in c.pages
    ensures id in Marked(c, done, m)
    ensures Marked(c, done, m)[id := MarkPage(m, Marked(c, done, m)[id])] == Marked(c, done + {id}, m)
  {
    var g := c.pages[id];
    assert MarkPage(m, MarkPage(m, g)) == MarkPage(m, g);
  }

  lemma MarkOwnedDone(c: Cache, done: set<int>, rid: int, layers: seq<int>, m: PageMark)
    requires forall id :: id in done <==> id in c.pages && Owned(c.pages[id], rid, layers)
    ensures c.(pages := Marked(c, done, m)) == MarkOwned(c, rid, layers, m)
  {
    forall id | id in c.pages ensures Marked(c, done, m)[id] == MarkOwned(c, rid, layers, m).pages[id] {
      assert id in done <==> Owned(c.pages[id], rid, layers);
    }
    assert Marked(c, done, m) == MarkOwned(c, rid, layers, m).pages;
  }

  lemma MarkKeepsAll(t: map<LayerKey, seq<int>>, c: Cache, rid: int, layers: seq<int>, m: PageMark,
                     live: int, pinned: int, used: int, capacity: int)
    requires Inv(c) && TableMatches(t, c) && Balanced(c, live, pinned, used, capacity)
    ensures Inv(MarkOwned(c, rid, layers, m)) && TableMatches(t, MarkOwned(c, rid, layers, m))
    ensures Balanced(MarkOwned(c, rid, layers, m), live, pinned, used, capacity)
  {
    MarkOwnedInv(c, rid, layers, m);
    SameListsSameTable(t, c, MarkOwned(c, rid, layers, m));
    FlagsBalanced(c, MarkOwned(c, rid, layers, m), live, pinned, used, capacity);
  }

  /** `left` tokens do not fit into fewer than `k` pages. */
  predicate Fits(k: int, size: int, left: int) { k > 0 ==> (k - 1) * size < left }

  lemma AllocStep(c: Cache, rid: int, layer: int, start: int, total: int, k: nat, pin: bool)
    requires Inv(c) && k > 0 && Fits(k, c.pageSize, total - start)
    ensures var count := Min(c.pageSize, total - start);
      var d := AllocOne(c, rid, layer, start, count, pin);
      && 1 <= count <= c.pageSize
      && Fits(k - 1, c.pageSize, total - (start + count))
      && ListOf(d, (rid, layer)) == ListOf(c, (rid, layer)) + [c.nextId]
      && AllocPages(c, rid, layer, start, total, k, pin)
           == AllocPages(d, rid, layer, start + count, total, k - 1, pin)
  {
    OnePageLess(k, c.pageSize, total - start);
    InvFreshIds(c);
    AllocOneList(c, rid, layer, start, Min(c.pageSize, total - start), pin, (rid, layer));
  }

  lemma AllocLayerMap(c: Cache, rid: int, layers: seq<int>, i: nat, total: int, pin: bool)
    requires Inv(c) && i < |layers|
    ensures var d := AllocLayer(c, rid, layers[i], total, pin);
      && d.pageSize == c.pageSize
      && AllocLayers(d, rid, layers[i + 1..], total, pin) == AllocLayers(c, rid, layers[i..], total, pin)
      && LayerMap(d, rid, layers[..i + 1])
           == LayerMap(c, rid, layers[..i])[layers[i] := ListOf(d, (rid, layers[i]))]
  {
    AllocLayerFacts(c, rid, layers[i], total, pin);
    var d := AllocLayer(c, rid, layers[i], total, pin);
    assert layers[i..][0] == layers[i] && layers[i..][1..] == layers[i + 1..];
    assert layers[..i + 1] == layers[..i] + [layers[i]];
    forall l | l in layers[..i] && l != layers[i] ensures ListOf(d, (rid, l)) == ListOf(c, (rid, l)) {
      assert l !in [layers[i]];
    }
  }

  /** The unpinned pages one scan takes. */
  function Evictable(c: Cache, drafts: bool): set<int> {
    if drafts then UnpinnedDrafts(c) else UnpinnedOthers(c)
  }

  lemma EvictNothing(c: Cache)
    ensures EvictAll(c, []) == c
  {
    WithoutNone(c.lru, Elems([]));
    assert c.pages - Elems([]) == c.pages;
  }

  /** Evicting one more page after others. */
  lemma EvictAllSnoc(c: Cache, ids: seq<int>, x: int)
    requires x !in ids
    ensures EvictAll(EvictAll(c, ids), [x]) == EvictAll(c, ids + [x])
  {
    var d := EvictAll(c, ids);
    var gone := Elems(ids);
    assert Elems(ids + [x]) == gone + {x};
    assert Elems([x]) == {x};
    WithoutTwice(c.lru, gone, {x});
    assert c.pages - gone - {x} == c.pages - (gone + {x});
    assert Weight(d, x, LiveBytes) == Weight(c, x, LiveBytes);
    GaugeSnoc(c, ids, x, LiveBytes);
    assert Gauged(d, [x], LiveBytes) == Weight(d, x, LiveBytes) by {
      assert [x] == [] + [x];
      GaugeSnoc(d, [], x, LiveBytes);
    }
  }

  /**
   The scan reaches a live page that it has not evicted, and its flags are the
   original ones. `order` is the LRU order without the pages in `before`.
   */
  lemma NextVictim(c: Cache, order: seq<int>, i: nat, before: seq<int>, drafts: bool)
    requires Inv(c) && i < |order|
    requires order == Without(c.lru, Elems(before))
    ensures var id, d := order[i], Evictable(c, drafts);
      var ids := before + Within(order[..i], d);
      && id in c.pages && id !in ids
      && id in EvictAll(c, ids).pages && EvictAll(c, ids).pages[id] == c.pages[id]
      && EvictAll(EvictAll(c, ids), [id]) == EvictAll(c, ids + [id])
      && before + Within(order[..i + 1], d) == if id in d then ids + [id] else ids
  {
    var id, d := order[i], Evictable(c, drafts);
    WithoutMember(c.lru, Elems(before));
    WithoutNoDup(c.lru, Elems(before));
    WithinMember(order[..i], d);
    assert id in order;
    assert id !in order[..i];
    assert order[..i + 1] == order[..i] + [id];
    WithinSnoc(order[..i], id, d);
    EvictAllSnoc(c, before + Within(order[..i], d), id);
  }

  /** Where the scan stops, it has taken the first evictable pages of the order. */
  lemma ScanDone(c: Cache, order: seq<int>, i: nat, before: seq<int>, drafts: bool, n: int)
    requires i <= |order| && |before| <= Max(n, 0)
    requires |before + Within(order[..i], Evictable(c, drafts))| <= Max(n, 0)
    requires i == |order| || |before + Within(order[..i], Evictable(c, drafts))| >= n
    ensures Within(order[..i], Evictable(c, drafts)) == Take(Within(order, Evictable(c, drafts)), n - |before|)
  {
    WithinPrefix(order, i, Evictable(c, drafts));
    assert order[..|order|] == order;
  }

  lemma FirstScan(c: Cache, n: int)
    ensures [] + Take(Within(Without(c.lru, Elems([])), Evictable(c, true)), n - 0)
         == Take(Within(c.lru, UnpinnedDrafts(c)), n)
  {
    WithoutNone(c.lru, Elems([]));
  }

  lemma SecondScan(c: Cache, n: int, first: seq<int>)
    requires first == Take(Within(c.lru, UnpinnedDrafts(c)), n)
    ensures Within(Without(c.lru, Elems(first)), Evictable(c, false)) == Within(c.lru, UnpinnedOthers(c))
  {
    var d := UnpinnedDrafts(c);
    WithinMember(c.lru, d);
    TakeMember(Within(c.lru, d), n);
    forall x | x in Elems(first) ensures x in d {
      assert x in Within(c.lru, d);
    }
    WithinAfterWithout(c.lru, Elems(first), UnpinnedOthers(c));
  }

  /** The two scans together take a prefix of the eviction order. */
  lemma TwoScans(c: Cache, n: int)
    ensures var first := [] + Take(Within(Without(c.lru, Elems([])), Evictable(c, true)), n - 0);
      first + Take(Within(Without(c.lru, Elems(first)), Evictable(c, false)), n - |first|) == Victims(c, n)
  {
    FirstScan(c, n);
    SecondScan(c, n, Take(Within(c.lru, UnpinnedDrafts(c)), n));
    TakeConcat(Within(c.lru, UnpinnedDrafts(c)), Within(c.lru, UnpinnedOthers(c)), n);
  }

  lemma EvictOneSpelledOut(c: Cache, id: int, bytes: int)
    requires Inv(c) && id in c.pages && bytes == c.pages[id].tokenCount * c.bytesPerToken
    ensures EvictAll(c, [id]) == Drop(c, {id}).(evictions := c.evictions + 1,
              evictedBytes := c.evictedBytes + bytes)
    ensures Inv(EvictAll(c, [id]))
    ensures forall k: LayerKey :: ListOf(EvictAll(c, [id]), k) == ListOf(Drop(c, {id}), k)
  {
    assert Elems([id]) == {id};
    assert [id] == [] + [id];
    GaugeSnoc(c, [], id, LiveBytes);
    EvictAllInv(c, [id]);
    forall k: LayerKey ensures ListOf(EvictAll(c, [id]), k) == ListOf(Drop(c, {id}), k) {
      assert Under(EvictAll(c, [id]), k) == Under(Drop(c, {id}), k);
    }
  }

  lemma AllocOneTable(t: map<LayerKey, seq<int>>, c: Cache, rid: int, layer: int, start: int, count: int, pin: bool)
    requires Inv(c) && TableMatches(t, c)
    ensures var key := (rid, layer);
      TableMatches(t[key := Lookup(t, key) + [c.nextId]], AllocOne(c, rid, layer, start, count, pin))
  {
    var key := (rid, layer);
    var u, d := t[key := Lookup(t, key) + [c.nextId]], AllocOne(c, rid, layer, start, count, pin);
    InvFreshIds(c);
    forall k: LayerKey ensures EntryMatches(u, d, k) {
      AllocOneList(c, rid, layer, start, count, pin, k);
      assert EntryMatches(t, c, k);
    }
  }

  /** Pages, LRU order and counters are in step. */
  ghost predicate Kept(c: Cache, live: int, pinned: int, used: int, capacity: int) {
    Inv(c) && Balanced(c, live, pinned, used, capacity)
  }

  /** All four structures are in step: pages, LRU order, page table and counters. */
  ghost predicate Sound(c: Cache, t: map<LayerKey, seq<int>>, live: int, pinned: int, used: int, capacity: int) {
    Kept(c, live, pinned, used, capacity) && TableMatches(t, c)
  }

  /** Once a page is forgotten and unlisted, counting the eviction completes it. */
  lemma EvictedIsSound(c: Cache, t: map<LayerKey, seq<int>>, id: int, bytes: int,
                       live: int, pinned: int, used: int, capacity: int)
    requires Inv(c) && id in c.pages && bytes == c.pages[id].tokenCount * c.bytesPerToken
    requires TableMatches(t, Drop(c, {id})) && Kept(Drop(c, {id}), live, pinned, used, capacity)
    ensures var d := Drop(c, {id}).(evictions := c.evictions + 1, evictedBytes := c.evictedBytes + bytes);
      d == EvictAll(c, [id]) && Sound(d, t, live, pinned, used, capacity)
  {
    var d := Drop(c, {id});
    EvictOneSpelledOut(c, id, bytes);
    SamePagesBalanced(d, EvictAll(c, [id]), live, pinned, used, capacity);
    SameListsSameTable(t, d, EvictAll(c, [id]));
  }

  lemma DropOneKept(c: Cache, id: int, live: int, pinned: int, used: int, capacity: int)
    requires Kept(c, live, pinned, used, capacity) && id in c.pages
    ensures var g := c.pages[id]; var bytes := g.tokenCount * c.bytesPerToken;
      Kept(Drop(c, {id}), live - bytes, if g.pinned then pinned - bytes else pinned,
           used - g.tokenCount, capacity - c.pageSize)
  {
    DropInv(c, {id});
    DropOneBalanced(c, id, live, pinned, used, capacity);
  }

  /** The values after one page has been allocated: cache, table, and counters with the page's `bytes` added. */
  lemma AllocOneSound(c: Cache, t: map<LayerKey, seq<int>>, rid: int, layer: int, start: int, count: int, pin: bool,
                      live: int, pinned: int, used: int, capacity: int, bytes: int)
    requires Sound(c, t, live, pinned, used, capacity) && 1 <= count <= c.pageSize && bytes == count * c.bytesPerToken
    ensures Sound(AllocOne(c, rid, layer, start, count, pin), t[(rid, layer) := Lookup(t, (rid, layer)) + [c.nextId]],
                  live + bytes, if pin then pinned + bytes else pinned, used + count, capacity + c.pageSize)
  {
    AllocOneInv(c, rid, layer, start, count, pin);
    AllocOneBalanced(c, rid, layer, start, count, pin, live, pinned, used, capacity);
    AllocOneTable(t, c, rid, layer, start, count, pin);
  }

  lemma TouchOneSound(c: Cache, t: map<LayerKey, seq<int>>, id: int,
                      live: int, pinned: int, used: int, capacity: int)
    requires Sound(c, t, live, pinned, used, capacity)
    ensures Sound(TouchOne(c, id), t, live, pinned, used, capacity)
  {
    TouchOneKeeps(t, c, id);
    TouchOneBalanced(c, id, live, pinned, used, capacity);
  }
}
