/**
 The paged KV cache as a value: live pages, LRU order, and the operations on them.
 The page table and the byte and token counters are redundant with these two; the
 class in KvCache.dfy keeps them and proves that they agree.
 */
module KvCacheModel {
  import opened Arithmetic
  import opened Sequences

  /** A request id and a layer id. */
  type LayerKey = (int, int)

  datatype KVPage = KVPage(
    pageId: int, requestId: int, layerId: int, tokenStart: int, tokenCount: int,
    pinned: bool, isCommitted: bool, isDraft: bool)

  datatype Cache = Cache(
    pageSize: int, maxPages: int, bytesPerToken: int,
    pages: map<int, KVPage>, lru: seq<int>,
    nextId: int, evictions: int, evictedBytes: int, accesses: int, hits: int)

  /** An allocation either raises or grants the pages; the cache may have evicted in both cases. */
  datatype AllocResult = Refused(cache: Cache) | Granted(cache: Cache)

  function KeyOf(g: KVPage): LayerKey { (g.requestId, g.layerId) }

  /** The live pages of one request on one layer. */
  function Under(c: Cache, k: LayerKey): set<int> {
    set id | id in c.pages && KeyOf(c.pages[id]) == k
  }

  function AllIds(c: Cache): seq<int> { if c.nextId <= 0 then [] else Range(0, c.nextId) }

  /** The page list of one request on one layer, in order of allocation. */
  function ListOf(c: Cache, k: LayerKey): seq<int> { Within(AllIds(c), Under(c, k)) }

  // ---------------------------------------------------------------- invariant

  ghost predicate PageOk(c: Cache, id: int)
    requires id in c.pages
  {
    && 0 <= id < c.nextId
    && c.pages[id].pageId == id
    && 1 <= c.pages[id].tokenCount <= c.pageSize
    && !(c.pages[id].isDraft && c.pages[id].isCommitted)
  }

  ghost predicate LruOk(c: Cache) {
    NoDup(c.lru) && forall id :: id in c.lru <==> id in c.pages
  }

  /** The invariant of pages and LRU order. */
  ghost predicate Inv(c: Cache) {
    && c.pageSize >= 1 && c.bytesPerToken >= 0 && c.nextId >= 0
    && (forall id :: id in c.pages ==> PageOk(c, id))
    && LruOk(c)
  }

  /** `c` and `d` differ only in pages, LRU order and the next page id. */
  predicate SameCounters(c: Cache, d: Cache) {
    d == c.(pages := d.pages, lru := d.lru, nextId := d.nextId)
  }

  /** A page list holds each of its pages exactly once, and nothing else. */
  lemma ListOfFacts(c: Cache, k: LayerKey)
    requires Inv(c)
    ensures NoDup(ListOf(c, k))
    ensures forall id :: id in ListOf(c, k) <==> id in c.pages && KeyOf(c.pages[id]) == k
  {
    WithinNoDup(AllIds(c), Under(c, k));
    WithinMember(AllIds(c), Under(c, k));
    forall id | id in c.pages ensures id in AllIds(c) {
      assert PageOk(c, id);
      RangeMember(0, c.nextId, id);
    }
  }

  lemma LiveIsLru(c: Cache)
    requires Inv(c)
    ensures |c.pages| == |c.lru|
  {
    SetSize(c.lru, c.pages.Keys);
  }

  // ----------------------------------------------------------------- dropping

  /** Removes the pages in `d`. */
  function Drop(c: Cache, d: set<int>): Cache {
    c.(pages := c.pages - d, lru := Without(c.lru, d))
  }

  lemma DropListOf(c: Cache, d: set<int>, k: LayerKey)
    ensures ListOf(Drop(c, d), k) == Without(ListOf(c, k), d)
  {
    WithoutOfWithin(AllIds(c), Under(c, k), d);
    assert Under(Drop(c, d), k) == Under(c, k) - d;
  }

  lemma DropInv(c: Cache, d: set<int>)
    requires Inv(c)
    ensures Inv(Drop(c, d))
  {
    WithoutNoDup(c.lru, d);
    WithoutMember(c.lru, d);
    forall id | id in Drop(c, d).pages ensures PageOk(Drop(c, d), id) {
      assert PageOk(c, id);
    }
  }

  lemma DropTwice(c: Cache, d: set<int>, e: set<int>)
    ensures Drop(Drop(c, d), e) == Drop(c, d + e)
  {
    WithoutTwice(c.lru, d, e);
    assert c.pages - d - e == c.pages - (d + e);
  }

  function OwnedIds(c: Cache, rid: int): set<int> {
    set id | id in c.pages && c.pages[id].requestId == rid
  }

  function DraftIds(c: Cache, rid: int, layers: seq<int>): set<int> {
    set id | id in c.pages && c.pages[id].requestId == rid
          && c.pages[id].layerId in layers && c.pages[id].isDraft
  }

  /** `release_request`: every page of the request goes. */
  function Release(c: Cache, rid: int): Cache { Drop(c, OwnedIds(c, rid)) }

  /** `release_draft_pages`: the request's draft pages on `layers` go. */
  function ReleaseDrafts(c: Cache, rid: int, layers: seq<int>): Cache {
    Drop(c, DraftIds(c, rid, layers))
  }

  // ----------------------------------------------------------------- eviction

  function UnpinnedDrafts(c: Cache): set<int> {
    set id | id in c.pages && !c.pages[id].pinned && c.pages[id].isDraft
  }

  function UnpinnedOthers(c: Cache): set<int> {
    set id | id in c.pages && !c.pages[id].pinned && !c.pages[id].isDraft
  }

  function Unpinned(c: Cache): set<int> {
    set id | id in c.pages && !c.pages[id].pinned
  }

  /** The order in which pages may be evicted: unpinned drafts, then the other unpinned pages, each by LRU. */
  function EvictionOrder(c: Cache): seq<int> {
    Within(c.lru, UnpinnedDrafts(c)) + Within(c.lru, UnpinnedOthers(c))
  }

  function Victims(c: Cache, n: int): seq<int> { Take(EvictionOrder(c), n) }

  /** The quantities the cache counts over its pages. */
  datatype Gauge = LiveBytes | PinnedBytes | UsedTokens

  /** What one page adds to a gauge; a page that is not live adds nothing. */
  function Weight(c: Cache, id: int, g: Gauge): int {
    if id !in c.pages then 0
    else match g
      case LiveBytes => c.pages[id].tokenCount * c.bytesPerToken
      case PinnedBytes => if c.pages[id].pinned then c.pages[id].tokenCount * c.bytesPerToken else 0
      case UsedTokens => c.pages[id].tokenCount
  }

  function Gauged(c: Cache, ids: seq<int>, g: Gauge): int {
    if ids == [] then 0 else Gauged(c, ids[..|ids| - 1], g) + Weight(c, ids[|ids| - 1], g)
  }

  /** Evicts the listed pages. */
  function EvictAll(c: Cache, ids: seq<int>): Cache {
    Drop(c, Elems(ids)).(evictions := c.evictions + |ids|,
                         evictedBytes := c.evictedBytes + Gauged(c, ids, LiveBytes))
  }

  /** `evict_lru(n)`. */
  function Evict(c: Cache, n: int): Cache { EvictAll(c, Victims(c, n)) }

  lemma EvictionOrderFacts(c: Cache)
    requires Inv(c)
    ensures NoDup(EvictionOrder(c))
    ensures forall id :: id in EvictionOrder(c) <==> id in Unpinned(c)
    ensures |EvictionOrder(c)| == |Unpinned(c)|
  {
    WithinMember(c.lru, UnpinnedDrafts(c));
    WithinMember(c.lru, UnpinnedOthers(c));
    WithinNoDup(c.lru, UnpinnedDrafts(c));
    WithinNoDup(c.lru, UnpinnedOthers(c));
    ConcatNoDup(Within(c.lru, UnpinnedDrafts(c)), Within(c.lru, UnpinnedOthers(c)));
    SetSize(EvictionOrder(c), Unpinned(c));
  }

  lemma VictimsFacts(c: Cache, n: int)
    requires Inv(c)
    ensures NoDup(Victims(c, n))
    ensures |Victims(c, n)| == Max(0, Min(n, |Unpinned(c)|))
    ensures forall id :: id in Victims(c, n) ==> id in c.pages && !c.pages[id].pinned
  {
    EvictionOrderFacts(c);
    var order, v := EvictionOrder(c), Victims(c, n);
    forall id | id in v ensures id in Unpinned(c) {
      var i :| 0 <= i < |v| && v[i] == id;
      assert order[i] == id && id in order;
    }
  }

  lemma EvictAllInv(c: Cache, ids: seq<int>)
    requires Inv(c)
    ensures Inv(EvictAll(c, ids))
  {
    DropInv(c, Elems(ids));
    var d, e := Drop(c, Elems(ids)), EvictAll(c, ids);
    forall id | id in e.pages ensures PageOk(e, id) {
      assert PageOk(d, id);
    }
  }

  lemma EvictInv(c: Cache, n: int)
    requires Inv(c)
    ensures Inv(Evict(c, n))
    ensures |Evict(c, n).pages| == |c.pages| - Max(0, Min(n, |Unpinned(c)|))
  {
    EvictAllInv(c, Victims(c, n));
    VictimsFacts(c, n);
    NoDupSize(Victims(c, n));
    assert Elems(Victims(c, n)) <= c.pages.Keys;
    assert Evict(c, n).pages.Keys == c.pages.Keys - Elems(Victims(c, n));
  }

  // --------------------------------------------------------------- allocation

  /** `_allocate_one_page`. */
  function AllocOne(c: Cache, rid: int, layer: int, start: int, count: int, pin: bool): Cache {
    var id := c.nextId;
    c.(nextId := id + 1,
       pages := c.pages[id := KVPage(id, rid, layer, start, count, pin, false, false)],
       lru := c.lru + [id])
  }

  /** `_required_pages`. */
  function RequiredPages(c: Cache, tokens: int): int
    requires c.pageSize >= 1
  {
    if tokens <= 0 then 0 else CeilDiv(tokens, c.pageSize)
  }

  /** `k` consecutive pages of one layer, the first starting at token `start`. */
  function AllocPages(c: Cache, rid: int, layer: int, start: int, total: int, k: nat, pin: bool): Cache
    decreases k
  {
    if k == 0 then c
    else
      var count := Min(c.pageSize, total - start);
      AllocPages(AllocOne(c, rid, layer, start, count, pin), rid, layer, start + count, total, k - 1, pin)
  }

  function AllocLayer(c: Cache, rid: int, layer: int, total: int, pin: bool): Cache
    requires c.pageSize >= 1
  {
    var capacity := |ListOf(c, (rid, layer))| * c.pageSize;
    if total > capacity then
      AllocPages(c, rid, layer, capacity, total, CeilDiv(total - capacity, c.pageSize), pin)
    else c
  }

  function AllocLayers(c: Cache, rid: int, layers: seq<int>, total: int, pin: bool): (d: Cache)
    requires c.pageSize >= 1
    decreases |layers|
  {
    if layers == [] then c
    else
      var d := AllocLayer(c, rid, layers[0], total, pin);
      SettingsKept(c, rid, layers[0], total, pin);
      AllocLayers(d, rid, layers[1..], total, pin)
  }

  lemma SettingsKeptPages(c: Cache, rid: int, layer: int, start: int, total: int, k: nat, pin: bool)
    ensures SameCounters(c, AllocPages(c, rid, layer, start, total, k, pin))
    decreases k
  {
    if k > 0 {
      var count := Min(c.pageSize, total - start);
      SettingsKeptPages(AllocOne(c, rid, layer, start, count, pin), rid, layer, start + count, total, k - 1, pin);
    }
  }

  lemma SettingsKept(c: Cache, rid: int, layer: int, total: int, pin: bool)
    requires c.pageSize >= 1
    ensures SameCounters(c, AllocLayer(c, rid, layer, total, pin))
  {
    var capacity := |ListOf(c, (rid, layer))| * c.pageSize;
    if total > capacity {
      SettingsKeptPages(c, rid, layer, capacity, total, CeilDiv(total - capacity, c.pageSize), pin);
    }
  }

  lemma {:induction false} SettingsKeptLayers(c: Cache, rid: int, layers: seq<int>, total: int, pin: bool)
    requires c.pageSize >= 1
    ensures SameCounters(c, AllocLayers(c, rid, layers, total, pin))
    decreases |layers|
  {
    if layers != [] {
      SettingsKept(c, rid, layers[0], total, pin);
      SettingsKeptLayers(AllocLayer(c, rid, layers[0], total, pin), rid, layers[1..], total, pin);
    }
  }

  /** Pages missing over all layers before anything is evicted. */
  function Needed(c: Cache, rid: int, layers: seq<int>, total: int): (n: nat)
    requires c.pageSize >= 1
  {
    if layers == [] then 0
    else
      var k := |layers| - 1;
      Needed(c, rid, layers[..k], total)
      + Max(RequiredPages(c, total) - |ListOf(c, (rid, layers[k]))|, 0)
  }

  function Deficit(c: Cache, rid: int, layers: seq<int>, total: int): int
    requires c.pageSize >= 1
  {
    Max(Needed(c, rid, layers, total) - (c.maxPages - |c.pages|), 0)
  }

  /** `allocate_for_request`: evict the deficit, give up if that is not enough, else allocate layer by layer. */
  function Allocate(c: Cache, rid: int, layers: seq<int>, total: int, pin: bool): AllocResult
    requires c.pageSize >= 1
  {
    var needed := Needed(c, rid, layers, total);
    var deficit := Deficit(c, rid, layers, total);
    var d := if deficit > 0 then Evict(c, deficit) else c;
    if d.maxPages - |d.pages| < needed then Refused(d)
    else Granted(AllocLayers(d, rid, layers, total, pin))
  }

  /** `can_allocate`. */
  predicate CanAllocate(c: Cache, rid: int, layers: seq<int>, total: int)
    requires c.pageSize >= 1
  {
    var needed := Needed(c, rid, layers, total);
    needed == 0 || c.maxPages - |c.pages| + |Unpinned(c)| >= needed
  }

  /** The map from layer to page list that an allocation returns. */
  function LayerMap(c: Cache, rid: int, layers: seq<int>): map<int, seq<int>> {
    map l | l in layers :: ListOf(c, (rid, l))
  }

  // -------------------------------------------------- marking, pinning, touching

  predicate Owned(g: KVPage, rid: int, layers: seq<int>) {
    g.requestId == rid && g.layerId in layers
  }

  /** What `commit_tokens`, `allocate_draft_pages` and `accept_draft_pages` do to a page's flags. */
  datatype PageMark = CommitPage | DraftPage | AcceptPage

  function MarkPage(m: PageMark, g: KVPage): KVPage {
    match m
    case CommitPage => g.(isCommitted := true, isDraft := false)
    case DraftPage => if g.isCommitted then g else g.(isDraft := true)
    case AcceptPage => if g.isDraft then g.(isCommitted := true, isDraft := false) else g
  }

  /** Marks every page of the request on the given layers. */
  function MarkOwned(c: Cache, rid: int, layers: seq<int>, m: PageMark): Cache {
    c.(pages := map id | id in c.pages ::
         if Owned(c.pages[id], rid, layers) then MarkPage(m, c.pages[id]) else c.pages[id])
  }

  function CommitMark(c: Cache, rid: int, layers: seq<int>): Cache { MarkOwned(c, rid, layers, CommitPage) }

  function DraftMark(c: Cache, rid: int, layers: seq<int>): Cache { MarkOwned(c, rid, layers, DraftPage) }

  /** `accept_draft_pages`. */
  function AcceptMark(c: Cache, rid: int, layers: seq<int>): Cache { MarkOwned(c, rid, layers, AcceptPage) }

  /** `pin_pages` and `unpin_pages`; ids that are not live are skipped. */
  function SetPinned(c: Cache, ids: seq<int>, pin: bool): Cache {
    c.(pages := map id | id in c.pages ::
         if id in ids then c.pages[id].(pinned := pin) else c.pages[id])
  }

  function TouchOne(c: Cache, id: int): Cache {
    if id in c.pages
    then c.(accesses := c.accesses + 1, hits := c.hits + 1, lru := Without(c.lru, {id}) + [id])
    else c.(accesses := c.accesses + 1)
  }

  /** `touch_pages`. */
  function Touch(c: Cache, ids: seq<int>): Cache
    decreases |ids|
  {
    if ids == [] then c else Touch(TouchOne(c, ids[0]), ids[1..])
  }

  /** `commit_tokens` for `total` tokens. */
  function Commit(c: Cache, rid: int, layers: seq<int>, total: int, pin: bool): AllocResult
    requires c.pageSize >= 1
  {
    match Allocate(c, rid, layers, total, pin)
    case Refused(d) => Refused(d)
    case Granted(d) => Granted(CommitMark(d, rid, layers))
  }

  /** `allocate_draft_pages` for `total` tokens. */
  function AllocateDraft(c: Cache, rid: int, layers: seq<int>, total: int): AllocResult
    requires c.pageSize >= 1
  {
    match Allocate(c, rid, layers, total, true)
    case Refused(d) => Refused(d)
    case Granted(d) => Granted(DraftMark(d, rid, layers))
  }

  lemma SameUnder(c: Cache, d: Cache, k: LayerKey)
    requires d.pages.Keys == c.pages.Keys
    requires forall id :: id in c.pages ==> KeyOf(d.pages[id]) == KeyOf(c.pages[id])
    ensures Under(d, k) == Under(c, k)
  {
    forall id | id in c.pages ensures id in Under(d, k) <==> id in Under(c, k) {
      assert KeyOf(d.pages[id]) == KeyOf(c.pages[id]);
    }
  }

  /** Changing flags of pages, and nothing else, keeps the invariant. */
  lemma RemapInv(c: Cache, d: Cache)
    requires Inv(c)
    requires d == c.(pages := d.pages) && d.pages.Keys == c.pages.Keys
    requires forall id :: id in c.pages ==>
      && d.pages[id] == c.pages[id].(pinned := d.pages[id].pinned,
                                     isCommitted := d.pages[id].isCommitted, isDraft := d.pages[id].isDraft)
      && !(d.pages[id].isDraft && d.pages[id].isCommitted)
    ensures Inv(d)
    ensures forall k: LayerKey :: ListOf(d, k) == ListOf(c, k)
  {
    forall k: LayerKey ensures ListOf(d, k) == ListOf(c, k) {
      SameUnder(c, d, k);
    }
    forall id | id in d.pages ensures PageOk(d, id) {
      assert PageOk(c, id);
    }
  }

  lemma MarkOwnedInv(c: Cache, rid: int, layers: seq<int>, m: PageMark)
    requires Inv(c)
    ensures Inv(MarkOwned(c, rid, layers, m))
    ensures forall k: LayerKey :: ListOf(MarkOwned(c, rid, layers, m), k) == ListOf(c, k)
    ensures LayerMap(MarkOwned(c, rid, layers, m), rid, layers) == LayerMap(c, rid, layers)
  {
    var d := MarkOwned(c, rid, layers, m);
    forall id | id in c.pages
      ensures d.pages[id] == c.pages[id].(isCommitted := d.pages[id].isCommitted, isDraft := d.pages[id].isDraft)
      ensures !(d.pages[id].isDraft && d.pages[id].isCommitted)
    {
      assert PageOk(c, id);
    }
    RemapInv(c, d);
  }

  lemma SetPinnedInv(c: Cache, ids: seq<int>, pin: bool)
    requires Inv(c)
    ensures Inv(SetPinned(c, ids, pin))
  {
    forall id | id in c.pages ensures !(c.pages[id].isDraft && c.pages[id].isCommitted) {
      assert PageOk(c, id);
    }
    RemapInv(c, SetPinned(c, ids, pin));
  }

  lemma TouchOneInv(c: Cache, id: int)
    requires Inv(c)
    ensures Inv(TouchOne(c, id))
  {
    WithoutNoDup(c.lru, {id});
    WithoutMember(c.lru, {id});
    var d := TouchOne(c, id);
    forall i | i in d.pages ensures PageOk(d, i) {
      assert PageOk(c, i);
    }
  }

  lemma {:induction false} TouchInv(c: Cache, ids: seq<int>)
    requires Inv(c)
    ensures Inv(Touch(c, ids))
    ensures Touch(c, ids).pages == c.pages
    ensures forall k: LayerKey :: ListOf(Touch(c, ids), k) == ListOf(c, k)
    ensures Touch(c, ids) == c.(lru := Touch(c, ids).lru, accesses := Touch(c, ids).accesses,
                                    hits := Touch(c, ids).hits)
    decreases |ids|
  {
    if ids != [] {
      TouchOneInv(c, ids[0]);
      TouchInv(TouchOne(c, ids[0]), ids[1..]);
    }
  }
}
