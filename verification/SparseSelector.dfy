/** Sparse KV selection in the runtime: the best of a request's committed pages, by score and position. */
module SparseSelector {
  import opened Sequences
  import opened KvCacheModel
  import opened KvCache
  import opened Requests
  import opened Ranking
  import opened RuntimeModel

  /** The sort key tells any two pages of a cache apart. */
  lemma KeyIsTotal(c: Cache, decodeTokens: int, s: seq<int>)
    requires Inv(c) && forall id :: id in s ==> id in c.pages
    ensures TotalOn(SelectionOrder(c, decodeTokens), s)
  {
    forall x | x in s ensures c.pages[x].pageId == x {
      assert PageOk(c, x);
    }
  }

  lemma ActiveList(c: Cache, rid: int)
    requires Inv(c)
    ensures var s := Within(c.lru, ActiveIds(c, rid));
      NoDup(s) && |s| == |ActiveIds(c, rid)| && forall id :: id in s <==> id in ActiveIds(c, rid)
  {
    var d := ActiveIds(c, rid);
    WithinMember(c.lru, d);
    WithinNoDup(c.lru, d);
    SetSize(Within(c.lru, d), d);
  }

  /**
   What is selected: `topK` of the request's committed pages, or all there are, each
   ranked before every one that is not selected, and best first.
   */
  lemma SelectedPagesAreBest(c: Cache, r: Req, topK: int, a: int, b: int)
    requires Inv(c)
    ensures var order, ids := SelectionOrder(c, |r.prompt| + |r.committed|), SelectSparse(c, r, topK);
      && |ids| == Max(0, Min(topK, |ActiveIds(c, r.requestId)|)) && NoDup(ids) && Sorted(order, ids)
      && (a in ids ==> a in ActiveIds(c, r.requestId))
      && (a in ids && b in ActiveIds(c, r.requestId) && b !in ids ==> order(a, b))
  {
    var order := SelectionOrder(c, |r.prompt| + |r.committed|);
    var s, ids := Within(c.lru, ActiveIds(c, r.requestId)), SelectSparse(c, r, topK);
    var t := Sort(order, s);
    ActiveList(c, r.requestId);
    KeyIsTotal(c, |r.prompt| + |r.committed|, s);
    SortSorted(order, s);
    SortMember(order, s);
    assert forall i :: 0 <= i < |ids| ==> ids[i] == t[i];
    SortedNoDup(order, ids);
    if a in ids && b in s && b !in ids {
      var i :| 0 <= i < |ids| && ids[i] == a;
      var j :| 0 <= j < |t| && t[j] == b;
      assert j < |ids| ==> ids[j] == b;
    }
  }

  /** With room for all, exactly the request's committed pages are selected. */
  lemma AllWithRoom(c: Cache, r: Req, topK: int, a: int)
    requires Inv(c) && topK >= |c.pages|
    ensures a in SelectSparse(c, r, topK) <==>
      a in c.pages && c.pages[a].requestId == r.requestId && c.pages[a].isCommitted && !c.pages[a].isDraft
  {
    var d, ids := ActiveIds(c, r.requestId), SelectSparse(c, r, topK);
    SetBound(d, c.pages.Keys);
    SelectedPagesAreBest(c, r, topK, a, a);
    forall id | id in ids ensures id in d {
      SelectedPagesAreBest(c, r, topK, id, id);
    }
    SetSize(ids, Elems(ids));
    SubsetFull(Elems(ids), d);
  }

  lemma SetBound(d: set<int>, e: set<int>)
    requires d <= e
    ensures |d| <= |e|
  {
    if d != e {
      assert e == d + (e - d);
    }
  }

  lemma SubsetFull(d: set<int>, e: set<int>)
    requires d <= e && |d| == |e|
    ensures d == e
  {
    forall x | x in e ensures x in d {
      if x !in d {
        SetBound(d + {x}, e);
      }
    }
  }

  /**
   What a decode step reads: all snapshot pages, unless sparse selection is on, asks for at
   least one page and finds a committed one; then only committed pages of the request.
   */
  lemma SparseReads(cfg: Config, c: Cache, r: Req, id: int)
    requires Inv(c)
    ensures var ids := DecodePages(cfg, c, r);
      if cfg.sparseTopK.Some? && cfg.sparseTopK.value >= 1 && ActiveIds(c, r.requestId) != {} then
        && 1 <= |ids| <= cfg.sparseTopK.value
        && (id in ids ==> id in c.pages && c.pages[id].requestId == r.requestId && c.pages[id].isCommitted)
      else ids == KvPageIds(r)
  {
    if cfg.sparseTopK.Some? {
      SelectedPagesAreBest(c, r, cfg.sparseTopK.value, id, id);
    }
  }

  /** How far the end of a page is from the tokens decoded so far. */
  function Away(c: Cache, r: Req, id: int): nat
    requires id in c.pages
  {
    var d := c.pages[id].tokenStart + c.pages[id].tokenCount - (|r.prompt| + |r.committed|);
    if d < 0 then -d else d
  }

  /**
   What selection prefers: a selected page against a committed one that is left out.
   A token of content outweighs a hundred positions of distance, and a position a
   hundred layers; so of two pages that differ in one of these alone, the nearer, the
   fuller or the lower one is selected. Full ties go by layer, first token and page id.
   */
  lemma NearAndFullFirst(c: Cache, r: Req, topK: int, a: int, b: int)
    requires Inv(c) && a in SelectSparse(c, r, topK) && b !in SelectSparse(c, r, topK)
    requires b in ActiveIds(c, r.requestId)
    ensures a in c.pages && a in ActiveIds(c, r.requestId)
    ensures var g, h := c.pages[a], c.pages[b];
      var tokens, nearer, lower := g.tokenCount - h.tokenCount, Away(c, r, b) - Away(c, r, a), h.layerId - g.layerId;
      && 10000 * tokens + 100 * nearer + lower >= 0
      && (10000 * tokens + 100 * nearer + lower == 0 ==> lower >= 0)
      && (tokens == nearer == lower == 0 ==> g.tokenStart <= h.tokenStart)
      && (tokens == nearer == lower == 0 && g.tokenStart == h.tokenStart ==> a < b)
      && (tokens == 0 && lower == 0 ==> Away(c, r, a) <= Away(c, r, b))
      && (nearer == 0 && lower == 0 ==> g.tokenCount >= h.tokenCount)
      && (tokens == 0 && nearer == 0 ==> g.layerId <= h.layerId)
  {
    SelectedPagesAreBest(c, r, topK, a, b);
    assert PageOk(c, a) && PageOk(c, b);
  }

  /** The request's committed pages that are no drafts, in whatever order the page table lists them. */
  method ActivePages(kvCache: KVCache, rid: int) returns (active: seq<int>)
    requires kvCache.Valid()
    ensures NoDup(active) && forall id :: id in active <==> id in ActiveIds(kvCache.State(), rid)
  {
    ghost var d := ActiveIds(kvCache.State(), rid);
    var all := kvCache.PagesForRequest(rid);
    active := [];
    for i := 0 to |all|
      invariant active == Within(all[..i], d)
    {
      assert all[i] in all && all[..i + 1] == all[..i] + [all[i]];
      WithinSnoc(all[..i], all[i], d);
      var page := kvCache.pages[all[i]];
      if page.isCommitted && !page.isDraft {
        active := active + [all[i]];
      }
    }
    assert all[..|all|] == all;
    WithinNoDup(all, d);
    WithinMember(all, d);
  }

  lemma SameRanking(c: Cache, r: Req, active: seq<int>, ranked: seq<int>, topK: int)
    requires Inv(c) && NoDup(active) && forall id :: id in active <==> id in ActiveIds(c, r.requestId)
    requires ranked == Sort(SelectionOrder(c, |r.prompt| + |r.committed|), active)
    ensures Take(ranked, topK) == SelectSparse(c, r, topK)
  {
    var listed := Within(c.lru, ActiveIds(c, r.requestId));
    ActiveList(c, r.requestId);
    SameSort(c, |r.prompt| + |r.committed|, ActiveIds(c, r.requestId), active, listed, ranked);
  }

  lemma SameSort(c: Cache, decodeTokens: int, d: set<int>, s: seq<int>, t: seq<int>, ranked: seq<int>)
    requires Inv(c) && NoDup(s) && NoDup(t)
    requires forall id :: id in s <==> id in c.pages && id in d
    requires forall id :: id in t <==> id in c.pages && id in d
    requires ranked == Sort(SelectionOrder(c, decodeTokens), s)
    ensures ranked == Sort(SelectionOrder(c, decodeTokens), t)
  {
    KeyIsTotal(c, decodeTokens, s);
    SortUnique(SelectionOrder(c, decodeTokens), s, t);
  }

  /** `SparseKVSelector.select`, for the page ids it returns. */
  method Select(kvCache: KVCache, request: RequestState, topK: int) returns (ids: seq<int>)
    requires kvCache.Valid()
    ensures ids == SelectSparse(kvCache.State(), request.Value(), topK)
  {
    var active := ActivePages(kvCache, request.requestId);
    var decodeTokens := |request.promptTokens| + |request.committedTokens|;
    var ranked := Sort(SelectionOrder(kvCache.State(), decodeTokens), active);
    ids := Take(ranked, topK);
    SameRanking(kvCache.State(), request.Value(), active, ranked, topK);
  }
}
