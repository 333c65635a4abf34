/** Where new pages lie: each continues its list, page after page, up to the tokens asked for. */
module KvTiling {
  import opened Arithmetic
  import opened Sequences
  import opened KvCacheModel
  import opened KvAllocation
  import opened KvLaws

  /** The page holds the tokens of the `i`-th page of a layer with `total` tokens. */
  ghost predicate Tile(c: Cache, id: int, i: int, total: int) {
    && id in c.pages && c.pages[id].tokenStart == i * c.pageSize
    && c.pages[id].tokenCount == Min(c.pageSize, total - i * c.pageSize)
  }

  lemma {:induction false} AllocPagesTile(c: Cache, rid: int, layer: int, have: nat, total: int, k: nat, pin: bool,
                                          i: nat)
    requires FreshIds(c) && c.pageSize >= 1 && i < k && (have + k - 1) * c.pageSize < total
    ensures Tile(AllocPages(c, rid, layer, have * c.pageSize, total, k, pin), c.nextId + i, have + i, total)
    decreases k
  {
    var start := have * c.pageSize;
    var count := Min(c.pageSize, total - start);
    var d := AllocOne(c, rid, layer, start, count, pin);
    var e := AllocPages(d, rid, layer, start + count, total, k - 1, pin);
    AllocPagesGrow(d, rid, layer, start + count, total, k - 1, pin);
    SettingsKeptPages(d, rid, layer, start + count, total, k - 1, pin);
    if i == 0 {
      assert d.pages[c.nextId] == e.pages[c.nextId];
    } else {
      MulLe(have + 1, have + k - 1, c.pageSize);
      MulStep(have, c.pageSize);
      assert start + count == (have + 1) * d.pageSize;
      AllocPagesTile(d, rid, layer, have + 1, total, k - 1, pin, i - 1);
    }
  }

  lemma HeadNotInRest(layers: seq<int>)
    requires NoDup(layers) && layers != []
    ensures layers[0] !in layers[1..]
  {
    forall j | 0 <= j < |layers| - 1 ensures layers[1..][j] != layers[0] {
      assert layers[1..][j] == layers[j + 1];
    }
  }

  /** New pages of one layer tile it from the end of its list on. */
  lemma AllocLayerTiles(c: Cache, rid: int, layer: int, total: int, pin: bool, i: nat)
    requires Inv(c) && |ListOf(c, (rid, layer))| <= i < |ListOf(AllocLayer(c, rid, layer, total, pin), (rid, layer))|
    ensures var d := AllocLayer(c, rid, layer, total, pin); Tile(d, ListOf(d, (rid, layer))[i], i, total)
  {
    var have, size := |ListOf(c, (rid, layer))|, c.pageSize;
    if total > have * size {
      var k := CeilDiv(total - have * size, size);
      CeilDivFacts(total - have * size, size);
      assert (k - 1 + have) * size == (k - 1) * size + have * size;
      InvFreshIds(c);
      AllocPagesGrow(c, rid, layer, have * size, total, k, pin);
      AllocPagesTile(c, rid, layer, have, total, k, pin, i - have);
    }
  }

  lemma SamePageTiles(c: Cache, d: Cache, id: int, i: int, total: int)
    requires Tile(c, id, i, total) && d.pageSize == c.pageSize && id in d.pages && d.pages[id] == c.pages[id]
    ensures Tile(d, id, i, total)
  {}

  lemma {:induction false} AllocLayersTile(c: Cache, rid: int, layers: seq<int>, total: int, pin: bool, l: int, i: nat)
    requires Inv(c) && NoDup(layers) && l in layers
    requires |ListOf(c, (rid, l))| <= i < |ListOf(AllocLayers(c, rid, layers, total, pin), (rid, l))|
    ensures var d := AllocLayers(c, rid, layers, total, pin); Tile(d, ListOf(d, (rid, l))[i], i, total)
    decreases |layers|
  {
    var l0, rest := layers[0], layers[1..];
    assert layers == [l0] + rest;
    var m, d := AllocLayer(c, rid, l0, total, pin), AllocLayers(c, rid, layers, total, pin);
    AllocLayerFacts(c, rid, l0, total, pin);
    AllocLayersFacts(m, rid, rest, total, pin);
    SettingsKept(c, rid, l0, total, pin);
    SettingsKeptLayers(m, rid, rest, total, pin);
    if l == l0 {
      HeadNotInRest(layers);
      assert ListOf(d, (rid, l)) == ListOf(m, (rid, l));
      AllocLayerTiles(c, rid, l, total, pin, i);
      SamePageTiles(m, d, ListOf(m, (rid, l))[i], i, total);
    } else {
      assert ListOf(m, (rid, l)) == ListOf(c, (rid, l));
      AllocLayersTile(m, rid, rest, total, pin, l, i);
    }
  }

  /**
   A granted allocation: on each layer, the new pages continue the list that eviction
   has left. The `i`-th page starts at token `i * page_size` and is full, except that
   the last one ends with the tokens asked for.
   */
  lemma NewPagesTile(c: Cache, rid: int, layers: seq<int>, total: int, pin: bool, l: int, i: nat)
    requires Inv(c) && NoDup(layers) && l in layers && Allocate(c, rid, layers, total, pin).Granted?
    requires var d := Allocate(c, rid, layers, total, pin).cache;
      |ListOf(Room(c, rid, layers, total), (rid, l))| <= i < |ListOf(d, (rid, l))|
    ensures var d := Allocate(c, rid, layers, total, pin).cache;
      Tile(d, ListOf(d, (rid, l))[i], i, total) && d.pages[ListOf(d, (rid, l))[i]].pinned == pin
  {
    var m := Room(c, rid, layers, total);
    RoomSize(c, rid, layers, total);
    AllocateViaRoom(c, rid, layers, total, pin);
    AllocLayersTile(m, rid, layers, total, pin, l, i);
    NewOnList(m, rid, layers, total, pin, l, i);
  }

  lemma NewOnList(m: Cache, rid: int, layers: seq<int>, total: int, pin: bool, l: int, i: nat)
    requires Inv(m) && l in layers
    requires |ListOf(m, (rid, l))| <= i < |ListOf(AllocLayers(m, rid, layers, total, pin), (rid, l))|
    ensures var d := AllocLayers(m, rid, layers, total, pin);
      var id := ListOf(d, (rid, l))[i]; id in d.pages && d.pages[id].pinned == pin
  {
    var d := AllocLayers(m, rid, layers, total, pin);
    var id := ListOf(d, (rid, l))[i];
    AllocLayersFacts(m, rid, layers, total, pin);
    ListOfFacts(d, (rid, l));
    ListOfFacts(m, (rid, l));
    NotInPrefix(ListOf(m, (rid, l)), ListOf(d, (rid, l)), i);
    assert id in ListOf(d, (rid, l)) && KeyOf(d.pages[id]) == (rid, l);
  }

  lemma NotInPrefix(s: seq<int>, t: seq<int>, i: nat)
    requires s <= t && NoDup(t) && |s| <= i < |t|
    ensures t[i] !in s
  {
    forall j | 0 <= j < |s| ensures s[j] != t[i] {
      assert s[j] == t[j];
    }
  }

  /** Every page of the list starts where the one before it is full. */
  ghost predicate Tiled(c: Cache, k: LayerKey) {
    forall i :: 0 <= i < |ListOf(c, k)| ==>
      ListOf(c, k)[i] in c.pages && c.pages[ListOf(c, k)[i]].tokenStart == i * c.pageSize
  }

  /** A tiled list that loses no page stays tiled. */
  lemma AllocationStaysTiled(c: Cache, rid: int, layers: seq<int>, total: int, pin: bool, l: int)
    requires Inv(c) && NoDup(layers) && l in layers && Allocate(c, rid, layers, total, pin).Granted?
    requires Tiled(c, (rid, l)) && !VictimUnder(c, Deficit(c, rid, layers, total), (rid, l))
    ensures Tiled(Allocate(c, rid, layers, total, pin).cache, (rid, l))
  {
    var m, d := Room(c, rid, layers, total), Allocate(c, rid, layers, total, pin).cache;
    RoomSize(c, rid, layers, total);
    AllocateViaRoom(c, rid, layers, total, pin);
    AllocLayersFacts(m, rid, layers, total, pin);
    SettingsKeptLayers(m, rid, layers, total, pin);
    EvictListOf(c, Deficit(c, rid, layers, total), (rid, l));
    assert ListOf(m, (rid, l)) == ListOf(c, (rid, l)) <= ListOf(d, (rid, l));
    ListOfFacts(m, (rid, l));
    forall i | 0 <= i < |ListOf(d, (rid, l))|
      ensures ListOf(d, (rid, l))[i] in d.pages && d.pages[ListOf(d, (rid, l))[i]].tokenStart == i * d.pageSize
    {
      var id := ListOf(d, (rid, l))[i];
      if i < |ListOf(m, (rid, l))| {
        assert id == ListOf(m, (rid, l))[i] && id in ListOf(m, (rid, l));
        assert d.pages[id] == m.pages[id] == c.pages[id];
      } else {
        AllocLayersTile(m, rid, layers, total, pin, l, i);
      }
    }
  }
}
