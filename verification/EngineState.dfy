/** What the engine's invariants say about block tables, the prefix trie and the K/V store,
    and how writes, sharing and recycling leave them alone. */
module EngineState {
  import opened Lists
  import opened Network
  import opened PagedForward
  import opened PrefixTrie
  import opened Blocks

  // ---- slot mapping --------------------------------------------------------------

  /** The flat slot of position `p`. */
  function FlatSlot(table: seq<nat>, bs: nat, p: nat): nat
    requires bs > 0 && p < |table| * bs
  {
    DivBound(p, |table|, bs);
    table[p / bs] * bs + p % bs
  }

  function FlatSlotMapping(table: seq<nat>, bs: nat, n: nat): (r: seq<nat>)
    requires bs > 0 && n <= |table| * bs
    ensures |r| == n
  {
    seq(n, p requires 0 <= p < n => FlatSlot(table, bs, p))
  }

  lemma FlatBlock(table: seq<nat>, bs: nat, p: nat)
    requires bs > 0 && p < |table| * bs
    ensures p / bs < |table| && FlatSlot(table, bs, p) / bs == table[p / bs]
    ensures FlatSlot(table, bs, p) % bs == p % bs
  {
    DivBound(p, |table|, bs);
    DivOf(table[p / bs], p % bs, bs);
  }

  /** Two positions of a table without repetitions never share a flat slot. */
  lemma FlatDistinct(table: seq<nat>, bs: nat, p: nat, q: nat)
    requires bs > 0 && p < |table| * bs && q < |table| * bs && p != q && NoDup(table)
    ensures FlatSlot(table, bs, p) != FlatSlot(table, bs, q)
  {
    FlatBlock(table, bs, p);
    FlatBlock(table, bs, q);
    assert p == p / bs * bs + p % bs && q == q / bs * bs + q % bs;
  }

  lemma FlatMappingPrefix(table: seq<nat>, more: seq<nat>, bs: nat, n: nat, k: nat)
    requires bs > 0 && k <= n && n <= |table| * bs && table <= more
    ensures k <= |more| * bs
    ensures FlatSlotMapping(table, bs, n)[..k] == FlatSlotMapping(more, bs, k)
  {
    MulMono(|table|, |more|, bs);
    forall p | 0 <= p < k ensures FlatSlot(table, bs, p) == FlatSlot(more, bs, p) {
      DivBound(p, |table|, bs);
    }
  }

  // ---- content -------------------------------------------------------------------

  /** Reading positions `0..|toks|` through `table` gives exactly the K/V rows of `toks`. */
  ghost predicate Holds(net: Net, store: Store, table: seq<nat>, bs: nat, toks: seq<Token>) {
    && bs > 0 && |store| == net.numLayers && |toks| <= |table| * bs
    && GatherRow(net, store, FlatSlotMapping(table, bs, |toks|)) == CacheOf(net, toks)
  }

  lemma HoldsNothing(net: Net, store: Store, table: seq<nat>, bs: nat)
    requires bs > 0 && |store| == net.numLayers
    ensures Holds(net, store, table, bs, [])
  {
    assert Embedded(net, [], 0) == [];
    assert GatherRow(net, store, FlatSlotMapping(table, bs, 0)) == EmptyCache(net);
  }

  lemma HoldsPrefix(net: Net, store: Store, table: seq<nat>, bs: nat, toks: seq<Token>, more: seq<nat>, k: nat)
    requires Holds(net, store, table, bs, toks) && k <= |toks| && table <= more
    ensures Holds(net, store, more, bs, toks[..k])
  {
    FlatMappingPrefix(table, more, bs, |toks|, k);
    EvaluatePrefix(net, toks, k);
    var all, part := FlatSlotMapping(table, bs, |toks|), FlatSlotMapping(more, bs, k);
    var want := CacheOf(net, toks[..k]);
    assert |want| == net.numLayers;
    forall l | 0 <= l < |store| ensures Gather(net, store[l], part) == want[l] {
      assert Gather(net, store[l], all)[..k] == Gather(net, store[l], all[..k]);
      assert GatherRow(net, store, all)[l] == Gather(net, store[l], all);
    }
    assert GatherRow(net, store, part) == want;
  }

  // ---- ownership -----------------------------------------------------------------

  /** From block index `from` on, slot `s` is the only owner of its blocks. */
  ghost predicate Exclusive(tables: seq<seq<nat>>, trie: Node, s: nat, from: nat)
    requires s < |tables|
  {
    forall k :: from <= k < |tables[s]| ==> Owners(tables, trie, tables[s][k]) == 1
  }

  /** No trie entry and no slot outside `slots` refers to any of `blocks`. */
  ghost predicate Private(tables: seq<seq<nat>>, trie: Node, blocks: set<nat>, slots: seq<nat>) {
    forall b :: b in blocks ==> PrivateBlock(tables, trie, b, slots)
  }

  ghost predicate PrivateBlock(tables: seq<seq<nat>>, trie: Node, b: nat, slots: seq<nat>) {
    Refs(trie, b) == 0 && forall r :: 0 <= r < |tables| && r !in slots ==> b !in tables[r]
  }

  lemma SoleOwner(tables: seq<seq<nat>>, trie: Node, s: nat, from: nat, b: nat, slots: seq<nat>)
    requires s < |tables| && s in slots && Exclusive(tables, trie, s, from) && b in Tail(tables[s], from)
    ensures PrivateBlock(tables, trie, b, slots)
  {
    var k :| from <= k < |tables[s]| && tables[s][k] == b;
    assert tables[s][k] in tables[s];
    OccursIn(tables[s], b);
    TableRefsAtLeast(tables, s, b);
    forall r | 0 <= r < |tables| && r !in slots ensures b !in tables[r] {
      TableRefsTwo(tables, s, r, b);
      OccursIn(tables[r], b);
    }
  }

  /** Two slots, or two indices of one slot, never share an exclusive block. */
  lemma ExclusiveApart(tables: seq<seq<nat>>, trie: Node, s: nat, from: nat, j: nat, r: nat, i: nat)
    requires s < |tables| && r < |tables| && Exclusive(tables, trie, s, from)
    requires from <= j < |tables[s]| && i < |tables[r]| && NoDup(tables[s]) && (s != r || i != j)
    ensures tables[r][i] != tables[s][j]
  {
    if s != r && tables[r][i] == tables[s][j] {
      var b := tables[s][j];
      TableRefsTwo(tables, s, r, b);
      OccursIn(tables[s], b);
      OccursIn(tables[r], b);
    }
  }

  // ---- frames --------------------------------------------------------------------

  /** The store changed only inside `blocks`. */
  ghost predicate WritesWithin(net: Net, was: Store, now: Store, bs: nat, blocks: set<nat>)
    requires bs > 0
  {
    && |now| == |was|
    && forall l, f: nat :: 0 <= l < |was| && f / bs !in blocks ==> Load(net, now[l], f) == Load(net, was[l], f)
  }

  lemma HoldsFrame(net: Net, was: Store, now: Store, bs: nat, blocks: set<nat>, table: seq<nat>, toks: seq<Token>)
    requires Holds(net, was, table, bs, toks) && WritesWithin(net, was, now, bs, blocks)
    requires forall b :: b in table ==> b !in blocks
    ensures Holds(net, now, table, bs, toks)
  {
    var cells := FlatSlotMapping(table, bs, |toks|);
    forall l, p | 0 <= l < |was| && 0 <= p < |toks| ensures Load(net, now[l], cells[p]) == Load(net, was[l], cells[p]) {
      FlatBlock(table, bs, p);
      assert table[p / bs] in table;
    }
    forall l | 0 <= l < |was| ensures GatherRow(net, now, cells)[l] == GatherRow(net, was, cells)[l] {
      assert Gather(net, now[l], cells) == Gather(net, was[l], cells);
    }
    assert GatherRow(net, now, cells) == GatherRow(net, was, cells);
  }

  /** Every prefix entry's blocks hold its path's K/V rows. */
  ghost predicate TrieHolds(net: Net, store: Store, bs: nat, trie: Node) {
    forall q :: At(trie, q).Some? ==> Holds(net, store, At(trie, q).value.blocks, bs, q)
  }

  lemma TrieFrame(net: Net, was: Store, now: Store, bs: nat, blocks: set<nat>, tables: seq<seq<nat>>, trie: Node,
                  slots: seq<nat>)
    requires bs > 0 && Distinct(trie) && TrieHolds(net, was, bs, trie)
    requires WritesWithin(net, was, now, bs, blocks) && Private(tables, trie, blocks, slots)
    ensures TrieHolds(net, now, bs, trie)
  {
    forall q | At(trie, q).Some? ensures Holds(net, now, At(trie, q).value.blocks, bs, q) {
      var table := At(trie, q).value.blocks;
      EntryCounted(trie, q);
      forall b | b in table ensures b !in blocks {
        OccursIn(table, b);
        assert EntryRefs(At(trie, q), b) <= Refs(trie, b);
        assert b in blocks ==> PrivateBlock(tables, trie, b, slots);
      }
      HoldsFrame(net, was, now, bs, blocks, table, q);
    }
  }

  // ---- batches -------------------------------------------------------------------

  /** A batch row: its slot and how many positions are committed. */
  datatype Place = Place(slot: nat, base: nat)

  ghost predicate PlacesOk(tables: seq<seq<nat>>, trie: Node, bs: nat, places: seq<Place>, width: nat) {
    && bs > 0
    && (forall i :: 0 <= i < |places| ==>
          && places[i].slot < |tables| && NoDup(tables[places[i].slot])
          && places[i].base + width <= |tables[places[i].slot]| * bs
          && Exclusive(tables, trie, places[i].slot, places[i].base / bs))
    && (forall i, j :: 0 <= i < j < |places| ==> places[i].slot != places[j].slot)
  }

  function RowOf(tables: seq<seq<nat>>, bs: nat, p: Place, width: nat): Row
    requires bs > 0 && p.slot < |tables| && p.base + width <= |tables[p.slot]| * bs
  {
    Row(FlatSlotMapping(tables[p.slot], bs, p.base + width), p.base)
  }

  /** The blocks from index `from` on. */
  function Tail(table: seq<nat>, from: nat): (r: set<nat>)
    ensures forall k :: from <= k < |table| ==> table[k] in r
    ensures forall b :: b in r ==> exists k :: from <= k < |table| && table[k] == b
  {
    set k | from <= k < |table| :: table[k]
  }

  /** The blocks a batch may write: from each row's first uncommitted block on. */
  function WrittenBlocks(tables: seq<seq<nat>>, bs: nat, places: seq<Place>): set<nat>
    requires bs > 0 && forall i :: 0 <= i < |places| ==> places[i].slot < |tables|
  {
    if places == [] then {}
    else WrittenBlocks(tables, bs, Init(places)) + Tail(tables[Last(places).slot], Last(places).base / bs)
  }

  lemma {:induction false} WrittenTail(tables: seq<seq<nat>>, bs: nat, places: seq<Place>, i: nat)
    requires bs > 0 && i < |places| && forall i :: 0 <= i < |places| ==> places[i].slot < |tables|
    ensures Tail(tables[places[i].slot], places[i].base / bs) <= WrittenBlocks(tables, bs, places)
  {
    if i < |places| - 1 { WrittenTail(tables, bs, Init(places), i); }
  }

  /** The rows of such a batch write to slots of their own. */
  lemma PlacesSeparate(tables: seq<seq<nat>>, trie: Node, bs: nat, places: seq<Place>, width: nat, rows: seq<Row>)
    requires PlacesOk(tables, trie, bs, places, width) && |rows| == |places|
    requires forall i :: 0 <= i < |places| ==> rows[i] == RowOf(tables, bs, places[i], width)
    ensures Separate(rows, width)
  {
    forall b, c, i, j | 0 <= b < |rows| && 0 <= c < |rows| && (b != c || i != j)
                        && 0 <= i < |rows[b].cells| && rows[c].base <= j < |rows[c].cells|
      ensures rows[b].cells[i] != rows[c].cells[j]
    {
      CellsApart(tables, trie, bs, places, width, b, c, i, j);
    }
  }

  lemma CellsApart(tables: seq<seq<nat>>, trie: Node, bs: nat, places: seq<Place>, width: nat,
                   b: nat, c: nat, i: nat, j: nat)
    requires PlacesOk(tables, trie, bs, places, width) && b < |places| && c < |places| && (b != c || i != j)
    requires i < places[b].base + width && places[c].base <= j < places[c].base + width
    ensures FlatSlot(tables[places[b].slot], bs, i) != FlatSlot(tables[places[c].slot], bs, j)
  {
    if b == c {
      FlatDistinct(tables[places[b].slot], bs, i, j);
    } else {
      SlotsApart(tables, trie, bs, places[c].slot, places[c].base, j, places[b].slot, i);
    }
  }

  lemma SlotsApart(tables: seq<seq<nat>>, trie: Node, bs: nat, s: nat, base: nat, j: nat, r: nat, i: nat)
    requires bs > 0 && s < |tables| && r < |tables| && s != r && NoDup(tables[s])
    requires Exclusive(tables, trie, s, base / bs)
    requires base <= j < |tables[s]| * bs && i < |tables[r]| * bs
    ensures FlatSlot(tables[r], bs, i) != FlatSlot(tables[s], bs, j)
  {
    FlatBlock(tables[r], bs, i);
    FlatBlock(tables[s], bs, j);
    DivMono(base, j, bs);
    ExclusiveApart(tables, trie, s, base / bs, j / bs, r, i / bs);
  }

  lemma {:induction false} WrittenPrivate(tables: seq<seq<nat>>, trie: Node, bs: nat, places: seq<Place>, slots: seq<nat>)
    requires bs > 0
    requires forall i :: 0 <= i < |places| ==> places[i].slot < |tables| && places[i].slot in slots
    requires forall i :: 0 <= i < |places| ==> Exclusive(tables, trie, places[i].slot, places[i].base / bs)
    ensures Private(tables, trie, WrittenBlocks(tables, bs, places), slots)
  {
    if places != [] {
      WrittenPrivate(tables, trie, bs, Init(places), slots);
      var p := Last(places);
      forall b | b in Tail(tables[p.slot], p.base / bs) ensures PrivateBlock(tables, trie, b, slots) {
        SoleOwner(tables, trie, p.slot, p.base / bs, b, slots);
      }
    }
  }

  lemma TargetBlock(tables: seq<seq<nat>>, bs: nat, places: seq<Place>, i: nat, p: nat)
    requires bs > 0 && i < |places| && forall i :: 0 <= i < |places| ==> places[i].slot < |tables|
    requires places[i].base <= p < |tables[places[i].slot]| * bs
    ensures FlatSlot(tables[places[i].slot], bs, p) / bs in WrittenBlocks(tables, bs, places)
  {
    FlatBlock(tables[places[i].slot], bs, p);
    DivMono(places[i].base, p, bs);
    WrittenTail(tables, bs, places, i);
  }

  lemma WrittenWithin(net: Net, tables: seq<seq<nat>>, bs: nat, places: seq<Place>, width: nat,
                      rows: seq<Row>, was: Store, now: Store)
    requires bs > 0 && |rows| == |places| && |now| == |was|
    requires forall i :: 0 <= i < |places| ==> places[i].slot < |tables|
    requires forall i :: 0 <= i < |places| ==> places[i].base + width <= |tables[places[i].slot]| * bs
    requires forall i :: 0 <= i < |places| ==> rows[i] == RowOf(tables, bs, places[i], width)
    requires forall l :: 0 <= l < |was| ==> SameElsewhere(net, rows, was[l], now[l])
    ensures WritesWithin(net, was, now, bs, WrittenBlocks(tables, bs, places))
  {
    forall f: nat | IsTarget(rows, f) ensures f / bs in WrittenBlocks(tables, bs, places) {
      var b, j :| 0 <= b < |rows| && rows[b].base <= j < |rows[b].cells| && rows[b].cells[j] == f;
      TargetBlock(tables, bs, places, b, j);
    }
  }
}
