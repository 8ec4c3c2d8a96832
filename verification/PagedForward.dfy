/** The batched forward passes over the physical K/V store. A row is given by its slot
    mapping: `cells[p]` is the flat slot of position `p`. */
module PagedForward {
  import opened Network

  /** One layer of the store: flat slot to K/V row. */
  type Layer = map<nat, KV>
  type Store = seq<Layer>

  /** One batch row: its slot mapping over `base + S` positions, of which the first `base`
      are already committed. */
  datatype Row = Row(cells: seq<nat>, base: nat)

  function Load(net: Net, layer: Layer, f: nat): KV {
    if f in layer then layer[f] else net.blank
  }

  function Gather(net: Net, layer: Layer, cells: seq<nat>): (r: seq<KV>)
    ensures |r| == |cells|
  {
    seq(|cells|, p requires 0 <= p < |cells| => Load(net, layer, cells[p]))
  }

  function GatherRow(net: Net, store: Store, cells: seq<nat>): (r: RowCache)
    ensures |r| == |store|
  {
    seq(|store|, l requires 0 <= l < |store| => Gather(net, store[l], cells))
  }

  /** The flat slots a pass over `rows` writes. */
  ghost predicate IsTarget(rows: seq<Row>, f: nat) {
    exists b, j :: 0 <= b < |rows| && rows[b].base <= j < |rows[b].cells| && rows[b].cells[j] == f
  }

  /** The slots a row writes are its own: distinct, and neither read nor written by others. */
  ghost predicate Separate(rows: seq<Row>, width: nat) {
    && (forall b :: 0 <= b < |rows| ==> |rows[b].cells| == rows[b].base + width)
    && (forall b, c, i, j :: 0 <= b < |rows| && 0 <= c < |rows| && (b != c || i != j)
                             && 0 <= i < |rows[b].cells| && rows[c].base <= j < |rows[c].cells|
                             ==> rows[b].cells[i] != rows[c].cells[j])
  }

  ghost predicate SameElsewhere(net: Net, rows: seq<Row>, was: Layer, now: Layer) {
    forall f: nat :: !IsTarget(rows, f) ==> Load(net, now, f) == Load(net, was, f)
  }

  lemma RowSizes(rows: seq<Row>, width: nat)
    requires Separate(rows, width)
    ensures forall b :: 0 <= b < |rows| ==> |rows[b].cells| == rows[b].base + width
  {
  }

  lemma SeparateAt(rows: seq<Row>, width: nat, b: nat, c: nat, i: nat, j: nat)
    requires Separate(rows, width) && b < |rows| && c < |rows| && (b != c || i != j)
    requires i < |rows[b].cells| && rows[c].base <= j < |rows[c].cells|
    ensures rows[b].cells[i] != rows[c].cells[j]
  {
  }

  lemma SameNowhere(net: Net, rows: seq<Row>, layer: Layer)
    ensures SameElsewhere(net, rows, layer, layer)
  {
  }

  /** One write into a target. */
  lemma SameOneMore(net: Net, rows: seq<Row>, was: Layer, mid: Layer, b: nat, j: nat, kv: KV)
    requires SameElsewhere(net, rows, was, mid) && b < |rows| && rows[b].base <= j < |rows[b].cells|
    ensures SameElsewhere(net, rows, was, mid[rows[b].cells[j] := kv])
  {
    assert IsTarget(rows, rows[b].cells[j]);
  }

  /** Commit token `t`'s K/V row of every batch row in one call. */
  method WriteToken(net: Net, l: nat, layer: Layer, rows: seq<Row>, xs: seq<seq<Hidden>>, width: nat, t: nat)
    returns (r: Layer)
    requires Separate(rows, width) && |xs| == |rows| && t < width
    requires forall b :: 0 <= b < |rows| ==> |xs[b]| == width
    ensures forall b :: 0 <= b < |rows| ==>
      Gather(net, r, rows[b].cells[..rows[b].base + t + 1])
      == Gather(net, layer, rows[b].cells[..rows[b].base + t])
         + [net.project(l, xs[b][t], rows[b].base + t)]
    ensures SameElsewhere(net, rows, layer, r)
  {
    hide Separate, SameElsewhere;
    RowSizes(rows, width);
    r := layer;
    SameNowhere(net, rows, layer);
    for b := 0 to |rows|
      invariant forall c :: 0 <= c < b ==>
        Load(net, r, rows[c].cells[rows[c].base + t]) == net.project(l, xs[c][t], rows[c].base + t)
      invariant forall c, i :: 0 <= c < |rows| && 0 <= i < rows[c].base + t ==>
        Load(net, r, rows[c].cells[i]) == Load(net, layer, rows[c].cells[i])
      invariant SameElsewhere(net, rows, layer, r)
    {
      var f := rows[b].cells[rows[b].base + t];
      forall c, i | 0 <= c < |rows| && 0 <= i <= rows[c].base + t && (c != b || i != rows[b].base + t)
        ensures rows[c].cells[i] != f
      {
        SeparateAt(rows, width, c, b, i, rows[b].base + t);
      }
      var kv := net.project(l, xs[b][t], rows[b].base + t);
      SameOneMore(net, rows, layer, r, b, rows[b].base + t, kv);
      r := r[f := kv];
    }
    forall b | 0 <= b < |rows|
      ensures Gather(net, r, rows[b].cells[..rows[b].base + t + 1])
           == Gather(net, layer, rows[b].cells[..rows[b].base + t]) + [net.project(l, xs[b][t], rows[b].base + t)]
    {
      GatherOne(net, layer, r, rows[b].cells, rows[b].base + t);
    }
  }

  /** A row with one more cell read. */
  lemma GatherOne(net: Net, was: Layer, now: Layer, cells: seq<nat>, n: nat)
    requires n < |cells| && forall i :: 0 <= i < n ==> Load(net, now, cells[i]) == Load(net, was, cells[i])
    ensures Gather(net, now, cells[..n + 1]) == Gather(net, was, cells[..n]) + [Load(net, now, cells[n])]
  {
  }

  /** Every row's query for token `t` attends its prefix and its tokens `0..t`. */
  method AttendToken(net: Net, l: nat, layer: Layer, rows: seq<Row>, xs: seq<seq<Hidden>>, width: nat, t: nat)
    returns (ys: seq<Hidden>)
    requires |xs| == |rows| && t < width
    requires forall b :: 0 <= b < |rows| ==> |xs[b]| == width && |rows[b].cells| == rows[b].base + width
    ensures |ys| == |rows|
    ensures forall b :: 0 <= b < |rows| ==>
      ys[b] == net.attend(l, xs[b][t], rows[b].base + t, Gather(net, layer, rows[b].cells[..rows[b].base + t + 1]))
  {
    ys := [];
    for b := 0 to |rows|
      invariant |ys| == b
      invariant forall c :: 0 <= c < b ==>
        ys[c] == net.attend(l, xs[c][t], rows[c].base + t, Gather(net, layer, rows[c].cells[..rows[c].base + t + 1]))
    {
      ys := ys + [net.attend(l, xs[b][t], rows[b].base + t,
                             Gather(net, layer, rows[b].cells[..rows[b].base + t + 1]))];
    }
  }

  /** Row `b` of layer `l` after `t` tokens: its cells and its outputs are those of a run of
      the first `t` tokens from what `was` held. */
  ghost predicate LayerDone(net: Net, l: nat, was: Layer, now: Layer, row: Row, xs: seq<Hidden>,
                            out: seq<Hidden>, t: nat)
    requires t <= |xs| && row.base + t <= |row.cells|
  {
    var kvs := Gather(net, was, row.cells[..row.base]);
    && Gather(net, now, row.cells[..row.base + t]) == LayerKVs(net, l, kvs, xs[..t])
    && out == LayerOuts(net, l, kvs, xs[..t])
  }

  lemma LayerDoneStep(net: Net, l: nat, was: Layer, mid: Layer, now: Layer, row: Row, xs: seq<Hidden>,
                      out: seq<Hidden>, t: nat, y: Hidden)
    requires t < |xs| && row.base + t < |row.cells|
    requires LayerDone(net, l, was, mid, row, xs, out, t)
    requires Gather(net, now, row.cells[..row.base + t + 1])
          == Gather(net, mid, row.cells[..row.base + t]) + [net.project(l, xs[t], row.base + t)]
    requires y == net.attend(l, xs[t], row.base + t, Gather(net, now, row.cells[..row.base + t + 1]))
    ensures LayerDone(net, l, was, now, row, xs, out + [y], t + 1)
  {
    assert xs[..t + 1] == xs[..t] + [xs[t]];
    LayerSnoc(net, l, Gather(net, was, row.cells[..row.base]), xs[..t], xs[t]);
  }

  /** One attention layer of a verify (or, at width 1, decode) pass: token by token, write
      every row's K/V, then let every row attend over what its block table reads back. */
  method BlockLayer(net: Net, l: nat, layer: Layer, rows: seq<Row>, xs: seq<seq<Hidden>>, width: nat)
    returns (r: Layer, outs: seq<seq<Hidden>>)
    requires Separate(rows, width) && |xs| == |rows|
    requires forall b :: 0 <= b < |rows| ==> |xs[b]| == width
    ensures |outs| == |rows|
    ensures forall b :: 0 <= b < |rows| ==>
      var kvs := Gather(net, layer, rows[b].cells[..rows[b].base]);
      && Gather(net, r, rows[b].cells) == LayerKVs(net, l, kvs, xs[b])
      && outs[b] == LayerOuts(net, l, kvs, xs[b])
    ensures SameElsewhere(net, rows, layer, r)
  {
    hide LayerDone, Gather, LayerKVs, LayerOuts, IsTarget;
    r := layer;
    outs := seq(|rows|, b => []);
    forall b | 0 <= b < |rows| ensures LayerDone(net, l, layer, r, rows[b], xs[b], outs[b], 0) {
      LayerDoneStart(net, l, layer, rows[b], xs[b]);
    }
    for t := 0 to width
      invariant |outs| == |rows|
      invariant forall b :: 0 <= b < |rows| ==> LayerDone(net, l, layer, r, rows[b], xs[b], outs[b], t)
      invariant SameElsewhere(net, rows, layer, r)
    {
      var now := WriteToken(net, l, r, rows, xs, width, t);
      var ys := AttendToken(net, l, now, rows, xs, width, t);
      forall b | 0 <= b < |rows|
        ensures LayerDone(net, l, layer, now, rows[b], xs[b], outs[b] + [ys[b]], t + 1)
      {
        LayerDoneStep(net, l, layer, r, now, rows[b], xs[b], outs[b], t, ys[b]);
      }
      r, outs := now, seq(|rows|, b requires 0 <= b < |rows| == |outs| == |ys| => outs[b] + [ys[b]]);
    }
    forall b | 0 <= b < |rows|
      ensures Gather(net, r, rows[b].cells)
           == LayerKVs(net, l, Gather(net, layer, rows[b].cells[..rows[b].base]), xs[b])
      ensures outs[b] == LayerOuts(net, l, Gather(net, layer, rows[b].cells[..rows[b].base]), xs[b])
    {
      LayerDoneEnd(net, l, layer, r, rows[b], xs[b], outs[b], width);
    }
  }

  lemma LayerDoneStart(net: Net, l: nat, layer: Layer, row: Row, xs: seq<Hidden>)
    requires row.base <= |row.cells|
    ensures LayerDone(net, l, layer, layer, row, xs, [], 0)
  {
  }

  lemma LayerDoneEnd(net: Net, l: nat, was: Layer, now: Layer, row: Row, xs: seq<Hidden>, out: seq<Hidden>, width: nat)
    requires |xs| == width && |row.cells| == row.base + width && LayerDone(net, l, was, now, row, xs, out, width)
    ensures Gather(net, now, row.cells) == LayerKVs(net, l, Gather(net, was, row.cells[..row.base]), xs)
    ensures out == LayerOuts(net, l, Gather(net, was, row.cells[..row.base]), xs)
  {
    assert row.cells[..row.base + width] == row.cells && xs[..width] == xs;
  }

  /** What a row's cache reads once the layers below `l` have run. */
  ghost function MidCache(net: Net, store: Store, row: Row, l: nat): (r: RowCache)
    requires row.base <= |row.cells|
    ensures |r| == |store|
  {
    seq(|store|, j requires 0 <= j < |store| =>
      Gather(net, store[j], if j < l then row.cells else row.cells[..row.base]))
  }

  /** Row `row` still owes layers `l..` of the pass it started from `start`. */
  ghost predicate Owes(net: Net, start: RowCache, xs: seq<Hidden>, store: Store, row: Row, l: nat, cur: seq<Hidden>)
    requires |start| == |store| == net.numLayers && l <= net.numLayers && row.base <= |row.cells|
  {
    BlockRun(net, l, MidCache(net, store, row, l), cur) == BlockRun(net, 0, start, xs)
  }

  lemma OwesStep(net: Net, start: RowCache, xs: seq<Hidden>, store: Store, row: Row, l: nat,
                 cur: seq<Hidden>, layer: Layer, ys: seq<Hidden>)
    requires |start| == |store| == net.numLayers && l < net.numLayers && row.base <= |row.cells|
    requires Owes(net, start, xs, store, row, l, cur)
    requires
      var kvs := Gather(net, store[l], row.cells[..row.base]);
      Gather(net, layer, row.cells) == LayerKVs(net, l, kvs, cur) && ys == LayerOuts(net, l, kvs, cur)
    ensures Owes(net, start, xs, store[l := layer], row, l + 1, ys)
  {
    var mid := MidCache(net, store, row, l);
    assert mid[l] == Gather(net, store[l], row.cells[..row.base]);
    assert MidCache(net, store[l := layer], row, l + 1) == mid[l := LayerKVs(net, l, mid[l], cur)];
  }

  lemma OwesNothing(net: Net, start: RowCache, xs: seq<Hidden>, store: Store, row: Row, cur: seq<Hidden>)
    requires |start| == |store| == net.numLayers && row.base <= |row.cells|
    requires Owes(net, start, xs, store, row, net.numLayers, cur)
    ensures (GatherRow(net, store, row.cells), cur) == DecodeRun(net, start, xs)
  {
    assert MidCache(net, store, row, net.numLayers) == GatherRow(net, store, row.cells);
    BlockEqualsDecodes(net, start, xs);
  }

  /** The whole batched pass, layer after layer over the shared store. Each row gets what it
      would get from consecutive decode steps on its own cache, whatever the other rows do. */
  method ModelForward(net: Net, store: Store, rows: seq<Row>, xs: seq<seq<Hidden>>, width: nat)
    returns (r: Store, outs: seq<seq<Hidden>>)
    requires |store| == net.numLayers && Separate(rows, width) && |xs| == |rows|
    requires forall b :: 0 <= b < |rows| ==> |xs[b]| == width
    ensures |r| == |store| && |outs| == |rows|
    ensures forall b :: 0 <= b < |rows| ==>
      (GatherRow(net, r, rows[b].cells), outs[b])
      == DecodeRun(net, GatherRow(net, store, rows[b].cells[..rows[b].base]), xs[b])
    ensures forall l :: 0 <= l < |store| ==> SameElsewhere(net, rows, store[l], r[l])
  {
    r, outs := store, xs;
    forall b | 0 <= b < |rows|
      ensures Owes(net, GatherRow(net, store, rows[b].cells[..rows[b].base]), xs[b], r, rows[b], 0, xs[b])
    {
      assert MidCache(net, store, rows[b], 0) == GatherRow(net, store, rows[b].cells[..rows[b].base]);
    }
    for l := 0 to net.numLayers
      invariant |r| == |store| && |outs| == |rows|
      invariant forall b :: 0 <= b < |rows| ==> |outs[b]| == width
      invariant forall j :: l <= j < |store| ==> r[j] == store[j]
      invariant forall j :: 0 <= j < l ==> SameElsewhere(net, rows, store[j], r[j])
      invariant forall b :: 0 <= b < |rows| ==>
        Owes(net, GatherRow(net, store, rows[b].cells[..rows[b].base]), xs[b], r, rows[b], l, outs[b])
    {
      var layer, ys := BlockLayer(net, l, r[l], rows, outs, width);
      forall b | 0 <= b < |rows|
        ensures |ys[b]| == width
        ensures Owes(net, GatherRow(net, store, rows[b].cells[..rows[b].base]), xs[b], r[l := layer], rows[b], l + 1, ys[b])
      {
        OwesStep(net, GatherRow(net, store, rows[b].cells[..rows[b].base]), xs[b], r, rows[b], l, outs[b], layer, ys[b]);
      }
      r, outs := r[l := layer], ys;
    }
    forall b | 0 <= b < |rows|
      ensures (GatherRow(net, r, rows[b].cells), outs[b])
           == DecodeRun(net, GatherRow(net, store, rows[b].cells[..rows[b].base]), xs[b])
    {
      OwesNothing(net, GatherRow(net, store, rows[b].cells[..rows[b].base]), xs[b], r, rows[b], outs[b]);
    }
  }

  // ---- prefill -------------------------------------------------------------------

  /** Compute the chunk's K/V rows and write those at positions `start..` to the store. */
  method PrefillWrite(net: Net, l: nat, layer: Layer, cells: seq<nat>, base: nat, xs: seq<Hidden>, start: nat)
    returns (r: Layer, own: seq<KV>)
    requires |cells| == base + |xs|
    requires forall i, j :: 0 <= i < j < |cells| ==> cells[i] != cells[j]
    ensures
      var all := LayerKVs(net, l, Gather(net, layer, cells[..base]), xs);
      && own == all[base..]
      && (forall p :: 0 <= p < |cells| ==>
           Load(net, r, cells[p]) == if start <= p then all[p] else Load(net, layer, cells[p]))
    ensures forall f: nat :: f !in cells[base..] ==> Load(net, r, f) == Load(net, layer, f)
  {
    ghost var prefix := Gather(net, layer, cells[..base]);
    ghost var all := LayerKVs(net, l, prefix, xs);
    r, own := layer, [];
    for t := 0 to |xs|
      invariant |own| == t && forall u :: 0 <= u < t ==> own[u] == all[base + u]
      invariant forall p :: 0 <= p < |cells| ==>
        Load(net, r, cells[p]) == if start <= p < base + t then all[p] else Load(net, layer, cells[p])
      invariant forall f: nat :: f !in cells[base..] ==> Load(net, r, f) == Load(net, layer, f)
    {
      own := own + [net.project(l, xs[t], base + t)];
      if start <= base + t {
        assert cells[base + t] == cells[base..][t];
        r := r[cells[base + t] := own[t]];
      }
    }
  }

  /** One attention layer of a prefill chunk at positions `base..`. K/V rows of positions
      below `start` are already in the store and are not written again; a first chunk attends
      over its own K/V, a later one over what the store reads back. */
  method PrefillLayer(net: Net, l: nat, layer: Layer, cells: seq<nat>, base: nat, xs: seq<Hidden>, start: nat)
    returns (r: Layer, outs: seq<Hidden>)
    requires |cells| == base + |xs|
    requires forall i, j :: 0 <= i < j < |cells| ==> cells[i] != cells[j]
    requires forall p :: base <= p < start && p < |cells| ==>
      Load(net, layer, cells[p]) == LayerKVs(net, l, Gather(net, layer, cells[..base]), xs)[p]
    ensures Gather(net, r, cells) == LayerKVs(net, l, Gather(net, layer, cells[..base]), xs)
    ensures outs == LayerOuts(net, l, Gather(net, layer, cells[..base]), xs)
    ensures forall f: nat :: f !in cells[base..] ==> Load(net, r, f) == Load(net, layer, f)
    ensures forall p :: base <= p < start && p < |cells| ==>
      Load(net, r, cells[p]) == Load(net, layer, cells[p])
  {
    ghost var prefix := Gather(net, layer, cells[..base]);
    ghost var all := LayerKVs(net, l, prefix, xs);
    var own;
    r, own := PrefillWrite(net, l, layer, cells, base, xs, start);
    assert Gather(net, r, cells) == all;
    var kvs := if base > 0 then Gather(net, r, cells) else own;
    outs := PrefillAttend(net, l, prefix, xs, kvs);
  }

  /** Causal attention of the whole chunk over the K/V rows `kvs` of positions `0..`. */
  method PrefillAttend(net: Net, l: nat, ghost prefix: seq<KV>, xs: seq<Hidden>, kvs: seq<KV>)
    returns (outs: seq<Hidden>)
    requires kvs == LayerKVs(net, l, prefix, xs)
    ensures outs == LayerOuts(net, l, prefix, xs)
  {
    outs := [];
    var base := |kvs| - |xs|;
    for t := 0 to |xs|
      invariant outs == LayerOuts(net, l, prefix, xs)[..t]
    {
      outs := outs + [net.attend(l, xs[t], base + t, kvs[..base + t + 1])];
    }
  }

  /** One prefill chunk through all layers. If the cells it does not write already hold what
      the chunk would have written, the row ends up with the rows of consecutive decode steps. */
  method PrefillForward(net: Net, store: Store, cells: seq<nat>, base: nat, xs: seq<Hidden>, start: nat)
    returns (r: Store, outs: seq<Hidden>)
    requires |store| == net.numLayers && |cells| == base + |xs|
    requires forall i, j :: 0 <= i < j < |cells| ==> cells[i] != cells[j]
    requires forall l, p :: 0 <= l < |store| && base <= p < start && p < |cells| ==>
      var want := DecodeRun(net, GatherRow(net, store, cells[..base]), xs).0[l];
      p < |want| && Load(net, store[l], cells[p]) == want[p]
    ensures |r| == |store|
    ensures (GatherRow(net, r, cells), outs) == DecodeRun(net, GatherRow(net, store, cells[..base]), xs)
    ensures forall l, f: nat :: 0 <= l < |store| && f !in cells[base..] ==> Load(net, r[l], f) == Load(net, store[l], f)
    ensures forall l, p :: 0 <= l < |store| && base <= p < start && p < |cells| ==>
      Load(net, r[l], cells[p]) == Load(net, store[l], cells[p])
  {
    var row := Row(cells, base);
    r, outs := store, xs;
    ghost var held := GatherRow(net, store, cells[..base]);
    assert MidCache(net, store, row, 0) == held;
    for l := 0 to net.numLayers
      invariant |r| == |store| && |outs| == |xs|
      invariant forall j :: l <= j < |store| ==> r[j] == store[j]
      invariant forall j, f: nat :: 0 <= j < l && f !in cells[base..] ==> Load(net, r[j], f) == Load(net, store[j], f)
      invariant forall j, p :: 0 <= j < l && base <= p < start && p < |cells| ==>
        Load(net, r[j], cells[p]) == Load(net, store[j], cells[p])
      invariant Owes(net, held, xs, r, row, l, outs)
    {
      PrefillWanted(net, held, xs, r, row, l, outs);
      var layer, ys := PrefillLayer(net, l, r[l], cells, base, outs, start);
      OwesStep(net, held, xs, r, row, l, outs, layer, ys);
      r, outs := r[l := layer], ys;
    }
    OwesNothing(net, held, xs, r, row, outs);
  }

  /** The K/V rows layer `l` computes now are those the finished pass will hold. */
  lemma PrefillWanted(net: Net, start: RowCache, xs: seq<Hidden>, store: Store, row: Row, l: nat, cur: seq<Hidden>)
    requires |start| == |store| == net.numLayers && l < net.numLayers && row.base <= |row.cells|
    requires Owes(net, start, xs, store, row, l, cur)
    ensures DecodeRun(net, start, xs).0[l] == LayerKVs(net, l, Gather(net, store[l], row.cells[..row.base]), cur)
  {
    var mid := MidCache(net, store, row, l);
    var kvs := LayerKVs(net, l, mid[l], cur);
    BlockRunKeeps(net, l + 1, mid[l := kvs], LayerOuts(net, l, mid[l], cur), l);
    BlockEqualsDecodes(net, start, xs);
  }
}
