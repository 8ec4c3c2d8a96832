/** Packed prefill: several prompts laid end to end in one pass, each attending inside its own
    stretch. Prompts that share a stored prefix write the same cells. */
module Packed {
  import opened Lists
  import opened Network
  import opened PagedForward
  import opened Prefill

  // ---- packing -------------------------------------------------------------------

  /** `flat` is the parts laid end to end; part `b` lies at `cu[b]..cu[b + 1]`. */
  ghost predicate Packs<T>(flat: seq<T>, cu: seq<nat>, parts: seq<seq<T>>) {
    && |cu| == |parts| + 1 && cu[0] == 0 && Last(cu) == |flat|
    && forall b :: 0 <= b < |parts| ==> PartAt(flat, cu, b, parts[b])
  }

  ghost predicate PartAt<T>(flat: seq<T>, cu: seq<nat>, b: nat, part: seq<T>)
    requires b + 1 < |cu|
  {
    cu[b] + |part| == cu[b + 1] <= |flat| && flat[cu[b]..cu[b + 1]] == part
  }

  lemma PackMore<T>(flat: seq<T>, cu: seq<nat>, parts: seq<seq<T>>, part: seq<T>)
    requires Packs(flat, cu, parts)
    ensures Packs(flat + part, cu + [|flat| + |part|], parts + [part])
  {
    var flat', cu' := flat + part, cu + [|flat| + |part|];
    forall b | 0 <= b <= |parts| ensures PartAt(flat', cu', b, (parts + [part])[b]) {
      if b < |parts| {
        assert PartAt(flat, cu, b, parts[b]);
        assert flat'[cu[b]..cu[b + 1]] == flat[cu[b]..cu[b + 1]];
      }
    }
  }

  /** Token `p` of part `b`. */
  lemma PackedAt<T>(flat: seq<T>, cu: seq<nat>, parts: seq<seq<T>>, b: nat, p: nat)
    requires Packs(flat, cu, parts) && b < |parts| && p < |parts[b]|
    ensures cu[b] + p < cu[b + 1] <= |flat| && flat[cu[b] + p] == parts[b][p]
  {
    assert PartAt(flat, cu, b, parts[b]);
    assert flat[cu[b]..cu[b + 1]][p] == flat[cu[b] + p];
  }

  /** Every flat index lies in one part. */
  lemma {:induction false} Locate(cu: seq<nat>, n: nat, i: nat) returns (b: nat)
    requires n < |cu| && cu[0] == 0 && i < cu[n]
    ensures b < n && cu[b] <= i < cu[b + 1]
  {
    if cu[n - 1] <= i { b := n - 1; } else { b := Locate(cu, n - 1, i); }
  }

  lemma LocateIn<T>(flat: seq<T>, cu: seq<nat>, parts: seq<seq<T>>, i: nat) returns (b: nat, p: nat)
    requires Packs(flat, cu, parts) && i < |flat|
    ensures b < |parts| && p < |parts[b]| && i == cu[b] + p && flat[i] == parts[b][p]
  {
    b := Locate(cu, |parts|, i);
    assert PartAt(flat, cu, b, parts[b]);
    p := i - cu[b];
    PackedAt(flat, cu, parts, b, p);
  }

  // ---- the layers of a fresh sequence ---------------------------------------------

  /** What layer `l` gets for a history that is computed from its start. */
  function LayerIn(net: Net, toks: seq<Token>, l: nat): (r: seq<Hidden>)
    ensures |r| == |toks|
  {
    if l == 0 then Embedded(net, toks, 0) else LayerOuts(net, l - 1, [], LayerIn(net, toks, l - 1))
  }

  /** The K/V rows of the layers below `l`. */
  function Below(net: Net, toks: seq<Token>, l: nat): (r: RowCache)
    ensures |r| == net.numLayers
  {
    seq(net.numLayers, j requires 0 <= j => if j < l then LayerKVs(net, j, [], LayerIn(net, toks, j)) else [])
  }

  lemma BlockRunFirst(net: Net, l: nat, cache: RowCache, xs: seq<Hidden>)
    requires l < net.numLayers == |cache|
    ensures BlockRun(net, l, cache, xs)
         == BlockRun(net, l + 1, cache[l := LayerKVs(net, l, cache[l], xs)], LayerOuts(net, l, cache[l], xs))
  {
    hide LayerKVs, LayerOuts;
  }

  lemma BelowNext(net: Net, toks: seq<Token>, l: nat)
    requires l < net.numLayers
    ensures Below(net, toks, l)[l] == []
    ensures Below(net, toks, l + 1) == Below(net, toks, l)[l := LayerKVs(net, l, [], LayerIn(net, toks, l))]
  {
    hide LayerKVs, LayerIn;
  }

  lemma {:induction false} FreshLayers(net: Net, toks: seq<Token>, l: nat)
    requires l <= net.numLayers
    ensures BlockRun(net, l, Below(net, toks, l), LayerIn(net, toks, l)) == Evaluate(net, toks)
  {
    hide BlockRun, LayerKVs, LayerOuts, DecodeRun, Below;
    if l == 0 {
      NothingBelow(net, toks);
      BlockEqualsDecodes(net, EmptyCache(net), Embedded(net, toks, 0));
    } else {
      FreshLayers(net, toks, l - 1);
      BelowNext(net, toks, l - 1);
      BlockRunFirst(net, l - 1, Below(net, toks, l - 1), LayerIn(net, toks, l - 1));
    }
  }

  lemma NothingBelow(net: Net, toks: seq<Token>)
    ensures Below(net, toks, 0) == EmptyCache(net)
  {
    hide LayerKVs, LayerIn;
  }

  /** Layer by layer from nothing is what the history evaluates to. */
  lemma FreshRows(net: Net, toks: seq<Token>)
    ensures LayerIn(net, toks, net.numLayers) == Evaluate(net, toks).1
    ensures forall l :: 0 <= l < net.numLayers ==> CacheOf(net, toks)[l] == LayerKVs(net, l, [], LayerIn(net, toks, l))
  {
    FreshLayers(net, toks, net.numLayers);
  }

  // ---- one layer -----------------------------------------------------------------

  /** Equal cells get equal rows. */
  ghost predicate Agreeing(cells: seq<nat>, own: seq<KV>) {
    |own| == |cells| && forall i, j :: 0 <= i < |cells| && 0 <= j < |cells| && cells[i] == cells[j] ==> own[i] == own[j]
  }

  /** Write every token's K/V in one call. */
  method WritePacked(net: Net, layer: Layer, cells: seq<nat>, own: seq<KV>) returns (r: Layer)
    requires Agreeing(cells, own)
    ensures forall i :: 0 <= i < |cells| ==> Load(net, r, cells[i]) == own[i]
    ensures forall f: nat :: f !in cells ==> Load(net, r, f) == Load(net, layer, f)
  {
    r := layer;
    for i := 0 to |cells|
      invariant forall k :: 0 <= k < i ==> Load(net, r, cells[k]) == own[k]
      invariant forall f: nat :: f !in cells ==> Load(net, r, f) == Load(net, layer, f)
    {
      assert cells[i] in cells;
      r := r[cells[i] := own[i]];
    }
  }

  function KvParts(net: Net, l: nat, parts: seq<seq<Hidden>>): (r: seq<seq<KV>>)
    ensures |r| == |parts|
  {
    seq(|parts|, b requires 0 <= b < |parts| => LayerKVs(net, l, [], parts[b]))
  }

  function OutParts(net: Net, l: nat, parts: seq<seq<Hidden>>): (r: seq<seq<Hidden>>)
    ensures |r| == |parts|
  {
    seq(|parts|, b requires 0 <= b < |parts| => LayerOuts(net, l, [], parts[b]))
  }

  /** What layer `l` gets for every prompt of the pack. */
  function InParts(net: Net, prompts: seq<seq<Token>>, l: nat): (r: seq<seq<Hidden>>)
    ensures |r| == |prompts|
  {
    seq(|prompts|, b requires 0 <= b < |prompts| => LayerIn(net, prompts[b], l))
  }

  function Ranges<T>(parts: seq<seq<T>>): (r: seq<seq<nat>>)
    ensures |r| == |parts|
  {
    seq(|parts|, b requires 0 <= b < |parts| => Upto(|parts[b]|))
  }

  /** The K/V rows of a whole pack, computed in one go from positions and inputs. */
  function Projected(net: Net, l: nat, xs: seq<Hidden>, pos: seq<nat>): (r: seq<KV>)
    requires |pos| == |xs|
    ensures |r| == |xs|
  {
    seq(|xs|, i requires 0 <= i < |xs| => net.project(l, xs[i], pos[i]))
  }

  lemma ProjectedParts(net: Net, l: nat, xs: seq<Hidden>, pos: seq<nat>, cu: seq<nat>, parts: seq<seq<Hidden>>)
    requires Packs(xs, cu, parts) && Packs(pos, cu, Ranges(parts)) && |pos| == |xs|
    ensures Packs(Projected(net, l, xs, pos), cu, KvParts(net, l, parts))
  {
    hide PartAt;
    var own := Projected(net, l, xs, pos);
    forall b | 0 <= b < |parts| ensures PartAt(own, cu, b, KvParts(net, l, parts)[b]) {
      assert PartAt(xs, cu, b, parts[b]) && PartAt(pos, cu, b, Ranges(parts)[b]);
      ProjectedPart(net, l, xs, pos, cu, b, parts[b]);
    }
  }

  lemma ProjectedPart(net: Net, l: nat, xs: seq<Hidden>, pos: seq<nat>, cu: seq<nat>, b: nat, part: seq<Hidden>)
    requires b + 1 < |cu| && |pos| == |xs| && PartAt(xs, cu, b, part) && PartAt(pos, cu, b, Upto(|part|))
    ensures PartAt(Projected(net, l, xs, pos), cu, b, LayerKVs(net, l, [], part))
  {
    var own := Projected(net, l, xs, pos);
    forall p | 0 <= p < |part| ensures own[cu[b]..cu[b + 1]][p] == LayerKVs(net, l, [], part)[p] {
      assert xs[cu[b]..cu[b + 1]][p] == part[p] && pos[cu[b]..cu[b + 1]][p] == p;
    }
  }

  /** Causal attention inside each stretch, over the K/V rows of this very pass. */
  method AttendPacked(net: Net, l: nat, cu: seq<nat>, xs: seq<Hidden>, own: seq<KV>, ghost parts: seq<seq<Hidden>>)
    returns (outs: seq<Hidden>)
    requires Packs(xs, cu, parts) && Packs(own, cu, KvParts(net, l, parts))
    ensures Packs(outs, cu, OutParts(net, l, parts))
  {
    hide LayerKVs, LayerOuts;
    outs := [];
    ghost var ys := OutParts(net, l, parts);
    assert cu[..1] == [0] && ys[..0] == [];
    for b := 0 to |cu| - 1
      invariant Packs(outs, cu[..b + 1], ys[..b])
    {
      assert PartAt(xs, cu, b, parts[b]) && PartAt(own, cu, b, KvParts(net, l, parts)[b]);
      var more := PrefillAttend(net, l, [], xs[cu[b]..cu[b + 1]], own[cu[b]..cu[b + 1]]);
      PackMore(outs, cu[..b + 1], ys[..b], more);
      assert cu[..b + 2] == cu[..b + 1] + [cu[b + 1]] && ys[..b + 1] == ys[..b] + [more];
      outs := outs + more;
    }
    assert cu[..|cu|] == cu && ys[..|parts|] == ys;
  }

  // ---- all layers ----------------------------------------------------------------

  /** Two tokens of the pack use one cell only where both prompts are held already. */
  ghost predicate SharedHeld(places: seq<seq<nat>>, held: seq<nat>)
    requires |held| == |places|
  {
    forall b, c, p, q :: 0 <= b < |places| && 0 <= c < |places| && 0 <= p < |places[b]| && 0 <= q < |places[c]| ==>
      (places[b][p] == places[c][q] ==> (b == c && p == q) || (p < held[b] && q < held[c]))
  }

  /** No token past its held prefix uses the cell. */
  ghost predicate Untouched(places: seq<seq<nat>>, held: seq<nat>, f: nat)
    requires |held| == |places|
  {
    forall b, p :: 0 <= b < |places| && held[b] <= p < |places[b]| ==> places[b][p] != f
  }

  /** Layer `l` of the store holds the rows of every prompt's first `upTo[b]` tokens. */
  ghost predicate LayerHolds(net: Net, l: nat, layer: Layer, places: seq<seq<nat>>, prompts: seq<seq<Token>>,
                             upTo: seq<nat>)
    requires l < net.numLayers && |places| == |prompts| == |upTo|
    requires forall b :: 0 <= b < |places| ==> |places[b]| == |prompts[b]|
  {
    forall b, p :: 0 <= b < |places| && 0 <= p < upTo[b] && p < |prompts[b]| ==>
      PromptRow(net, prompts[b], l, p, Load(net, layer, places[b][p]))
  }

  function Lengths<T>(parts: seq<seq<T>>): (r: seq<nat>)
    ensures |r| == |parts| && forall b :: 0 <= b < |r| ==> r[b] == |parts[b]|
  {
    seq(|parts|, b requires 0 <= b < |parts| => |parts[b]|)
  }

  /** The rows a pass computes for layer `l` are those of the prompts. */
  lemma OwnRow(net: Net, l: nat, own: seq<KV>, cu: seq<nat>, prompts: seq<seq<Token>>, b: nat, p: nat)
    requires l < net.numLayers && Packs(own, cu, KvParts(net, l, InParts(net, prompts, l)))
    requires b < |prompts| && p < |prompts[b]|
    ensures cu[b] + p < |own| && PromptRow(net, prompts[b], l, p, own[cu[b] + p])
  {
    PackedAt(own, cu, KvParts(net, l, InParts(net, prompts, l)), b, p);
    FreshRows(net, prompts[b]);
  }

  /** Tokens that share a cell compute the row it already holds. */
  lemma SharedAgree(net: Net, l: nat, layer: Layer, own: seq<KV>, cells: seq<nat>, cu: seq<nat>, places: seq<seq<nat>>,
                    prompts: seq<seq<Token>>, held: seq<nat>, i: nat, j: nat)
    requires l < net.numLayers && |places| == |prompts| == |held| && SharedHeld(places, held)
    requires forall b :: 0 <= b < |places| ==> |places[b]| == |prompts[b]|
    requires LayerHolds(net, l, layer, places, prompts, held)
    requires Packs(own, cu, KvParts(net, l, InParts(net, prompts, l))) && Packs(cells, cu, places)
    requires i < |cells| && j < |cells| && cells[i] == cells[j] && |own| == |cells|
    ensures own[i] == own[j]
  {
    hide Packs, LayerIn, KvParts;
    var b, p := LocateIn(cells, cu, places, i);
    var c, q := LocateIn(cells, cu, places, j);
    if b != c || p != q {
      OwnRow(net, l, own, cu, prompts, b, p);
      OwnRow(net, l, own, cu, prompts, c, q);
      assert PromptRow(net, prompts[b], l, p, Load(net, layer, places[b][p]));
      assert PromptRow(net, prompts[c], l, q, Load(net, layer, places[c][q]));
    }
  }

  lemma LayerAgrees(net: Net, l: nat, layer: Layer, own: seq<KV>, cells: seq<nat>, cu: seq<nat>, places: seq<seq<nat>>,
                    prompts: seq<seq<Token>>, held: seq<nat>)
    requires l < net.numLayers && |places| == |prompts| == |held| && SharedHeld(places, held)
    requires forall b :: 0 <= b < |places| ==> |places[b]| == |prompts[b]|
    requires LayerHolds(net, l, layer, places, prompts, held)
    requires Packs(own, cu, KvParts(net, l, InParts(net, prompts, l))) && Packs(cells, cu, places) && |own| == |cells|
    ensures Agreeing(cells, own)
  {
    hide Packs, LayerIn, KvParts, SharedHeld, LayerHolds;
    forall i, j | 0 <= i < |cells| && 0 <= j < |cells| && cells[i] == cells[j] ensures own[i] == own[j] {
      SharedAgree(net, l, layer, own, cells, cu, places, prompts, held, i, j);
    }
  }

  /** What one layer leaves in the store. */
  lemma LayerWritten(net: Net, l: nat, was: Layer, now: Layer, own: seq<KV>, cells: seq<nat>, cu: seq<nat>,
                     places: seq<seq<nat>>, prompts: seq<seq<Token>>, held: seq<nat>)
    requires l < net.numLayers && |places| == |prompts| == |held|
    requires forall b :: 0 <= b < |places| ==> |places[b]| == |prompts[b]|
    requires LayerHolds(net, l, was, places, prompts, held)
    requires Packs(own, cu, KvParts(net, l, InParts(net, prompts, l))) && Packs(cells, cu, places) && |own| == |cells|
    requires forall i :: 0 <= i < |cells| ==> Load(net, now, cells[i]) == own[i]
    requires forall f: nat :: f !in cells ==> Load(net, now, f) == Load(net, was, f)
    ensures LayerHolds(net, l, now, places, prompts, Lengths(prompts))
    ensures forall f: nat :: Untouched(places, held, f) ==> Load(net, now, f) == Load(net, was, f)
  {
    hide PartAt, LayerIn, KvParts;
    forall b, p | 0 <= b < |places| && 0 <= p < |prompts[b]|
      ensures PromptRow(net, prompts[b], l, p, Load(net, now, places[b][p]))
    {
      PackedAt(cells, cu, places, b, p);
      OwnRow(net, l, own, cu, prompts, b, p);
      assert Load(net, now, cells[cu[b] + p]) == own[cu[b] + p];
    }
    forall f: nat | Untouched(places, held, f) ensures Load(net, now, f) == Load(net, was, f) {
      if f in cells {
        var i :| 0 <= i < |cells| && cells[i] == f;
        var b, p := LocateIn(cells, cu, places, i);
        assert PromptRow(net, prompts[b], l, p, Load(net, was, places[b][p]));
        assert PromptRow(net, prompts[b], l, p, Load(net, now, places[b][p]));
      }
    }
  }

  lemma NextParts(net: Net, prompts: seq<seq<Token>>, l: nat)
    ensures OutParts(net, l, InParts(net, prompts, l)) == InParts(net, prompts, l + 1)
    ensures Ranges(InParts(net, prompts, l)) == Ranges(prompts)
  {
  }

  /** One attention layer over the pack. Cells that several prompts share are written several
      times, each time with the row they hold. */
  method PackedLayer(net: Net, l: nat, layer: Layer, cells: seq<nat>, cu: seq<nat>, pos: seq<nat>, xs: seq<Hidden>,
                     ghost places: seq<seq<nat>>, ghost prompts: seq<seq<Token>>, ghost held: seq<nat>)
    returns (r: Layer, outs: seq<Hidden>)
    requires l < net.numLayers && |places| == |prompts| == |held| && SharedHeld(places, held)
    requires forall b :: 0 <= b < |places| ==> |places[b]| == |prompts[b]|
    requires LayerHolds(net, l, layer, places, prompts, held)
    requires Packs(cells, cu, places) && Packs(pos, cu, Ranges(prompts)) && Packs(xs, cu, InParts(net, prompts, l))
    ensures LayerHolds(net, l, r, places, prompts, Lengths(prompts))
    ensures Packs(outs, cu, InParts(net, prompts, l + 1))
    ensures forall f: nat :: Untouched(places, held, f) ==> Load(net, r, f) == Load(net, layer, f)
  {
    hide LayerIn, KvParts, SharedHeld, LayerHolds, PartAt, InParts, OutParts, Ranges, Untouched;
    NextParts(net, prompts, l);
    ProjectedParts(net, l, xs, pos, cu, InParts(net, prompts, l));
    var own := Projected(net, l, xs, pos);
    LayerAgrees(net, l, layer, own, cells, cu, places, prompts, held);
    r := WritePacked(net, layer, cells, own);
    LayerWritten(net, l, layer, r, own, cells, cu, places, prompts, held);
    outs := AttendPacked(net, l, cu, xs, own, InParts(net, prompts, l));
  }

  /** The store holds the rows of every prompt's first `upTo[b]` tokens. */
  ghost predicate StoreHolds(net: Net, store: Store, places: seq<seq<nat>>, prompts: seq<seq<Token>>, upTo: seq<nat>) {
    && |store| == net.numLayers && |places| == |prompts| == |upTo|
    && (forall b :: 0 <= b < |places| ==> |places[b]| == |prompts[b]|)
    && forall l :: 0 <= l < net.numLayers ==> LayerHolds(net, l, store[l], places, prompts, upTo)
  }

  /** The whole packed pass. Every prompt's cells hold its own rows afterwards and its outputs are
      those of its own evaluation, whatever is packed beside it; only cells past a held prefix
      change. */
  method PackedForward(net: Net, store: Store, ids: seq<Token>, cells: seq<nat>, cu: seq<nat>, pos: seq<nat>,
                       ghost places: seq<seq<nat>>, ghost prompts: seq<seq<Token>>, ghost held: seq<nat>)
    returns (r: Store, outs: seq<Hidden>)
    requires StoreHolds(net, store, places, prompts, held) && SharedHeld(places, held)
    requires Packs(ids, cu, prompts) && Packs(cells, cu, places) && Packs(pos, cu, Ranges(prompts))
    ensures StoreHolds(net, r, places, prompts, Lengths(prompts))
    ensures |cu| == |prompts| + 1
    ensures forall b :: 0 <= b < |prompts| ==> PartAt(outs, cu, b, Evaluate(net, prompts[b]).1)
    ensures forall l, f: nat :: 0 <= l < net.numLayers && Untouched(places, held, f) ==>
      Load(net, r[l], f) == Load(net, store[l], f)
  {
    hide LayerIn, SharedHeld, LayerHolds, PartAt, InParts, Ranges, Untouched, Lengths;
    r := store;
    outs := seq(|ids|, i requires 0 <= i < |ids| == |pos| => net.embed(ids[i], pos[i]));
    EmbeddedParts(net, ids, pos, cu, prompts, outs);
    for l := 0 to net.numLayers
      invariant |r| == |store| && Packs(outs, cu, InParts(net, prompts, l))
      invariant forall j :: l <= j < |store| ==> r[j] == store[j]
      invariant forall j :: 0 <= j < l ==> LayerHolds(net, j, r[j], places, prompts, Lengths(prompts))
      invariant forall j, f: nat :: 0 <= j < l && Untouched(places, held, f) ==> Load(net, r[j], f) == Load(net, store[j], f)
    {
      var layer, ys := PackedLayer(net, l, r[l], cells, cu, pos, outs, places, prompts, held);
      r, outs := r[l := layer], ys;
    }
    OutputParts(net, cu, prompts, outs);
  }

  lemma EmbeddedParts(net: Net, ids: seq<Token>, pos: seq<nat>, cu: seq<nat>, prompts: seq<seq<Token>>, xs: seq<Hidden>)
    requires Packs(ids, cu, prompts) && Packs(pos, cu, Ranges(prompts))
    requires |xs| == |ids| == |pos| && forall i :: 0 <= i < |ids| ==> xs[i] == net.embed(ids[i], pos[i])
    ensures Packs(xs, cu, InParts(net, prompts, 0))
  {
    forall b | 0 <= b < |prompts| ensures PartAt(xs, cu, b, InParts(net, prompts, 0)[b]) {
      assert PartAt(ids, cu, b, prompts[b]) && PartAt(pos, cu, b, Ranges(prompts)[b]);
      forall p | 0 <= p < |prompts[b]| ensures xs[cu[b]..cu[b + 1]][p] == Embedded(net, prompts[b], 0)[p] {
        assert ids[cu[b]..cu[b + 1]][p] == prompts[b][p] && pos[cu[b]..cu[b + 1]][p] == p;
      }
    }
  }

  lemma OutputParts(net: Net, cu: seq<nat>, prompts: seq<seq<Token>>, outs: seq<Hidden>)
    requires Packs(outs, cu, InParts(net, prompts, net.numLayers))
    ensures forall b :: 0 <= b < |prompts| ==> PartAt(outs, cu, b, Evaluate(net, prompts[b]).1)
  {
    hide PartAt;
    forall b | 0 <= b < |prompts| ensures PartAt(outs, cu, b, Evaluate(net, prompts[b]).1) {
      FreshRows(net, prompts[b]);
      assert PartAt(outs, cu, b, InParts(net, prompts, net.numLayers)[b]);
    }
  }

  /** Lay the prompts, their positions and their cells end to end. */
  method Pack(prompts: seq<seq<Token>>, places: seq<seq<nat>>)
    returns (ids: seq<Token>, pos: seq<nat>, cells: seq<nat>, cu: seq<nat>)
    requires |places| == |prompts| && forall b :: 0 <= b < |prompts| ==> |places[b]| == |prompts[b]|
    ensures Packs(ids, cu, prompts) && Packs(pos, cu, Ranges(prompts)) && Packs(cells, cu, places)
  {
    hide PartAt;
    ids, pos, cells, cu := [], [], [], [0];
    for b := 0 to |prompts|
      invariant Packs(ids, cu, prompts[..b]) && Packs(pos, cu, Ranges(prompts)[..b]) && Packs(cells, cu, places[..b])
      invariant |ids| == |pos| == |cells|
    {
      PackMore(ids, cu, prompts[..b], prompts[b]);
      PackMore(pos, cu, Ranges(prompts)[..b], Ranges(prompts)[b]);
      PackMore(cells, cu, places[..b], places[b]);
      assert prompts[..b + 1] == prompts[..b] + [prompts[b]] && places[..b + 1] == places[..b] + [places[b]];
      assert Ranges(prompts)[..b + 1] == Ranges(prompts)[..b] + [Ranges(prompts)[b]];
      cu := cu + [|ids| + |prompts[b]|];
      ids, pos, cells := ids + prompts[b], pos + Upto(|prompts[b]|), cells + places[b];
    }
    assert prompts[..|prompts|] == prompts && places[..|prompts|] == places;
    assert Ranges(prompts)[..|prompts|] == Ranges(prompts);
  }
}
