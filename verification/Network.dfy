/** The network as the serving engine sees it: uninterpreted per-layer functions over
    hidden rows and K/V rows, plus a greedy pick. Everything else in this project is
    proved for every such network. */
module Network {
  type Token = int

  /** A hidden row and a K/V row, each named by its bit pattern read as one number. Nothing is
      assumed about what the network does to them. */
  datatype Hidden = Hidden(bits: int)
  datatype KV = KV(bits: int)

  /** `project(l, x, p)` is the K/V row layer `l` computes for input `x` at position `p`;
      `attend(l, x, p, kvs)` is layer `l`'s output for that input once it attends over the
      K/V rows of positions `0..p`. `blank` is what an unwritten cache cell holds. */
  datatype Net = Net(
    numLayers: nat,
    embed: (Token, nat) -> Hidden,
    project: (nat, Hidden, nat) -> KV,
    attend: (nat, Hidden, nat, seq<KV>) -> Hidden,
    pick: Hidden -> Token,
    blank: KV
  )

  /** One sequence's K/V rows, layer-major: `cache[l][p]`. */
  type RowCache = seq<seq<KV>>

  function Last<T>(s: seq<T>): T
    requires s != []
  {
    s[|s| - 1]
  }

  function Init<T>(s: seq<T>): seq<T>
    requires s != []
  {
    s[..|s| - 1]
  }

  // ---- one layer over several tokens (the verify/prefill order) -----------------

  /** The K/V rows of layer `l` after the tokens `xs` have been appended to `kvs`. */
  function LayerKVs(net: Net, l: nat, kvs: seq<KV>, xs: seq<Hidden>): (r: seq<KV>)
    ensures |r| == |kvs| + |xs|
  {
    kvs + seq(|xs|, t requires 0 <= t < |xs| => net.project(l, xs[t], |kvs| + t))
  }

  /** The outputs of layer `l`: token `t` attends the prefix and tokens `0..t`. */
  function LayerOuts(net: Net, l: nat, kvs: seq<KV>, xs: seq<Hidden>): (r: seq<Hidden>)
    ensures |r| == |xs|
  {
    var all := LayerKVs(net, l, kvs, xs);
    seq(|xs|, t requires 0 <= t < |xs| => net.attend(l, xs[t], |kvs| + t, all[..|kvs| + t + 1]))
  }

  /** Appending one token appends one K/V row and one output. */
  lemma LayerSnoc(net: Net, l: nat, kvs: seq<KV>, xs: seq<Hidden>, x: Hidden)
    ensures
      var all := LayerKVs(net, l, kvs, xs) + [net.project(l, x, |kvs| + |xs|)];
      && LayerKVs(net, l, kvs, xs + [x]) == all
      && LayerOuts(net, l, kvs, xs + [x])
         == LayerOuts(net, l, kvs, xs) + [net.attend(l, x, |kvs| + |xs|, all)]
  {
    var before := LayerKVs(net, l, kvs, xs);
    var all := LayerKVs(net, l, kvs, xs + [x]);
    assert all == before + [net.project(l, x, |kvs| + |xs|)];
    var outs, outs' := LayerOuts(net, l, kvs, xs), LayerOuts(net, l, kvs, xs + [x]);
    forall t | 0 <= t < |xs| ensures outs'[t] == outs[t] {
      assert all[..|kvs| + t + 1] == before[..|kvs| + t + 1];
    }
    assert all[..|kvs| + |xs| + 1] == all;
    assert outs' == outs + [net.attend(l, x, |kvs| + |xs|, all)];
  }

  /** Layers `l..` run one after the other, each over all of `xs`. */
  function BlockRun(net: Net, l: nat, cache: RowCache, xs: seq<Hidden>): (r: (RowCache, seq<Hidden>))
    requires l <= net.numLayers == |cache|
    ensures |r.0| == |cache| && |r.1| == |xs|
    decreases net.numLayers - l
  {
    if l == net.numLayers then (cache, xs)
    else
      BlockRun(net, l + 1, cache[l := LayerKVs(net, l, cache[l], xs)], LayerOuts(net, l, cache[l], xs))
  }

  // ---- one token through all layers (the decode order) --------------------------

  function TokenRun(net: Net, l: nat, cache: RowCache, x: Hidden): (r: (RowCache, Hidden))
    requires l <= net.numLayers == |cache|
    ensures |r.0| == |cache|
    decreases net.numLayers - l
  {
    if l == net.numLayers then (cache, x)
    else
      var p := |cache[l]|;
      var kvs := cache[l] + [net.project(l, x, p)];
      TokenRun(net, l + 1, cache[l := kvs], net.attend(l, x, p, kvs))
  }

  /** Consecutive decode steps: each token passes every layer before the next one starts. */
  function DecodeRun(net: Net, cache: RowCache, xs: seq<Hidden>): (r: (RowCache, seq<Hidden>))
    requires net.numLayers == |cache|
    ensures |r.0| == |cache| && |r.1| == |xs|
  {
    if xs == [] then (cache, [])
    else
      var (c, ys) := DecodeRun(net, cache, Init(xs));
      var (c', y) := TokenRun(net, 0, c, Last(xs));
      (c', ys + [y])
  }

  // ---- layer-by-layer equals token-by-token -------------------------------------

  /** Layers `l..` neither read nor write a layer below `l`. */
  lemma {:induction false} BlockRunFrame(net: Net, l: nat, cache: RowCache, xs: seq<Hidden>, j: nat, v: seq<KV>)
    requires j < l <= net.numLayers == |cache|
    ensures BlockRun(net, l, cache[j := v], xs).0 == BlockRun(net, l, cache, xs).0[j := v]
    ensures BlockRun(net, l, cache[j := v], xs).1 == BlockRun(net, l, cache, xs).1
    decreases net.numLayers - l
  {
    if l < net.numLayers {
      var step := cache[l := LayerKVs(net, l, cache[l], xs)];
      BlockRunFrame(net, l + 1, step, LayerOuts(net, l, cache[l], xs), j, v);
      assert step[j := v] == cache[j := v][l := LayerKVs(net, l, cache[l], xs)];
    }
  }

  /** Layers `l..` leave layer `j` below them as it was. */
  lemma {:induction false} BlockRunKeeps(net: Net, l: nat, cache: RowCache, xs: seq<Hidden>, j: nat)
    requires j < l <= net.numLayers == |cache|
    ensures BlockRun(net, l, cache, xs).0[j] == cache[j]
    decreases net.numLayers - l
  {
    if l < net.numLayers {
      BlockRunKeeps(net, l + 1, cache[l := LayerKVs(net, l, cache[l], xs)], LayerOuts(net, l, cache[l], xs), j);
    }
  }

  /** One more token at the end of a block is one decode step after the shorter block. */
  lemma {:induction false} BlockRunSnoc(net: Net, l: nat, cache: RowCache, xs: seq<Hidden>, x: Hidden)
    requires l <= net.numLayers == |cache|
    ensures
      var (c, ys) := BlockRun(net, l, cache, xs);
      var (c', y) := TokenRun(net, l, c, x);
      BlockRun(net, l, cache, xs + [x]) == (c', ys + [y])
    decreases net.numLayers - l
  {
    if l < net.numLayers {
      var kvs := LayerKVs(net, l, cache[l], xs);
      var outs := LayerOuts(net, l, cache[l], xs);
      LayerSnoc(net, l, cache[l], xs, x);
      var kvs' := kvs + [net.project(l, x, |kvs|)];
      var o := net.attend(l, x, |kvs|, kvs');
      BlockRunSnoc(net, l + 1, cache[l := kvs'], outs, o);
      assert cache[l := kvs'] == cache[l := kvs][l := kvs'];
      BlockRunFrame(net, l + 1, cache[l := kvs], outs, l, kvs');
      BlockRunKeeps(net, l + 1, cache[l := kvs], outs, l);
    }
  }

  /** A block of any width, run layer by layer through any number of layers, gives the
      outputs and the cache of that many consecutive decode steps. */
  lemma {:induction false} BlockEqualsDecodes(net: Net, cache: RowCache, xs: seq<Hidden>)
    requires net.numLayers == |cache|
    ensures BlockRun(net, 0, cache, xs) == DecodeRun(net, cache, xs)
  {
    if xs == [] {
      BlockRunNothing(net, 0, cache);
    } else {
      BlockEqualsDecodes(net, cache, Init(xs));
      BlockRunSnoc(net, 0, cache, Init(xs), Last(xs));
      assert xs == Init(xs) + [Last(xs)];
    }
  }

  lemma {:induction false} BlockRunNothing(net: Net, l: nat, cache: RowCache)
    requires l <= net.numLayers == |cache|
    ensures BlockRun(net, l, cache, []) == (cache, [])
    decreases net.numLayers - l
  {
    if l < net.numLayers {
      assert LayerKVs(net, l, cache[l], []) == cache[l];
      assert cache[l := cache[l]] == cache;
      BlockRunNothing(net, l + 1, cache);
    }
  }

  /** Where a run is cut makes no difference: the second part continues from the cache the
      first part left. */
  lemma {:induction false} DecodeRunSplit(net: Net, cache: RowCache, xs: seq<Hidden>, ys: seq<Hidden>)
    requires net.numLayers == |cache|
    ensures
      var (c, us) := DecodeRun(net, cache, xs);
      var (c', vs) := DecodeRun(net, c, ys);
      DecodeRun(net, cache, xs + ys) == (c', us + vs)
  {
    if ys == [] {
      assert xs + ys == xs;
      assert DecodeRun(net, cache, xs).1 + [] == DecodeRun(net, cache, xs).1;
    } else {
      DecodeRunSplit(net, cache, xs, Init(ys));
      assert Init(xs + ys) == xs + Init(ys) && Last(xs + ys) == Last(ys);
      var (c, us) := DecodeRun(net, cache, xs);
      var (c', vs) := DecodeRun(net, c, Init(ys));
      var (c'', v) := TokenRun(net, 0, c', Last(ys));
      assert (us + vs) + [v] == us + (vs + [v]);
    }
  }

  // ---- what a token history means ------------------------------------------------

  /** The embedded tokens of a history that starts at position `base`. */
  function Embedded(net: Net, toks: seq<Token>, base: nat): (r: seq<Hidden>)
    ensures |r| == |toks|
  {
    seq(|toks|, t requires 0 <= t < |toks| => net.embed(toks[t], base + t))
  }

  function EmptyCache(net: Net): (r: RowCache)
    ensures |r| == net.numLayers && forall l :: 0 <= l < |r| ==> r[l] == []
  {
    seq(net.numLayers, l => [])
  }

  function Evaluate(net: Net, toks: seq<Token>): (RowCache, seq<Hidden>) {
    DecodeRun(net, EmptyCache(net), Embedded(net, toks, 0))
  }

  /** The K/V rows every layer must hold for the history `toks`. */
  function CacheOf(net: Net, toks: seq<Token>): RowCache {
    Evaluate(net, toks).0
  }

  /** The greedy token after `toks`. */
  function Next(net: Net, toks: seq<Token>): Token
    requires toks != []
  {
    net.pick(Last(Evaluate(net, toks).1))
  }

  /** Every layer holds exactly `n` rows. */
  predicate HasLength(cache: RowCache, n: nat) {
    forall l :: 0 <= l < |cache| ==> |cache[l]| == n
  }

  lemma {:induction false} TokenRunAppends(net: Net, l: nat, cache: RowCache, x: Hidden)
    requires l <= net.numLayers == |cache|
    ensures
      var c := TokenRun(net, l, cache, x).0;
      && (forall j :: 0 <= j < l ==> c[j] == cache[j])
      && (forall j :: l <= j < |cache| ==> |c[j]| == |cache[j]| + 1 && c[j][..|cache[j]|] == cache[j])
    decreases net.numLayers - l
  {
    if l < net.numLayers {
      var p := |cache[l]|;
      var kvs := cache[l] + [net.project(l, x, p)];
      TokenRunAppends(net, l + 1, cache[l := kvs], net.attend(l, x, p, kvs));
      assert kvs[..p] == cache[l];
    }
  }

  lemma {:induction false} DecodeRunAppends(net: Net, cache: RowCache, xs: seq<Hidden>)
    requires net.numLayers == |cache|
    ensures
      var c := DecodeRun(net, cache, xs).0;
      forall j :: 0 <= j < |cache| ==> |c[j]| == |cache[j]| + |xs| && c[j][..|cache[j]|] == cache[j]
  {
    if xs != [] {
      DecodeRunAppends(net, cache, Init(xs));
      var c := DecodeRun(net, cache, Init(xs)).0;
      TokenRunAppends(net, 0, c, Last(xs));
      var c' := DecodeRun(net, cache, xs).0;
      forall j | 0 <= j < |cache|
        ensures |c'[j]| == |cache[j]| + |xs| && c'[j][..|cache[j]|] == cache[j]
      {
        assert c'[j][..|c[j]|] == c[j];
        assert c'[j][..|cache[j]|] == c'[j][..|c[j]|][..|cache[j]|];
      }
    }
  }

  /** Causality: the rows and outputs of the first `k` tokens do not depend on later ones. */
  lemma EvaluatePrefix(net: Net, toks: seq<Token>, k: nat)
    requires k <= |toks|
    ensures Evaluate(net, toks).1[..k] == Evaluate(net, toks[..k]).1
    ensures forall l :: 0 <= l < net.numLayers ==>
      |CacheOf(net, toks)[l]| == |toks| && CacheOf(net, toks)[l][..k] == CacheOf(net, toks[..k])[l]
  {
    var a, b := Embedded(net, toks[..k], 0), Embedded(net, toks[k..], k);
    assert Embedded(net, toks, 0) == a + b;
    DecodeRunSplit(net, EmptyCache(net), a, b);
    DecodeRunAppends(net, EmptyCache(net), a);
    DecodeRunAppends(net, DecodeRun(net, EmptyCache(net), a).0, b);
  }

  /** Continuing from the cache of `toks` with `more` is evaluating `toks + more`. */
  lemma EvaluateSplit(net: Net, toks: seq<Token>, more: seq<Token>)
    ensures HasLength(CacheOf(net, toks), |toks|)
    ensures
      var (c, ys) := DecodeRun(net, CacheOf(net, toks), Embedded(net, more, |toks|));
      Evaluate(net, toks + more) == (c, Evaluate(net, toks).1 + ys)
  {
    DecodeRunAppends(net, EmptyCache(net), Embedded(net, toks, 0));
    assert Embedded(net, toks + more, 0) == Embedded(net, toks, 0) + Embedded(net, more, |toks|);
    DecodeRunSplit(net, EmptyCache(net), Embedded(net, toks, 0), Embedded(net, more, |toks|));
  }

  /** Output `t` of such a continuation picks the greedy token after `toks + more[..t + 1]`. */
  lemma ContinuationPicks(net: Net, toks: seq<Token>, more: seq<Token>, t: nat)
    requires t < |more|
    ensures
      net.pick(DecodeRun(net, CacheOf(net, toks), Embedded(net, more, |toks|)).1[t])
      == Next(net, toks + more[..t + 1])
  {
    EvaluateSplit(net, toks, more);
    var us := Evaluate(net, toks).1;
    var ys := DecodeRun(net, CacheOf(net, toks), Embedded(net, more, |toks|)).1;
    EvaluatePrefix(net, toks + more, |toks| + t + 1);
    assert (toks + more)[..|toks| + t + 1] == toks + more[..t + 1];
    assert (us + ys)[..|toks| + t + 1][|toks| + t] == ys[t];
  }
}
