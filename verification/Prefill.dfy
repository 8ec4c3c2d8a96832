/** Eager prefill of one sequence: the whole prompt at once or in chunks of any size, with the
    K/V of a shared prefix already in the store. */
module Prefill {
  import opened Lists
  import opened Network
  import opened PagedForward
  import opened Blocks
  import opened EngineState

  /** The first `k` positions read back as the prompt's K/V rows. */
  ghost predicate ReadsUpTo(net: Net, store: Store, cells: seq<nat>, prompt: seq<Token>, k: nat)
    requires |store| == net.numLayers && |cells| == |prompt|
  {
    forall l, p :: 0 <= l < |store| && 0 <= p < k && p < |prompt| ==> PromptRow(net, prompt, l, p, Load(net, store[l], cells[p]))
  }

  ghost predicate PromptRow(net: Net, prompt: seq<Token>, l: nat, p: nat, kv: KV)
    requires l < net.numLayers && p < |prompt|
  {
    |CacheOf(net, prompt)| == net.numLayers && p < |CacheOf(net, prompt)[l]| && CacheOf(net, prompt)[l][p] == kv
  }

  lemma ReadsAsCache(net: Net, store: Store, cells: seq<nat>, prompt: seq<Token>, k: nat)
    requires |store| == net.numLayers && |cells| == |prompt| && k <= |prompt|
    requires ReadsUpTo(net, store, cells, prompt, k)
    ensures GatherRow(net, store, cells[..k]) == CacheOf(net, prompt[..k])
  {
    EvaluatePrefix(net, prompt, k);
    var want := CacheOf(net, prompt[..k]);
    assert |want| == net.numLayers;
    forall l | 0 <= l < |store| ensures Gather(net, store[l], cells[..k]) == want[l] {
      forall p | 0 <= p < k ensures Gather(net, store[l], cells[..k])[p] == want[l][p] {
        assert PromptRow(net, prompt, l, p, Load(net, store[l], cells[p]));
        assert want[l][p] == CacheOf(net, prompt)[l][..k][p];
      }
    }
    assert GatherRow(net, store, cells[..k]) == want;
  }

  lemma CacheAsReads(net: Net, store: Store, cells: seq<nat>, prompt: seq<Token>, k: nat)
    requires |store| == net.numLayers && |cells| == |prompt| && k <= |prompt|
    requires GatherRow(net, store, cells[..k]) == CacheOf(net, prompt[..k])
    ensures ReadsUpTo(net, store, cells, prompt, k)
  {
    EvaluatePrefix(net, prompt, k);
    forall l, p | 0 <= l < |store| && 0 <= p < k ensures PromptRow(net, prompt, l, p, Load(net, store[l], cells[p])) {
      assert GatherRow(net, store, cells[..k])[l][p] == Load(net, store[l], cells[p]);
      assert CacheOf(net, prompt)[l][..k][p] == CacheOf(net, prompt)[l][p];
    }
  }

  /** What a chunk computes, given that the positions before it read back right. */
  lemma ChunkWants(net: Net, store: Store, cells: seq<nat>, prompt: seq<Token>, base: nat, end: nat)
    requires |store| == net.numLayers && |cells| == |prompt| && base <= end <= |prompt|
    requires ReadsUpTo(net, store, cells, prompt, base)
    ensures
      var (c, ys) := DecodeRun(net, GatherRow(net, store, cells[..base]), Embedded(net, prompt[base..end], base));
      c == CacheOf(net, prompt[..end])
      && (base < end ==> net.pick(Last(ys)) == Next(net, prompt[..end]))
  {
    ReadsAsCache(net, store, cells, prompt, base);
    EvaluateSplit(net, prompt[..base], prompt[base..end]);
    assert prompt[..base] + prompt[base..end] == prompt[..end];
    if base < end {
      ContinuationPicks(net, prompt[..base], prompt[base..end], end - base - 1);
      assert prompt[base..end][..end - base] == prompt[base..end];
    }
  }

  /** One chunk keeps what was readable readable and adds its own positions. */
  lemma ChunkReads(net: Net, was: Store, now: Store, cells: seq<nat>, prompt: seq<Token>, base: nat, end: nat, held: nat)
    requires |was| == |now| == net.numLayers && |cells| == |prompt| && base <= end <= |prompt|
    requires forall i, j :: 0 <= i < j < |cells| ==> cells[i] != cells[j]
    requires ReadsUpTo(net, was, cells, prompt, held)
    requires GatherRow(net, now, cells[..end]) == CacheOf(net, prompt[..end])
    requires forall l, f: nat :: 0 <= l < |was| && f !in cells[base..end] ==> Load(net, now[l], f) == Load(net, was[l], f)
    ensures ReadsUpTo(net, now, cells, prompt, if held < end then end else held)
  {
    CacheAsReads(net, now, cells, prompt, end);
    forall l, p | 0 <= l < |now| && end <= p < held && p < |prompt|
      ensures PromptRow(net, prompt, l, p, Load(net, now[l], cells[p]))
    {
      assert cells[p] !in cells[base..end];
      assert PromptRow(net, prompt, l, p, Load(net, was[l], cells[p]));
    }
  }

  /** Prefill in chunks; the result does not depend on the chunk size, and only blocks past
      the shared prefix change. */
  method PrefillRow(net: Net, store: Store, table: seq<nat>, bs: nat, prompt: seq<Token>, matched: nat,
                    start: nat, chunk: nat)
    returns (r: Store, tok: Token)
    requires bs > 0 && NoDup(table) && prompt != [] && |prompt| <= |table| * bs && start <= matched <= |prompt|
    requires Holds(net, store, table, bs, prompt[..matched])
    ensures Holds(net, r, table, bs, prompt) && tok == Next(net, prompt)
    ensures WritesWithin(net, store, r, bs, Tail(table, matched / bs))
  {
    var n := |prompt|;
    var cells := FlatSlotMapping(table, bs, n);
    forall i, j | 0 <= i < j < n ensures cells[i] != cells[j] {
      FlatDistinct(table, bs, i, j);
    }
    FlatMappingPrefix(table, table, bs, n, matched);
    CacheAsReads(net, store, cells, prompt, matched);
    var width := if chunk > 0 && n > chunk then chunk else n;
    var base := 0;
    r, tok := store, 0;
    while base < n
      invariant base <= n && |r| == |store|
      invariant ReadsUpTo(net, r, cells, prompt, if matched < base then base else matched)
      invariant forall l, f: nat :: 0 <= l < |store| && f !in cells ==> Load(net, r[l], f) == Load(net, store[l], f)
      invariant base == n ==> tok == Next(net, prompt)
    {
      var end := if base + width < n then base + width else n;
      r, tok := PrefillChunk(net, r, cells, prompt, base, end, start, matched);
      assert prompt[..n] == prompt;
      base := end;
    }
    assert cells[..n] == cells && prompt[..n] == prompt;
    ReadsAsCache(net, r, cells, prompt, n);
    PrefillWrites(net, store, r, table, bs, prompt, matched);
  }

  method PrefillChunk(net: Net, store: Store, cells: seq<nat>, prompt: seq<Token>, base: nat, end: nat,
                      start: nat, ghost matched: nat)
    returns (r: Store, tok: Token)
    requires |store| == net.numLayers && |cells| == |prompt| && base < end <= |prompt| && start <= matched
    requires forall i, j :: 0 <= i < j < |cells| ==> cells[i] != cells[j]
    requires ReadsUpTo(net, store, cells, prompt, if matched < base then base else matched)
    ensures |r| == |store| && tok == Next(net, prompt[..end])
    ensures ReadsUpTo(net, r, cells, prompt, if matched < end then end else matched)
    ensures forall l, f: nat :: 0 <= l < |store| && f !in cells ==> Load(net, r[l], f) == Load(net, store[l], f)
  {
    var part := cells[..end];
    assert part[..base] == cells[..base] && part[base..] == cells[base..end];
    assert forall f :: f in cells[base..end] ==> f in cells;
    ChunkWants(net, store, cells, prompt, base, end);
    EvaluatePrefix(net, prompt, end);
    ghost var want := CacheOf(net, prompt[..end]);
    forall l, p | 0 <= l < |store| && base <= p < start && p < |part|
      ensures p < |want[l]| && Load(net, store[l], part[p]) == want[l][p]
    {
      assert PromptRow(net, prompt, l, p, Load(net, store[l], cells[p]));
      assert want[l][p] == CacheOf(net, prompt)[l][..end][p];
    }
    var outs;
    r, outs := PrefillForward(net, store, part, base, Embedded(net, prompt[base..end], base), start);
    tok := net.pick(Last(outs));
    ChunkReads(net, store, r, cells, prompt, base, end, if matched < base then base else matched);
  }

  lemma PrefillWrites(net: Net, was: Store, now: Store, table: seq<nat>, bs: nat, prompt: seq<Token>, matched: nat)
    requires bs > 0 && |prompt| <= |table| * bs && |now| == |was| == net.numLayers && matched <= |prompt|
    requires
      var cells := FlatSlotMapping(table, bs, |prompt|);
      && ReadsUpTo(net, was, cells, prompt, matched) && ReadsUpTo(net, now, cells, prompt, |prompt|)
      && forall l, f: nat :: 0 <= l < |was| && f !in cells ==> Load(net, now[l], f) == Load(net, was[l], f)
    ensures WritesWithin(net, was, now, bs, Tail(table, matched / bs))
  {
    var cells := FlatSlotMapping(table, bs, |prompt|);
    forall l, f: nat | 0 <= l < |was| && f / bs !in Tail(table, matched / bs)
      ensures Load(net, now[l], f) == Load(net, was[l], f)
    {
      if f in cells {
        var p :| 0 <= p < |cells| && cells[p] == f;
        FlatBlock(table, bs, p);
        if matched <= p { DivMono(matched, p, bs); }
        assert PromptRow(net, prompt, l, p, Load(net, was[l], cells[p])) && PromptRow(net, prompt, l, p, Load(net, now[l], cells[p]));
      }
    }
  }
}
